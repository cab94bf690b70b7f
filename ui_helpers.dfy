/** The pure helpers of the main window (app/ui_main.py): guessing a
    product id from a library record, its display title and shop URL, the
    quantisation of the thumbnail size, the column count of the card grid
    and the index arithmetic of keyboard navigation. */
module CardHelpers {
  import opened Text
  import opened JsonValues
  import ItemIds

  /** Thumbnail size bounds and step, in pixels. */
  const ThumbMin: int := 256
  const ThumbMax: int := 608
  const ThumbStep: int := 32

  /** Minimum card width and the widest grid. */
  const CardMinWidth: int := 300
  const MaxColumns: int := 4

  // ---------------------------------------------------------------------
  // Substrings
  // ---------------------------------------------------------------------

  lemma {:induction false} ContainsExtended(u: string, rest: string, t: string)
    requires Contains(u, t)
    ensures Contains(u + rest, t)
    decreases |u|
  {
    if !StartsWith(u, t) {
      assert (u + rest)[1..] == u[1..] + rest;
      ContainsExtended(u[1..], rest, t);
    } else {
      assert (u + rest)[..|t|] == u[..|t|];
    }
  }

  lemma {:induction false} ContainsTransitive(s: string, u: string, t: string)
    requires Contains(s, u) && Contains(u, t)
    ensures Contains(s, t)
    decreases |s|
  {
    if StartsWith(s, u) {
      assert s == u + s[|u|..];
      ContainsExtended(u, s[|u|..], t);
    } else {
      ContainsTransitive(s[1..], u, t);
    }
  }

  /** `t` occurs in `x + t + y`. */
  lemma ContainsMiddle(x: string, t: string, y: string)
    ensures Contains(x + t + y, t)
  {
    assert Contains(t, t) by { assert t[..|t|] == t; }
    ContainsExtended(t, y, t);
    ContainsPrefixed(x, t + y, t);
    assert x + t + y == x + (t + y);
  }

  lemma {:induction false} TrimLeftInside(s: string)
    ensures Contains(s, TrimLeft(s))
    decreases |s|
  {
    if |s| > 0 && IsSpace(s[0]) {
      TrimLeftInside(s[1..]);
    } else {
      assert s[..|s|] == s;
    }
  }

  /** The stripped text is a substring of the text. */
  lemma StripInside(s: string)
    ensures Contains(s, Strip(s))
  {
    var l := TrimLeft(s);
    TrimLeftInside(s);
    var r := TrimRight(l);
    assert Contains(l, r) by {
      assert l == r + l[|r|..];
      ContainsMiddle([], r, l[|r|..]);
    }
    ContainsTransitive(s, l, r);
  }

  // ---------------------------------------------------------------------
  // Product id guessing
  // ---------------------------------------------------------------------

  /** `re.fullmatch(r"\d{5,}", s)`. */
  predicate IsDigitsId(s: string) {
    |s| >= 5 && AllDigits(s)
  }

  /** POSIX `os.path.basename`: what follows the last `/`. */
  function Basename(p: string): (b: string)
    ensures |b| <= |p| && b == p[|p| - |b|..]
    ensures forall i :: 0 <= i < |b| ==> b[i] != '/'
    ensures |b| < |p| ==> p[|p| - |b| - 1] == '/'
  {
    if p == [] || p[|p| - 1] == '/' then []
    else
      var b := Basename(p[..|p| - 1]);
      SuffixSnoc(p, b);
      b + [p[|p| - 1]]
  }

  /** A suffix of `p` without its last character, extended by that
      character, is a suffix of `p`. */
  lemma SuffixSnoc(p: string, b: string)
    requires p != [] && |b| < |p| && b == p[..|p| - 1][|p| - 1 - |b|..]
    ensures b + [p[|p| - 1]] == p[|p| - |b| - 1..]
  {
    var r := b + [p[|p| - 1]];
    forall i | 0 <= i < |r| ensures r[i] == p[|p| - |b| - 1 + i] {
      if i < |b| {
        assert b[i] == p[..|p| - 1][|p| - 1 - |b| + i];
      }
    }
  }

  /** A bracketed id, else an `/items/<id>` link, in a title. */
  function TitleId(txt: string): (r: Option<string>)
    ensures r.Some? ==> IsDigitsId(r.value)
  {
    var bracket := Search(txt, "[", "]", 5);
    if bracket.Some? then bracket else Search(txt, "/items/", "", 5)
  }

  /** The last component of the stripped path ("" for a blank path). */
  function PathBase(path: string): string {
    var p := Strip(path);
    if p != [] then Basename(p) else ""
  }

  /** A bracketed id, else any run of five or more digits, in the last
      component of the stripped path. */
  function PathId(path: string): (r: Option<string>)
    ensures r.Some? ==> IsDigitsId(r.value)
  {
    var base := PathBase(path);
    var bracket := Search(base, "[", "]", 5);
    if bracket.Some? then bracket else Search(base, "", "", 5)
  }

  /** What `Search` captures occurs in the searched text. */
  lemma SearchInside(s: string, open: string, close: string, minLen: nat)
    requires Search(s, open, close, minLen).Some?
    ensures Contains(s, Search(s, open, close, minLen).value)
  {
    var d := Search(s, open, close, minLen).value;
    ContainsMiddle(open, d, close);
    ContainsTransitive(s, open + d + close, d);
  }

  lemma TitleIdInside(txt: string)
    requires TitleId(txt).Some?
    ensures Contains(txt, TitleId(txt).value)
  {
    if Search(txt, "[", "]", 5).Some? {
      SearchInside(txt, "[", "]", 5);
    } else {
      SearchInside(txt, "/items/", "", 5);
    }
  }

  lemma PathIdInside(path: string)
    requires PathId(path).Some?
    ensures Contains(path, PathId(path).value)
  {
    var p := Strip(path);
    var base := PathBase(path);
    var d := PathId(path).value;
    if Search(base, "[", "]", 5).Some? {
      SearchInside(base, "[", "]", 5);
    } else {
      SearchInside(base, "", "", 5);
    }
    assert p != [];
    ContainsMiddle(p[..|p| - |base|], base, []);
    assert p[..|p| - |base|] + base + [] == p;
    ContainsTransitive(p, base, d);
    StripInside(path);
    ContainsTransitive(path, p, d);
  }

  /** `_guess_product_id`: the stripped `product_id` when it is a digits id,
      else the first of: an `/items/<id>` in the stripped `product_url`, a
      title id in `purchase_title`, then in `title`, a path id; else "". */
  function GuessProductId(it: Record): (pid: string)
    ensures pid == [] || IsDigitsId(pid)
  {
    var id := Strip(StrOrEmpty(it, "product_id"));
    var byUrl := Search(Strip(StrOrEmpty(it, "product_url")), "/items/", "", 5);
    var byPurchase := TitleId(StrOrEmpty(it, "purchase_title"));
    var byTitle := TitleId(StrOrEmpty(it, "title"));
    var byPath := PathId(StrOrEmpty(it, "path"));
    if IsDigitsId(id) then id
    else if byUrl.Some? then byUrl.value
    else if byPurchase.Some? then byPurchase.value
    else if byTitle.Some? then byTitle.value
    else if byPath.Some? then byPath.value
    else ""
  }

  /** A guessed id is always text found in one of the five fields. */
  lemma GuessFound(it: Record)
    ensures var pid := GuessProductId(it);
      pid != [] ==>
        Contains(StrOrEmpty(it, "product_id"), pid) || Contains(StrOrEmpty(it, "product_url"), pid)
        || Contains(StrOrEmpty(it, "purchase_title"), pid) || Contains(StrOrEmpty(it, "title"), pid)
        || Contains(StrOrEmpty(it, "path"), pid)
  {
    var id := StrOrEmpty(it, "product_id");
    var url := StrOrEmpty(it, "product_url");
    var pt := StrOrEmpty(it, "purchase_title");
    var t := StrOrEmpty(it, "title");
    var path := StrOrEmpty(it, "path");
    if IsDigitsId(Strip(id)) {
      StripInside(id);
    } else if Search(Strip(url), "/items/", "", 5).Some? {
      SearchInside(Strip(url), "/items/", "", 5);
      StripInside(url);
      ContainsTransitive(url, Strip(url), GuessProductId(it));
    } else if TitleId(pt).Some? {
      TitleIdInside(pt);
    } else if TitleId(t).Some? {
      TitleIdInside(t);
    } else if PathId(path).Some? {
      PathIdInside(path);
    }
  }

  /** A stored digits id wins over every other field. */
  lemma GuessPrefersStoredId(it: Record, pid: string)
    requires "product_id" in it && it["product_id"] == Str(pid)
    requires IsDigitsId(pid) && IsStripped(pid)
    ensures GuessProductId(it) == pid
  {
  }

  /** The canonical shop URL of `pid` carries `pid` as its first link id. */
  lemma ShopUrlId(pid: string)
    requires IsDigitsId(pid)
    ensures Search(ItemIds.BuildPublicItemUrl(pid), "/items/", "", 5) == Some(pid)
  {
    var x := "https://booth.pm/ja";
    assert ItemIds.BuildPublicItemUrl(pid) == x + "/items/" + pid + [];
    ItemIds.LinkAfter(x, pid, [], 5);
  }

  /** Without a usable stored id, the canonical shop URL of `pid` gives `pid`,
      whatever the titles and the path say. */
  lemma GuessFromShopUrl(it: Record, pid: string)
    requires !IsDigitsId(Strip(StrOrEmpty(it, "product_id")))
    requires "product_url" in it && it["product_url"] == Str(ItemIds.BuildPublicItemUrl(pid))
    requires IsDigitsId(pid)
    ensures GuessProductId(it) == pid
  {
    var url := ItemIds.BuildPublicItemUrl(pid);
    assert IsStripped(url) by { assert IsDigit(url[|url| - 1]); }
    ShopUrlId(pid);
  }

  /** The id of a folder named `[<id>]...` inside a directory. */
  lemma FolderPathId(dir: string, pid: string, rest: string)
    requires IsDigitsId(pid)
    requires forall i :: 0 <= i < |rest| ==> rest[i] != '/'
    requires rest != [] && !IsSpace(rest[|rest| - 1])
    requires dir != [] && !IsSpace(dir[0])
    ensures PathId(dir + "/" + "[" + pid + "]" + rest) == Some(pid)
  {
    var path := dir + "/" + "[" + pid + "]" + rest;
    assert IsStripped(path) by {
      assert path[0] == dir[0];
      assert path[|path| - 1] == rest[|rest| - 1];
    }
    var name := "[" + pid + "]" + rest;
    assert path == dir + "/" + name;
    forall i | 0 <= i < |name| ensures name[i] != '/' {
      if i > |pid| + 1 { assert name[i] == rest[i - |pid| - 2]; }
      else if 0 < i <= |pid| { assert name[i] == pid[i - 1]; assert IsDigit(pid[i - 1]); }
    }
    BasenameAfterSlash(dir, name);
    assert PathBase(path) == name;
    MatchAtOf("[", pid, "]", rest, 5);
  }

  /** With nothing else to go on, a folder named `[<id>]...` gives its id. */
  lemma GuessFromFolderName(it: Record, dir: string, pid: string, rest: string)
    requires !IsDigitsId(Strip(StrOrEmpty(it, "product_id")))
    requires Search(Strip(StrOrEmpty(it, "product_url")), "/items/", "", 5).None?
    requires TitleId(StrOrEmpty(it, "purchase_title")).None?
    requires TitleId(StrOrEmpty(it, "title")).None?
    requires "path" in it && it["path"] == Str(dir + "/" + "[" + pid + "]" + rest)
    requires IsDigitsId(pid)
    requires forall i :: 0 <= i < |rest| ==> rest[i] != '/'
    requires rest != [] && !IsSpace(rest[|rest| - 1])
    requires dir != [] && !IsSpace(dir[0])
    ensures GuessProductId(it) == pid
  {
    FolderPathId(dir, pid, rest);
  }

  lemma {:induction false} BasenameAfterSlash(dir: string, name: string)
    requires forall i :: 0 <= i < |name| ==> name[i] != '/'
    ensures Basename(dir + "/" + name) == name
    decreases |name|
  {
    var p := dir + "/" + name;
    if name == [] {
      assert p[|p| - 1] == '/';
    } else {
      assert p[..|p| - 1] == dir + "/" + name[..|name| - 1];
      BasenameAfterSlash(dir, name[..|name| - 1]);
      assert name[..|name| - 1] + [name[|name| - 1]] == name;
    }
  }

  // ---------------------------------------------------------------------
  // Display title and shop URL
  // ---------------------------------------------------------------------

  /** `it.get("purchase_title") or it.get("title") or ""`, then `str`. */
  function TitleText(it: Record): string {
    var pt := Get(it, "purchase_title");
    var t := Get(it, "title");
    if pt.Some? && Truthy(pt.value) then PyStr(pt.value)
    else if t.Some? && Truthy(t.value) then PyStr(t.value)
    else ""
  }

  /** `_get_display_title`: the stripped title text, else an "(untitled)"
      label carrying the guessed id when there is one. */
  function DisplayTitle(it: Record): (t: string)
    ensures t != []
  {
    var title := Strip(TitleText(it));
    if title != [] then title
    else
      var pid := GuessProductId(it);
      if pid != [] then "(untitled) " + pid else "(untitled)"
  }

  /** The title shown is never empty; a purchase title wins over the folder
      title, and a record without text falls back to its id. */
  lemma DisplayTitleChoice(it: Record)
    ensures DisplayTitle(it) != []
    ensures "purchase_title" in it && it["purchase_title"].Str? && Strip(it["purchase_title"].s) != []
            ==> DisplayTitle(it) == Strip(it["purchase_title"].s)
    ensures ("purchase_title" !in it || !Truthy(it["purchase_title"]))
            && "title" in it && it["title"].Str? && Strip(it["title"].s) != []
            ==> DisplayTitle(it) == Strip(it["title"].s)
    ensures Strip(TitleText(it)) == [] && GuessProductId(it) != []
            ==> DisplayTitle(it) == "(untitled) " + GuessProductId(it)
  {
  }

  predicate IsWebUrl(u: string) {
    StartsWith(u, "http://") || StartsWith(u, "https://")
  }

  /** `_get_product_url` from the stripped stored URL and the guessed id: a
      web URL as stored, else the canonical URL of the id, else "". */
  function UrlFor(url: string, pid: string): string {
    if IsWebUrl(url) then url
    else if pid != [] then ItemIds.BuildPublicItemUrl(pid)
    else ""
  }

  function ProductUrl(it: Record): string {
    UrlFor(Strip(StrOrEmpty(it, "product_url")), GuessProductId(it))
  }

  /** The URL opened for a card is a web URL whenever it is not empty: the
      stored one when it is a web URL, else the shop URL of the id; it is
      empty only when there is neither. */
  lemma ProductUrlShape(url: string, pid: string)
    ensures UrlFor(url, pid) != [] ==> IsWebUrl(UrlFor(url, pid))
    ensures UrlFor(url, pid) == [] <==> !IsWebUrl(url) && pid == []
    ensures IsWebUrl(url) ==> UrlFor(url, pid) == url
    ensures !IsWebUrl(url) && pid != [] && AllDigits(pid) ==> ItemIds.ItemIdOf(UrlFor(url, pid)) == Some(pid)
  {
    if !IsWebUrl(url) && pid != [] {
      var u := ItemIds.BuildPublicItemUrl(pid);
      assert u == "https://" + ("booth.pm/ja/items/" + pid);
      assert u[..8] == "https://";
      if AllDigits(pid) {
        ItemIds.CanonicalUrlId(pid);
      }
    }
  }

  // ---------------------------------------------------------------------
  // Thumbnail size and grid columns
  // ---------------------------------------------------------------------

  function Clamp(lo: int, hi: int, x: int): int {
    if hi < x then (if lo > hi then lo else hi) else if lo > x then lo else x
  }

  /** Python's `round(a / b)` for integers, `b > 0`: to the nearest integer,
      halves to the even neighbour. */
  function RoundHalfEven(a: int, b: int): (q: int)
    requires b > 0
    ensures 2 * (a - q * b) <= b && -b <= 2 * (a - q * b)
    ensures 2 * (a - q * b) == b ==> q % 2 == 0
    ensures 2 * (a - q * b) == -b ==> q % 2 == 0
  {
    var f, r := a / b, a % b;
    if 2 * r < b then f
    else if 2 * r > b then f + 1
    else if f % 2 == 0 then f
    else f + 1
  }

  /** `_quantize_px`: clamp to `[mn, mx]`, round to a multiple of `step`,
      clamp again. */
  function QuantizePx(px: int, step: int, mn: int, mx: int): (q: int)
    requires step != 0
  {
    var p := Clamp(mn, mx, px);
    var k := if step > 0 then RoundHalfEven(p, step) else RoundHalfEven(-p, -step);
    var m := k * step;
    Clamp(mn, mx, m)
  }

  /** For the 32-pixel step the window uses, the quantised size stays
      within the bounds, is on the 32-pixel grid when the bounds are, and is
      within half a step of the clamped request. */
  lemma QuantizeBounds(px: int, mn: int, mx: int)
    requires mn <= mx
    ensures var q := QuantizePx(px, ThumbStep, mn, mx);
      mn <= q <= mx
      && (mn % ThumbStep == 0 && mx % ThumbStep == 0 ==> q % ThumbStep == 0)
      && 2 * (q - Clamp(mn, mx, px)) <= ThumbStep && -ThumbStep <= 2 * (q - Clamp(mn, mx, px))
  {
    var p := Clamp(mn, mx, px);
    var k := RoundHalfEven(p, ThumbStep);
    assert QuantizePx(px, ThumbStep, mn, mx) == Clamp(mn, mx, k * 32);
  }

  /** Sizes already on the 32-pixel grid are kept. */
  lemma QuantizeFixes(k: int, mn: int, mx: int)
    requires mn <= k * ThumbStep <= mx
    ensures QuantizePx(k * ThumbStep, ThumbStep, mn, mx) == k * ThumbStep
  {
  }

  /** With the window's bounds every request lands on one of the twelve
      sizes 256, 288, ..., 608. */
  lemma QuantizeSizes(px: int)
    ensures var q := QuantizePx(px, ThumbStep, ThumbMin, ThumbMax);
      ThumbMin <= q <= ThumbMax && q % ThumbStep == 0
  {
    QuantizeBounds(px, ThumbMin, ThumbMax);
  }

  /** `_calc_columns`: one column per 300 pixels, between one and four. */
  function CalcColumns(width: int): (c: int)
  {
    if width <= 0 then 1 else Clamp(1, MaxColumns, width / CardMinWidth)
  }

  /** The grid has one to four columns, one for a collapsed window, and
      never loses a column when the window widens. */
  lemma ColumnsBounded(w: int, w': int)
    requires w <= w'
    ensures 1 <= CalcColumns(w) <= MaxColumns
    ensures w <= 0 ==> CalcColumns(w) == 1
    ensures w >= MaxColumns * CardMinWidth ==> CalcColumns(w) == MaxColumns
    ensures CalcColumns(w) <= CalcColumns(w')
  {
    if w > 0 {
      assert w / CardMinWidth <= w' / CardMinWidth;
    }
  }

  // ---------------------------------------------------------------------
  // Keyboard navigation
  // ---------------------------------------------------------------------

  /** `_select_by_index`'s clamp into a list of `n > 0` cards. */
  function ClampIndex(n: nat, idx: int): (i: nat)
    requires n > 0
  {
    if idx < 0 then 0 else if idx > n - 1 then n - 1 else idx
  }

  /** `_nav_move`: the card index an arrow key selects, from the index of
      the selected card (`None` for no selection) in a grid of `cols`
      columns; `None` when there are no cards. */
  function NavTarget(n: nat, current: Option<int>, cols: int, dx: int, dy: int): (r: Option<nat>)
  {
    if n == 0 then None
    else
      var c := if cols >= 1 then cols else 1;
      var step := if dy != 0 then dy * c else dx;
      Some(ClampIndex(n, current.GetOr(0) + step))
  }

  /** An arrow key always lands on a card; inside the list the vertical keys
      move by one row and the horizontal keys by one card, and at an edge the
      selection stays on the edge card. */
  lemma NavTargetMoves(n: nat, cur: int, cols: int, dx: int, dy: int)
    requires n > 0
    ensures var r := NavTarget(n, Some(cur), cols, dx, dy);
      r.Some? && r.value < n
      && (var step := if dy != 0 then dy * (if cols >= 1 then cols else 1) else dx;
          (0 <= cur + step < n ==> r.value == cur + step)
          && (cur + step < 0 ==> r.value == 0)
          && (cur + step >= n ==> r.value == n - 1))
    ensures NavTarget(0, Some(cur), cols, dx, dy) == None
  {
  }
}
