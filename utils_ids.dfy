/** Product ids and item URLs (app/utils.py): the `[<digits>] name` folder
    convention, the canonical public item URL, and the normalisation of
    pasted or scraped item links to that URL. */
module ItemIds {
  import opened Text

  /** The fixed part of `build_public_item_url`. */
  const ItemUrlPrefix: string := "https://booth.pm/ja/items/"

  /** `extract_product_id`: the digits of a leading `[<digits>]`. */
  function ExtractProductId(folderName: string): (r: Option<string>)
    ensures r.Some? ==> r.value != [] && AllDigits(r.value)
    ensures r.Some? ==> StartsWith(folderName, "[" + r.value + "]")
  {
    MatchAt(folderName, "[", "]", 1)
  }

  /** Whatever follows the closing bracket, the bracketed digits are the id;
      with the postcondition above, `None` means the name does not begin
      with `[<digits>]`. */
  lemma ExtractProductIdOf(d: string, rest: string)
    requires d != [] && AllDigits(d)
    ensures ExtractProductId("[" + d + "]" + rest) == Some(d)
  {
    MatchAtOf("[", d, "]", rest, 1);
  }

  /** `build_public_item_url`. */
  function BuildPublicItemUrl(productId: string): (u: string)
    ensures StartsWith(u, ItemUrlPrefix) && u[|ItemUrlPrefix|..] == productId
  {
    ItemUrlPrefix + productId
  }

  /** The id in an item URL: the first `/items/(\d+)` of `re.search`. */
  function ItemIdOf(url: string): (r: Option<string>)
    ensures r.Some? ==> r.value != [] && AllDigits(r.value)
  {
    Search(url, "/items/", "", 1)
  }

  /** What `build_public_item_url` produces for a digit id. */
  predicate IsCanonicalItemUrl(u: string) {
    StartsWith(u, ItemUrlPrefix) && |u| > |ItemUrlPrefix| && AllDigits(u[|ItemUrlPrefix|..])
  }

  /** After a stretch with no `/i` in it, the first `/items/<digits>` with at
      least `minLen` digits is the one `re.search` finds. */
  lemma LinkAfter(x: string, pid: string, rest: string, minLen: nat)
    requires forall i :: 0 <= i < |x| && x[i] == '/' ==> i + 1 < |x| && x[i + 1] != 'i'
    requires |pid| >= minLen && AllDigits(pid) && (rest == [] || !IsDigit(rest[0]))
    ensures Search(x + "/items/" + pid + rest, "/items/", "", minLen) == Some(pid)
  {
    var y := "/items/" + pid + rest;
    assert x + "/items/" + pid + rest == x + y;
    forall i | 0 <= i < |x|
      ensures MatchAt((x + y)[i..], "/items/", "", minLen).None?
    {
      var s := (x + y)[i..];
      assert s[0] == x[i];
      if x[i] == '/' {
        assert i + 1 < |x|;
        assert s[1] == x[i + 1];
      }
    }
    SearchSkips(x, y, "/items/", "", minLen);
    MatchAtOf("/items/", pid, "", rest, minLen);
    assert "/items/" + pid + "" + rest == y;
  }

  /** An id after a stretch with no `/i` in it is the one `ItemIdOf` finds. */
  lemma ItemIdAfter(x: string, pid: string, rest: string)
    requires forall i :: 0 <= i < |x| && x[i] == '/' ==> i + 1 < |x| && x[i + 1] != 'i'
    requires pid != [] && AllDigits(pid) && (rest == [] || !IsDigit(rest[0]))
    ensures ItemIdOf(x + "/items/" + pid + rest) == Some(pid)
  {
    LinkAfter(x, pid, rest, 1);
  }

  /** The canonical URL of an id carries that id and no earlier `/items/<d>`. */
  lemma CanonicalUrlId(pid: string)
    requires pid != [] && AllDigits(pid)
    ensures ItemIdOf(BuildPublicItemUrl(pid)) == Some(pid)
  {
    var x := "https://booth.pm/ja";
    assert BuildPublicItemUrl(pid) == x + "/items/" + pid + [];
    ItemIdAfter(x, pid, []);
  }

  /** The two rewrites of `_normalize_item_url`: protocol-relative links get
      `https:`, root-relative links get the public host. */
  function Absolutize(u: string): (r: string)
    ensures StartsWith(u, "//") ==> r == "https:" + u
    ensures !StartsWith(u, "/") ==> r == u
  {
    var u1 := if StartsWith(u, "//") then "https:" + u else u;
    assert StartsWith(u, "//") ==> u1[..1] == "h";
    if StartsWith(u1, "/") then "https://booth.pm" + u1 else u1
  }

  predicate IsHttpUrl(u: string) {
    StartsWith(u, "http://") || StartsWith(u, "https://")
  }

  /** `_normalize_item_url`. */
  function NormalizeItemUrl(url: string): (r: Option<string>)
    ensures r.Some? ==> IsCanonicalItemUrl(r.value)
    ensures !IsHttpUrl(Absolutize(Strip(url))) ==> r.None?
    ensures r.Some? <==> IsHttpUrl(Absolutize(Strip(url))) && ItemIdOf(Absolutize(Strip(url))).Some?
    ensures r.Some? ==> r.value == BuildPublicItemUrl(ItemIdOf(Absolutize(Strip(url))).value)
  {
    var u := Strip(url);
    if u == [] then None
    else
      var v := Absolutize(u);
      if !IsHttpUrl(v) then None
      else match ItemIdOf(v)
        case None => None
        case Some(pid) => Some(BuildPublicItemUrl(pid))
  }

  /** A canonical URL normalises to itself. */
  lemma CanonicalIsNormal(pid: string)
    requires pid != [] && AllDigits(pid)
    ensures NormalizeItemUrl(BuildPublicItemUrl(pid)) == Some(BuildPublicItemUrl(pid))
  {
    var u := BuildPublicItemUrl(pid);
    assert !IsSpace(u[0]);
    assert IsDigit(u[|u| - 1]);
    assert Strip(u) == u;
    assert StartsWith(u, "https://") by { assert u[..8] == ItemUrlPrefix[..8]; }
    assert u[..1] == "h";
    CanonicalUrlId(pid);
  }

  /** `_normalize_item_url` is idempotent on what it returns. */
  lemma NormalizeIdempotent(url: string)
    requires NormalizeItemUrl(url).Some?
    ensures NormalizeItemUrl(NormalizeItemUrl(url).value) == NormalizeItemUrl(url)
  {
    CanonicalIsNormal(ItemIdOf(Absolutize(Strip(url))).value);
  }

  /** What may follow the id in a link: nothing, or a query or fragment
      that does not start with a digit and does not end in whitespace. */
  predicate IdTail(rest: string) {
    rest == [] || (!IsDigit(rest[0]) && !IsSpace(rest[|rest| - 1]))
  }

  lemma LinkStripped(head: string, pid: string, rest: string)
    requires head != [] && !IsSpace(head[0]) && pid != [] && AllDigits(pid) && IdTail(rest)
    ensures Strip(head + pid + rest) == head + pid + rest
  {
    var u := head + pid + rest;
    assert u[0] == head[0];
    if rest == [] {
      assert u[|u| - 1] == pid[|pid| - 1];
    } else {
      assert u[|u| - 1] == rest[|rest| - 1];
    }
  }

  /** A protocol-relative item link, `//host/ja/items/<id>?...`, normalises
      to the canonical URL of its id. */
  lemma NormalizeProtocolRelative(pid: string, rest: string)
    requires pid != [] && AllDigits(pid) && IdTail(rest)
    ensures NormalizeItemUrl("//host/ja/items/" + pid + rest) == Some(BuildPublicItemUrl(pid))
  {
    var h := "//host/ja/items/";
    var u := h + pid + rest;
    var v := "https:" + u;
    ProtocolRelativeAbsolutized(pid, rest);
    assert "https:" + h == "https://host/ja" + "/items/";
    assert v == ("https:" + h) + pid + rest;
    ItemIdAfter("https://host/ja", pid, rest);
    NormalizeSteps(u, v, pid);
  }

  lemma ProtocolRelativeAbsolutized(pid: string, rest: string)
    requires pid != [] && AllDigits(pid) && IdTail(rest)
    ensures var u := "//host/ja/items/" + pid + rest;
      Strip(u) == u && Absolutize(u) == "https:" + u && IsHttpUrl("https:" + u)
  {
    var h := "//host/ja/items/";
    var u := h + pid + rest;
    LinkStripped(h, pid, rest);
    assert u[..2] == "//";
    var v := "https:" + u;
    assert Absolutize(u) == v by { assert v[..1] == "h"; }
    assert IsHttpUrl(v) by { assert v[..8] == "https://"; }
  }

  /** A root-relative item link, `/ja/items/<id>`, gets the public host and
      normalises to the canonical URL of its id. */
  lemma NormalizeRootRelative(pid: string, rest: string)
    requires pid != [] && AllDigits(pid) && IdTail(rest)
    ensures NormalizeItemUrl("/ja/items/" + pid + rest) == Some(BuildPublicItemUrl(pid))
  {
    var h := "/ja/items/";
    var u := h + pid + rest;
    var v := "https://booth.pm" + u;
    RootRelativeAbsolutized(pid, rest);
    assert "https://booth.pm" + h == "https://booth.pm/ja" + "/items/";
    assert v == ("https://booth.pm" + h) + pid + rest;
    ItemIdAfter("https://booth.pm/ja", pid, rest);
    NormalizeSteps(u, v, pid);
  }

  lemma RootRelativeAbsolutized(pid: string, rest: string)
    requires pid != [] && AllDigits(pid) && IdTail(rest)
    ensures var u := "/ja/items/" + pid + rest;
      Strip(u) == u && Absolutize(u) == "https://booth.pm" + u && IsHttpUrl("https://booth.pm" + u)
  {
    var h := "/ja/items/";
    var u := h + pid + rest;
    LinkStripped(h, pid, rest);
    assert u[..1] == "/" && u[1] == 'j';
    var v := "https://booth.pm" + u;
    assert Absolutize(u) == v;
    assert IsHttpUrl(v) by { assert v[..8] == "https://"; }
  }

  /** An absolute item link on another host without the language segment,
      `https://host/items/<id>`, normalises to the canonical URL of its id. */
  lemma NormalizeAbsolute(pid: string, rest: string)
    requires pid != [] && AllDigits(pid) && IdTail(rest)
    ensures NormalizeItemUrl("https://host/items/" + pid + rest) == Some(BuildPublicItemUrl(pid))
  {
    var h := "https://host/items/";
    var u := h + pid + rest;
    LinkStripped(h, pid, rest);
    assert !StartsWith(u, "/") by { assert u[0] == 'h'; }
    assert IsHttpUrl(u) by { assert u[..8] == "https://"; }
    assert h == "https://host" + "/items/";
    ItemIdAfter("https://host", pid, rest);
    NormalizeSteps(u, u, pid);
  }

  /** `_normalize_item_url` through its steps: a stripped link whose
      absolute form is an http(s) URL carrying `pid`. */
  lemma NormalizeSteps(u: string, v: string, pid: string)
    requires Strip(u) == u && Absolutize(u) == v && IsHttpUrl(v) && ItemIdOf(v) == Some(pid)
    ensures NormalizeItemUrl(u) == Some(BuildPublicItemUrl(pid))
  {
  }
}
