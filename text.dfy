/** Strings and the few pieces of Python string and regular-expression
    behaviour the application relies on: `str.strip`, ASCII `str.lower`,
    `startswith`/`endswith`/`in`, and the digit-run patterns `\d+` and
    `\d{5,}` of `re.match` and `re.search` (with `\d` read as ASCII digits). */
module Text {

  datatype Option<+T> = None | Some(value: T) {
    /** `x or default` for an optional value. */
    function GetOr(default: T): T {
      if Some? then value else default
    }
  }

  /** Python's `str.isspace` for one character. */
  predicate IsSpace(c: char) {
    c == ' ' || ('\t' <= c <= '\r') || ('\U{1C}' <= c <= '\U{1F}')
    || c == '\U{85}' || c == '\U{A0}' || c == '\U{1680}'
    || ('\U{2000}' <= c <= '\U{200A}') || c == '\U{2028}' || c == '\U{2029}'
    || c == '\U{202F}' || c == '\U{205F}' || c == '\U{3000}'
  }

  /** No whitespace at either end. */
  predicate IsStripped(s: string) {
    s == [] || (!IsSpace(s[0]) && !IsSpace(s[|s| - 1]))
  }

  function TrimLeft(s: string): (r: string)
    ensures |r| <= |s|
    ensures r == [] || !IsSpace(r[0])
  {
    if |s| > 0 && IsSpace(s[0]) then TrimLeft(s[1..]) else s
  }

  function TrimRight(s: string): (r: string)
    ensures |r| <= |s| && r == s[..|r|]
    ensures r == [] || !IsSpace(r[|r| - 1])
  {
    if |s| > 0 && IsSpace(s[|s| - 1]) then TrimRight(s[..|s| - 1]) else s
  }

  /** `str.strip()`: remove leading and trailing whitespace. */
  function Strip(s: string): (r: string)
    ensures IsStripped(r)
    ensures |r| <= |s|
    ensures IsStripped(s) ==> r == s
  {
    var l := TrimLeft(s);
    var r := TrimRight(l);
    assert r != [] ==> r[0] == l[0];
    r
  }

  /** What `TrimLeft` cuts off is whitespace, and the rest is kept. */
  lemma {:induction false} TrimLeftCuts(s: string)
    ensures var r := TrimLeft(s);
      r == s[|s| - |r|..] && forall k :: 0 <= k < |s| - |r| ==> IsSpace(s[k])
  {
    if |s| > 0 && IsSpace(s[0]) {
      TrimLeftCuts(s[1..]);
    }
  }

  /** What `TrimRight` cuts off is whitespace. */
  lemma {:induction false} TrimRightCuts(s: string)
    ensures var r := TrimRight(s);
      forall k :: |r| <= k < |s| ==> IsSpace(s[k])
  {
    if |s| > 0 && IsSpace(s[|s| - 1]) {
      TrimRightCuts(s[..|s| - 1]);
    }
  }

  /** The stripped text is `s` with a run of whitespace cut from each end
      and nothing else: together with `IsStripped` this pins it down. */
  lemma StripTrims(s: string)
    ensures exists i, j :: 0 <= i <= j <= |s| && Strip(s) == s[i..j]
              && (forall k :: 0 <= k < i ==> IsSpace(s[k]))
              && (forall k :: j <= k < |s| ==> IsSpace(s[k]))
  {
    var l := TrimLeft(s);
    var r := TrimRight(l);
    TrimLeftCuts(s);
    TrimRightCuts(l);
    var i := |s| - |l|;
    var j := i + |r|;
    assert r == s[i..j];
    forall k | j <= k < |s| ensures IsSpace(s[k]) {
      assert s[k] == l[k - i];
    }
  }

  lemma StripIdempotent(s: string)
    ensures Strip(Strip(s)) == Strip(s)
  {
  }

  predicate StartsWith(s: string, prefix: string) {
    |prefix| <= |s| && s[..|prefix|] == prefix
  }

  predicate EndsWith(s: string, suffix: string) {
    |suffix| <= |s| && s[|s| - |suffix|..] == suffix
  }

  /** Python's `t in s` for strings. */
  predicate Contains(s: string, t: string)
    decreases |s|
  {
    StartsWith(s, t) || (|s| > 0 && Contains(s[1..], t))
  }

  lemma {:induction false} ContainsPrefixed(x: string, s: string, t: string)
    requires Contains(s, t)
    ensures Contains(x + s, t)
    decreases |x|
  {
    if x != [] {
      ContainsPrefixed(x[1..], s, t);
      assert (x + s)[1..] == x[1..] + s;
    } else {
      assert x + s == s;
    }
  }

  function LowerChar(c: char): char {
    if 'A' <= c <= 'Z' then (c as int + 32) as char else c
  }

  /** `str.lower()` on the ASCII letters. */
  function Lower(s: string): (r: string)
    ensures |r| == |s|
    ensures forall i :: 0 <= i < |s| ==> r[i] == LowerChar(s[i])
  {
    seq(|s|, i requires 0 <= i < |s| => LowerChar(s[i]))
  }

  predicate NoUpper(s: string) {
    forall i :: 0 <= i < |s| ==> !('A' <= s[i] <= 'Z')
  }

  /** Lower-casing leaves no ASCII capital, changes nothing in a text that
      has none, and so is idempotent; it only changes capitals. */
  lemma LowerFacts(s: string)
    ensures NoUpper(Lower(s))
    ensures NoUpper(s) ==> Lower(s) == s
    ensures Lower(Lower(s)) == Lower(s)
    ensures forall i :: 0 <= i < |s| && Lower(s)[i] != s[i] ==> 'A' <= s[i] <= 'Z'
  {
    var r := Lower(s);
    forall i | 0 <= i < |s| ensures !('A' <= r[i] <= 'Z') {
      assert r[i] == LowerChar(s[i]);
    }
    assert Lower(r) == r by {
      forall i | 0 <= i < |r| ensures Lower(r)[i] == r[i] {
        assert !('A' <= r[i] <= 'Z');
      }
    }
  }

  predicate IsDigit(c: char) {
    '0' <= c <= '9'
  }

  predicate AllDigits(s: string) {
    forall i :: 0 <= i < |s| ==> IsDigit(s[i])
  }

  /** Length of the longest run of digits at the front of `s`. */
  function DigitRun(s: string): (n: nat)
    ensures n <= |s|
    ensures AllDigits(s[..n])
    ensures n < |s| ==> !IsDigit(s[n])
  {
    if |s| > 0 && IsDigit(s[0]) then
      var k := DigitRun(s[1..]);
      assert s[..k + 1] == [s[0]] + s[1..][..k];
      k + 1
    else 0
  }

  lemma {:induction false} DigitRunOf(d: string, rest: string)
    requires AllDigits(d)
    requires rest == [] || !IsDigit(rest[0])
    ensures DigitRun(d + rest) == |d|
    decreases |d|
  {
    if d == [] {
      assert d + rest == rest;
    } else {
      assert (d + rest)[1..] == d[1..] + rest;
      DigitRunOf(d[1..], rest);
    }
  }

  /** The pattern `open(\d{minLen,})close` anchored at the start of `s`
      (`re.match`); the digits are the captured group. The digit run is
      greedy, and since no digit can begin `close`, backtracking never
      finds a shorter match. */
  function MatchAt(s: string, open: string, close: string, minLen: nat): (r: Option<string>)
    ensures r.Some? ==> |r.value| >= minLen && AllDigits(r.value)
    ensures r.Some? ==> StartsWith(s, open + r.value + close)
  {
    if !StartsWith(s, open) then None
    else
      var n := DigitRun(s[|open|..]);
      if n >= minLen && StartsWith(s[|open| + n..], close) then
        var d := s[|open|..|open| + n];
        assert d == s[|open|..][..n];
        assert s[..|open| + n + |close|] == s[..|open|] + d + s[|open| + n..][..|close|];
        Some(d)
      else None
  }

  /** The same pattern found at the leftmost position where it matches
      (`re.search`). */
  function Search(s: string, open: string, close: string, minLen: nat): (r: Option<string>)
    ensures r.Some? ==> |r.value| >= minLen && AllDigits(r.value)
    ensures r.Some? ==> Contains(s, open + r.value + close)
    decreases |s|
  {
    var m := MatchAt(s, open, close, minLen);
    if m.Some? then m
    else if |s| == 0 then None
    else Search(s[1..], open, close, minLen)
  }

  /** A digits-only `open + d + close` at the front of `s` is what both
      `MatchAt` and `Search` capture. */
  lemma MatchAtOf(open: string, d: string, close: string, rest: string, minLen: nat)
    requires AllDigits(d) && |d| >= minLen
    requires close != [] ==> !IsDigit(close[0])
    requires close == [] ==> rest == [] || !IsDigit(rest[0])
    ensures MatchAt(open + d + close + rest, open, close, minLen) == Some(d)
    ensures Search(open + d + close + rest, open, close, minLen) == Some(d)
  {
    var s := open + d + close + rest;
    SplitFour(open, d, close, rest);
    DigitRunOf(d, close + rest);
    assert (close + rest)[..|close|] == close;
    assert MatchAt(s, open, close, minLen) == Some(d);
  }

  /** The pieces of `a + b + c + e`, cut at the known lengths. */
  lemma SplitFour(a: string, b: string, c: string, e: string)
    ensures var s := a + b + c + e;
      s[..|a|] == a && s[|a|..] == b + (c + e) && s[|a| + |b|..] == c + e
      && s[|a|..|a| + |b|] == b
  {
    var s := a + b + c + e;
    assert s == a + (b + (c + e));
  }

  /** Skipping a stretch in which no match starts. */
  lemma {:induction false} SearchSkips(x: string, y: string, open: string, close: string, minLen: nat)
    requires forall i :: 0 <= i < |x| ==> MatchAt((x + y)[i..], open, close, minLen).None?
    ensures Search(x + y, open, close, minLen) == Search(y, open, close, minLen)
    decreases |x|
  {
    if x == [] {
      assert x + y == y;
    } else {
      assert MatchAt((x + y)[0..], open, close, minLen).None?;
      assert (x + y)[0..] == x + y;
      assert (x + y)[1..] == x[1..] + y;
      forall i | 0 <= i < |x[1..]|
        ensures MatchAt((x[1..] + y)[i..], open, close, minLen).None?
      {
        assert (x[1..] + y)[i..] == (x + y)[i + 1..];
      }
      SearchSkips(x[1..], y, open, close, minLen);
    }
  }

  /** Decimal rendering of a natural number, as `str(n)`. */
  function NatToString(n: nat): (r: string)
    ensures r != [] && AllDigits(r)
  {
    if n < 10 then ["0123456789"[n]]
    else NatToString(n / 10) + ["0123456789"[n % 10]]
  }

  /** Value of a decimal digit string, as `int(s)` on such a string. */
  function DecimalValue(s: string): (v: nat)
    requires AllDigits(s)
  {
    if s == [] then 0
    else DecimalValue(s[..|s| - 1]) * 10 + (s[|s| - 1] as int - '0' as int)
  }

  lemma {:induction false} DecimalRoundTrip(n: nat)
    ensures DecimalValue(NatToString(n)) == n
  {
    var r := NatToString(n);
    if n >= 10 {
      DecimalRoundTrip(n / 10);
      assert r[..|r| - 1] == NatToString(n / 10);
    }
  }
}
