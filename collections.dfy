/** Sequence and map idioms that recur across the application: keeping the
    elements that pass a test, building a dict in which a later duplicate key
    overwrites an earlier one, de-duplicating in first-seen order, and the
    stable sort that Python's `list.sort` (and SQL's ORDER BY here) provides. */
module Collections {

  // ---------------------------------------------------------------------
  // Filtering and counting
  // ---------------------------------------------------------------------

  function Filter<T>(s: seq<T>, p: T -> bool): (r: seq<T>)
    ensures |r| <= |s|
  {
    if s == [] then [] else (if p(s[0]) then [s[0]] else []) + Filter(s[1..], p)
  }

  /** The kept elements are exactly the elements that pass. */
  lemma {:induction false} FilterContents<T>(s: seq<T>, p: T -> bool, x: T)
    ensures x in Filter(s, p) <==> x in s && p(x)
  {
    if s != [] {
      FilterContents(s[1..], p, x);
      assert x in s <==> x == s[0] || x in s[1..];
    }
  }

  lemma {:induction false} FilterAppend<T>(a: seq<T>, b: seq<T>, p: T -> bool)
    ensures Filter(a + b, p) == Filter(a, p) + Filter(b, p)
  {
    if a == [] {
      assert a + b == b;
    } else {
      assert (a + b)[0] == a[0];
      assert (a + b)[1..] == a[1..] + b;
      FilterAppend(a[1..], b, p);
      assert Filter(a + b, p) == (if p(a[0]) then [a[0]] else []) + Filter(a[1..] + b, p);
    }
  }

  /** `Filter` on a one-element extension, the step of a loop that appends. */
  lemma FilterSnoc<T>(s: seq<T>, x: T, p: T -> bool)
    ensures Filter(s + [x], p) == Filter(s, p) + (if p(x) then [x] else [])
  {
    FilterAppend(s, [x], p);
  }

  /** `a` is `b` with some elements left out, the rest in their order. */
  predicate IsSubsequence<T(==)>(a: seq<T>, b: seq<T>)
    decreases |b|
  {
    if b == [] then a == []
    else (a != [] && a[0] == b[0] && IsSubsequence(a[1..], b[1..])) || IsSubsequence(a, b[1..])
  }

  lemma {:induction false} FilterIsSubsequence<T>(s: seq<T>, p: T -> bool)
    ensures IsSubsequence(Filter(s, p), s)
  {
    if s != [] {
      FilterIsSubsequence(s[1..], p);
      if p(s[0]) {
        assert Filter(s, p)[1..] == Filter(s[1..], p);
      } else {
        assert Filter(s, p) == Filter(s[1..], p);
      }
    }
  }

  /** The number of elements that pass `p`. */
  function Count<T>(s: seq<T>, p: T -> bool): nat {
    |Filter(s, p)|
  }

  lemma CountSnoc<T>(s: seq<T>, x: T, p: T -> bool)
    ensures Count(s + [x], p) == Count(s, p) + (if p(x) then 1 else 0)
  {
    FilterSnoc(s, x, p);
  }

  lemma CountComplement<T>(s: seq<T>, p: T -> bool)
    ensures Count(s, p) + Count(s, x => !p(x)) == |s|
  {
    if s != [] {
      CountComplement(s[1..], p);
    }
  }

  /** A weaker test passes at least as many elements. */
  lemma {:induction false} CountImplies<T>(s: seq<T>, p: T -> bool, q: T -> bool)
    requires forall x :: p(x) ==> q(x)
    ensures Count(s, p) <= Count(s, q)
  {
    if s != [] {
      CountImplies(s[1..], p, q);
    }
  }

  // ---------------------------------------------------------------------
  // A dict filled in a loop: `out[key(it)] = it` unless the key is empty
  // ---------------------------------------------------------------------

  function KeyedMap<T>(s: seq<T>, key: T -> string): (m: map<string, T>)
    ensures "" !in m
  {
    if s == [] then map[]
    else
      var m := KeyedMap(s[..|s| - 1], key);
      var x := s[|s| - 1];
      if key(x) == "" then m else m[key(x) := x]
  }

  /** One more element: stored under its key unless that key is empty. */
  lemma KeyedMapSnoc<T>(s: seq<T>, x: T, key: T -> string)
    ensures KeyedMap(s + [x], key) == if key(x) == "" then KeyedMap(s, key) else KeyedMap(s, key)[key(x) := x]
  {
    assert (s + [x])[..|s|] == s;
  }

  /** The keys are exactly the non-empty keys of the elements. */
  lemma {:induction false} KeyedMapKeys<T>(s: seq<T>, key: T -> string, k: string)
    ensures k in KeyedMap(s, key) <==> k != "" && exists i :: 0 <= i < |s| && key(s[i]) == k
  {
    if s != [] {
      var t := s[..|s| - 1];
      KeyedMapKeys(t, key, k);
      if k in KeyedMap(t, key) {
        var i :| 0 <= i < |t| && key(t[i]) == k;
        assert key(s[i]) == k;
      }
      if k != "" && k !in KeyedMap(s, key) {
        forall i | 0 <= i < |s| ensures key(s[i]) != k {
          if i < |t| { assert s[i] == t[i]; }
        }
      }
    }
  }

  /** Each key holds the LAST element with that key. */
  lemma {:induction false} KeyedMapLastWins<T>(s: seq<T>, key: T -> string, k: string)
    requires k in KeyedMap(s, key)
    ensures exists i :: 0 <= i < |s| && key(s[i]) == k && KeyedMap(s, key)[k] == s[i]
                        && forall j :: i < j < |s| ==> key(s[j]) != k
  {
    var t := s[..|s| - 1];
    var x := s[|s| - 1];
    if key(x) == k {
      assert key(s[|s| - 1]) == k && KeyedMap(s, key)[k] == s[|s| - 1];
    } else {
      KeyedMapLastWins(t, key, k);
      var i :| 0 <= i < |t| && key(t[i]) == k && KeyedMap(t, key)[k] == t[i]
               && forall j :: i < j < |t| ==> key(t[j]) != k;
      assert s[i] == t[i];
      forall j | i < j < |s| ensures key(s[j]) != k {
        if j < |t| { assert s[j] == t[j]; }
      }
    }
  }

  /** When an element's key occurs nowhere else, the map holds that element. */
  lemma KeyedMapUnique<T>(s: seq<T>, key: T -> string, i: nat)
    requires i < |s| && key(s[i]) != ""
    requires forall j :: 0 <= j < |s| && j != i ==> key(s[j]) != key(s[i])
    ensures key(s[i]) in KeyedMap(s, key) && KeyedMap(s, key)[key(s[i])] == s[i]
  {
    KeyedMapKeys(s, key, key(s[i]));
    KeyedMapLastWins(s, key, key(s[i]));
  }

  /** The loop `for x in s: k = key(x); if k: m[k] = x` shared by the
      readers of the library index and of an import file. */
  method BuildKeyedMap<T>(s: seq<T>, key: T -> string) returns (m: map<string, T>)
    ensures m == KeyedMap(s, key)
  {
    m := map[];
    var i := 0;
    while i < |s|
      invariant 0 <= i <= |s|
      invariant m == KeyedMap(s[..i], key)
    {
      KeyedMapSnoc(s[..i], s[i], key);
      assert s[..i + 1] == s[..i] + [s[i]];
      var k := key(s[i]);
      if k != "" {
        m := m[k := s[i]];
      }
      i := i + 1;
    }
    assert s[..i] == s;
  }

  /** Replacing element `j` extends the prefix before it by the new value. */
  lemma UpdateExtends<T>(s: seq<T>, j: nat, x: T)
    requires j < |s|
    ensures s[j := x][..j + 1] == s[..j] + [x]
  {
  }

  // ---------------------------------------------------------------------
  // De-duplication in first-seen order (a `seen` set beside a `uniq` list)
  // ---------------------------------------------------------------------

  predicate NoDuplicates<T(==)>(s: seq<T>) {
    forall i, j :: 0 <= i < j < |s| ==> s[i] != s[j]
  }

  function FirstSeen<T(==)>(s: seq<T>): (r: seq<T>)
    ensures |r| <= |s|
  {
    if s == [] then []
    else
      var f := FirstSeen(s[..|s| - 1]);
      var x := s[|s| - 1];
      if x in s[..|s| - 1] then f else f + [x]
  }

  /** The de-duplication holds each element once and nothing else. */
  lemma {:induction false} FirstSeenContents<T>(s: seq<T>)
    ensures NoDuplicates(FirstSeen(s))
    ensures forall x :: x in FirstSeen(s) <==> x in s
  {
    if s != [] {
      var t := s[..|s| - 1];
      FirstSeenContents(t);
      assert s == t + [s[|s| - 1]];
      forall x ensures x in s <==> x in t || x == s[|s| - 1] { }
    }
  }

  lemma FirstSeenHas<T>(s: seq<T>, x: T)
    requires x in FirstSeen(s)
    ensures x in s
  {
    FirstSeenContents(s);
  }

  /** Everything first seen in `a` comes first, followed by what `b` adds
      that `a` did not already contain, in `b`'s first-seen order. */
  lemma {:induction false} FirstSeenAppend<T>(a: seq<T>, b: seq<T>)
    ensures FirstSeen(a + b) == FirstSeen(a) + Filter(FirstSeen(b), x => x !in a)
    decreases |b|
  {
    if b == [] {
      assert a + b == a;
    } else {
      var b' := b[..|b| - 1];
      var x := b[|b| - 1];
      assert (a + b)[..|a + b| - 1] == a + b';
      assert (a + b)[|a + b| - 1] == x;
      FirstSeenAppend(a, b');
      assert x in a + b' <==> x in a || x in b';
      if x !in b' {
        FilterSnoc(FirstSeen(b'), x, y => y !in a);
      }
    }
  }

  /** A list without duplicates is its own de-duplication. */
  lemma {:induction false} FirstSeenNoDuplicates<T>(s: seq<T>)
    requires NoDuplicates(s)
    ensures FirstSeen(s) == s
  {
    if s != [] {
      var t := s[..|s| - 1];
      assert NoDuplicates(t);
      FirstSeenNoDuplicates(t);
      assert s[|s| - 1] !in t;
      assert t + [s[|s| - 1]] == s;
    }
  }

  /** Elements keep the order of their first occurrences. */
  function IndexOf<T(==)>(s: seq<T>, x: T): (i: nat)
    requires x in s
    ensures i < |s| && s[i] == x && x !in s[..i]
  {
    if s[0] == x then 0
    else
      assert x in s[1..];
      var k := IndexOf(s[1..], x);
      assert s[..k + 1] == [s[0]] + s[1..][..k];
      k + 1
  }

  lemma {:induction false} FirstSeenOrder<T>(s: seq<T>, i: nat, j: nat)
    requires i < j < |FirstSeen(s)|
    ensures FirstSeen(s)[i] in s && FirstSeen(s)[j] in s
    ensures IndexOf(s, FirstSeen(s)[i]) < IndexOf(s, FirstSeen(s)[j])
  {
    FirstSeenContents(s);
    assert FirstSeen(s)[i] in FirstSeen(s) && FirstSeen(s)[j] in FirstSeen(s);
    var t := s[..|s| - 1];
    var x := s[|s| - 1];
    var f := FirstSeen(t);
    FirstSeenContents(t);
    var a, b := FirstSeen(s)[i], FirstSeen(s)[j];
    assert i < |f| && a == f[i];
    FirstSeenHas(t, a);
    IndexPrefix(s, t, a);
    if j < |f| {
      FirstSeenOrder(t, i, j);
      IndexPrefix(s, t, b);
    } else {
      assert b == x && x !in t;
      assert IndexOf(s, b) == |s| - 1;
    }
  }

  lemma IndexPrefix<T>(s: seq<T>, t: seq<T>, x: T)
    requires |t| <= |s| && t == s[..|t|] && x in t
    ensures x in s && IndexOf(s, x) == IndexOf(t, x)
  {
    var i, k := IndexOf(s, x), IndexOf(t, x);
    assert s[k] == x;
  }

  // ---------------------------------------------------------------------
  // Stable sorting by a key
  // ---------------------------------------------------------------------

  /** The sort keys the application uses: integers and strings. */
  datatype SortKey = IntKey(i: int) | StrKey(s: string)

  /** Python's `<` on strings: lexicographic by code point. */
  predicate StrLt(a: string, b: string)
    decreases |a|
  {
    if a == [] then b != []
    else b != [] && (a[0] < b[0] || (a[0] == b[0] && StrLt(a[1..], b[1..])))
  }

  lemma {:induction false} StrLtIrreflexive(a: string)
    ensures !StrLt(a, a)
  {
    if a != [] { StrLtIrreflexive(a[1..]); }
  }

  lemma {:induction false} StrLtAsymmetric(a: string, b: string)
    ensures StrLt(a, b) ==> !StrLt(b, a)
  {
    if a != [] && b != [] && a[0] == b[0] { StrLtAsymmetric(a[1..], b[1..]); }
  }

  /** "Not less than" is transitive: the order is total. */
  lemma {:induction false} StrLeTransitive(a: string, b: string, c: string)
    requires !StrLt(b, a) && !StrLt(c, b)
    ensures !StrLt(c, a)
  {
    if a != [] && b != [] && c != [] && a[0] == b[0] && b[0] == c[0] {
      StrLeTransitive(a[1..], b[1..], c[1..]);
    }
  }

  /** Keys are compared as their values; the two kinds never meet within
      one sort, and integers are put first if they did. */
  predicate KeyLt(a: SortKey, b: SortKey) {
    match (a, b)
    case (IntKey(x), IntKey(y)) => x < y
    case (StrKey(x), StrKey(y)) => StrLt(x, y)
    case (IntKey(_), StrKey(_)) => true
    case (StrKey(_), IntKey(_)) => false
  }

  /** `x` goes strictly before `y` in a sort with `reverse=desc`. */
  predicate Before(x: SortKey, y: SortKey, desc: bool) {
    if desc then KeyLt(y, x) else KeyLt(x, y)
  }

  lemma BeforeOrder(x: SortKey, y: SortKey, z: SortKey, desc: bool)
    ensures !Before(x, x, desc)
    ensures Before(x, y, desc) ==> !Before(y, x, desc)
    ensures !Before(x, y, desc) && !Before(y, z, desc) ==> !Before(x, z, desc)
  {
    if x.StrKey? { StrLtIrreflexive(x.s); }
    if x.StrKey? && y.StrKey? { StrLtAsymmetric(x.s, y.s); }
    if x.StrKey? && y.StrKey? && z.StrKey? {
      if desc {
        if !StrLt(y.s, x.s) && !StrLt(z.s, y.s) { StrLeTransitive(x.s, y.s, z.s); }
      } else {
        if !StrLt(x.s, y.s) && !StrLt(y.s, z.s) { StrLeTransitive(z.s, y.s, x.s); }
      }
    }
  }

  /** No element is strictly before an earlier one. */
  predicate SortedBy<T>(s: seq<T>, key: T -> SortKey, desc: bool) {
    forall i, j :: 0 <= i < j < |s| ==> !Before(key(s[j]), key(s[i]), desc)
  }

  /** Insert `x` after every element it does not go strictly before. */
  function Insert<T>(t: seq<T>, x: T, key: T -> SortKey, desc: bool): (r: seq<T>)
    ensures |r| == |t| + 1
  {
    if t == [] then [x]
    else
      var y := t[|t| - 1];
      if Before(key(x), key(y), desc) then Insert(t[..|t| - 1], x, key, desc) + [y] else t + [x]
  }

  /** Inserting adds `x` and keeps everything else. */
  lemma {:induction false} InsertPermutes<T>(t: seq<T>, x: T, key: T -> SortKey, desc: bool)
    ensures multiset(Insert(t, x, key, desc)) == multiset(t) + multiset{x}
  {
    if t != [] {
      var y, t' := t[|t| - 1], t[..|t| - 1];
      assert t == t' + [y];
      InsertPermutes(t', x, key, desc);
    }
  }

  /** Inserting into a sorted list keeps it sorted. */
  lemma {:induction false} InsertSorted<T>(t: seq<T>, x: T, key: T -> SortKey, desc: bool)
    requires SortedBy(t, key, desc)
    ensures SortedBy(Insert(t, x, key, desc), key, desc)
  {
    if t == [] {
      return;
    }
    var y, t' := t[|t| - 1], t[..|t| - 1];
    assert t == t' + [y];
    assert SortedBy(t', key, desc);
    if Before(key(x), key(y), desc) {
      var u := Insert(t', x, key, desc);
      InsertSorted(t', x, key, desc);
      InsertPermutes(t', x, key, desc);
      forall e | e in u ensures !Before(key(y), key(e), desc) {
        assert e in multiset(u);
        BeforeOrder(key(x), key(y), key(y), desc);
        if e != x {
          assert e in multiset(t');
          var k :| 0 <= k < |t'| && t'[k] == e;
          assert t[k] == e;
        }
      }
      SortedSnoc(u, y, key, desc);
    } else {
      forall e | e in t ensures !Before(key(x), key(e), desc) {
        var k :| 0 <= k < |t| && t[k] == e;
        BeforeOrder(key(x), key(y), key(e), desc);
        if k < |t| - 1 { assert !Before(key(y), key(e), desc); }
      }
      SortedSnoc(t, x, key, desc);
    }
  }

  lemma SortedSnoc<T>(u: seq<T>, y: T, key: T -> SortKey, desc: bool)
    requires SortedBy(u, key, desc)
    requires forall e :: e in u ==> !Before(key(y), key(e), desc)
    ensures SortedBy(u + [y], key, desc)
  {
    var v := u + [y];
    forall i, j | 0 <= i < j < |v| ensures !Before(key(v[j]), key(v[i]), desc) {
      if j < |u| { assert v[i] == u[i] && v[j] == u[j]; }
      else { assert v[i] in u; }
    }
  }

  /** Insertion sort: stable, as Python's `list.sort(key=..., reverse=...)`. */
  function StableSort<T>(s: seq<T>, key: T -> SortKey, desc: bool): (r: seq<T>)
    ensures multiset(r) == multiset(s)
    ensures SortedBy(r, key, desc)
  {
    if s == [] then []
    else
      var t, x := s[..|s| - 1], s[|s| - 1];
      assert s == t + [x];
      InsertPermutes(StableSort(t, key, desc), x, key, desc);
      InsertSorted(StableSort(t, key, desc), x, key, desc);
      Insert(StableSort(t, key, desc), x, key, desc)
  }

  /** The elements that share one key, in order. */
  function WithKey<T>(s: seq<T>, key: T -> SortKey, k: SortKey): seq<T> {
    if s == [] then [] else (if key(s[0]) == k then [s[0]] else []) + WithKey(s[1..], key, k)
  }

  lemma {:induction false} WithKeySnoc<T>(s: seq<T>, x: T, key: T -> SortKey, k: SortKey)
    ensures WithKey(s + [x], key, k) == WithKey(s, key, k) + (if key(x) == k then [x] else [])
  {
    if s == [] {
      assert s + [x] == [x];
    } else {
      var t, h := s[1..], if key(s[0]) == k then [s[0]] else [];
      var e := if key(x) == k then [x] else [];
      assert (s + [x])[0] == s[0] && (s + [x])[1..] == t + [x];
      WithKeySnoc(t, x, key, k);
      assert WithKey(s + [x], key, k) == h + (WithKey(t, key, k) + e);
      assert WithKey(s, key, k) == h + WithKey(t, key, k);
    }
  }

  lemma {:induction false} InsertWithKey<T>(t: seq<T>, x: T, key: T -> SortKey, desc: bool, k: SortKey)
    ensures WithKey(Insert(t, x, key, desc), key, k)
            == WithKey(t, key, k) + (if key(x) == k then [x] else [])
    decreases |t|
  {
    if t != [] {
      var y := t[|t| - 1];
      var t' := t[..|t| - 1];
      assert t == t' + [y];
      WithKeySnoc(t', y, key, k);
      if Before(key(x), key(y), desc) {
        InsertWithKey(t', x, key, desc, k);
        WithKeySnoc(Insert(t', x, key, desc), y, key, k);
        BeforeOrder(key(x), key(y), key(y), desc);
      } else {
        WithKeySnoc(t, x, key, k);
      }
    }
  }

  /** Stability: elements with equal keys keep their relative order. */
  lemma {:induction false} StableSortIsStable<T>(s: seq<T>, key: T -> SortKey, desc: bool, k: SortKey)
    ensures WithKey(StableSort(s, key, desc), key, k) == WithKey(s, key, k)
  {
    if s != [] {
      var t := s[..|s| - 1];
      assert s == t + [s[|s| - 1]];
      StableSortIsStable(t, key, desc, k);
      InsertWithKey(StableSort(t, key, desc), s[|s| - 1], key, desc, k);
      WithKeySnoc(t, s[|s| - 1], key, k);
    }
  }
}
