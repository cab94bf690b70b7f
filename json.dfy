/** Parsed JSON values as the application handles them: `metadata.json`,
    `purchase_import.json` and the thumbnail `meta.json` are read into
    Python dicts and lists, and the code looks at their fields through
    `dict.get`, `str(...)`, truthiness and `isinstance`. */
module JsonValues {
  import opened Text

  datatype Value =
    | Null
    | Bool(b: bool)
    | Num(n: int)
    | Str(s: string)
    | Arr(elems: seq<Value>)
    | Obj(fields: map<string, Value>)

  /** A JSON object, as the dict `json.load` gives. */
  type Record = map<string, Value>

  /** `d.get(k)` on a dict with string keys. */
  function Get<V>(r: map<string, V>, k: string): (v: Option<V>)
    ensures v.Some? <==> k in r
    ensures v.Some? ==> v.value == r[k]
  {
    if k in r then Some(r[k]) else None
  }

  /** Python truthiness of a value. */
  predicate Truthy(v: Value) {
    match v
    case Null => false
    case Bool(b) => b
    case Num(n) => n != 0
    case Str(s) => s != []
    case Arr(xs) => xs != []
    case Obj(m) => m != map[]
  }

  /** `str(n)` for an integer. */
  function IntToString(n: int): (r: string)
    ensures r != []
    ensures n >= 0 ==> AllDigits(r) && DecimalValue(r) == n
  {
    if n < 0 then "-" + NatToString(-n) else DecimalRoundTrip(n); NatToString(n)
  }

  /** `str(v)`. A list or an object is rendered by a marker that keeps the
      first character of Python's rendering (`[` or `{`); see README. */
  function PyStr(v: Value): (r: string)
    ensures v.Str? ==> r == v.s
    ensures v.Null? ==> r == "None"
    ensures v.Num? ==> ParseInt(r) == Some(v.n)
    ensures v.Bool? ==> ParseInt(r).None?
  {
    match v
    case Null => "None"
    case Bool(b) => var w := if b then "True" else "False"; ParseIntLetterLed(w); w
    case Num(n) => ParseIntOfString(n); IntToString(n)
    case Str(s) => s
    case Arr(_) => "[…]"
    case Obj(_) => "{…}"
  }

  /** `str(r.get(k, ""))`. */
  function StrField(r: Record, k: string): (t: string)
    ensures k !in r ==> t == ""
    ensures k in r && r[k].Str? ==> t == r[k].s
  {
    match Get<Value>(r, k)
    case None => ""
    case Some(v) => PyStr(v)
  }

  /** `str(r.get(k) or "")`: a missing or falsy value reads as "". */
  function StrOrEmpty(r: Record, k: string): (t: string)
    ensures k !in r || !Truthy(r[k]) ==> t == ""
    ensures k in r && r[k].Str? ==> t == r[k].s
  {
    match Get<Value>(r, k)
    case Some(v) => if Truthy(v) then PyStr(v) else ""
    case None => ""
  }

  /** The test `isinstance(v, str) and v.strip()` that guards every field
      copy: the stripped text of a string whose stripped text is not empty. */
  function NonBlank(v: Option<Value>): (r: Option<string>)
    ensures r.Some? <==> v.Some? && v.value.Str? && Strip(v.value.s) != []
    ensures r.Some? ==> r.value == Strip(v.value.s) && IsStripped(r.value)
  {
    match v
    case Some(Str(s)) => if Strip(s) != [] then Some(Strip(s)) else None
    case _ => None
  }

  /** `int(s)` on a string: surrounding whitespace, an optional sign, then
      ASCII digits; `None` stands for the `ValueError`. */
  function ParseInt(s: string): (r: Option<int>)
    ensures var t := Strip(s);
      r.Some? <==> (t != [] && AllDigits(t)) || (|t| >= 2 && (t[0] == '-' || t[0] == '+') && AllDigits(t[1..]))
    ensures var t := Strip(s);
      t != [] && AllDigits(t) ==> r == Some(DecimalValue(t))
    ensures var t := Strip(s);
      |t| >= 2 && (t[0] == '-' || t[0] == '+') && AllDigits(t[1..]) ==>
        var n: int := DecimalValue(t[1..]);
        r == Some(if t[0] == '-' then -n else n)
  {
    var t := Strip(s);
    if t != [] && (t[0] == '-' || t[0] == '+') then
      var d := t[1..];
      if d != [] && AllDigits(d) then
        var n: int := DecimalValue(d);
        Some(if t[0] == '-' then -n else n)
      else None
    else if t != [] && AllDigits(t) then Some(DecimalValue(t))
    else None
  }

  /** `int(v or 0)`; `None` stands for the exception `int` raises. */
  function PyIntOrZero(v: Option<Value>): (r: Option<int>)
    ensures v.None? || !Truthy(v.value) ==> r == Some(0)
    ensures v.Some? && v.value.Num? ==> r == Some(v.value.n)
  {
    if v.None? || !Truthy(v.value) then Some(0)
    else match v.value
      case Bool(b) => Some(if b then 1 else 0)
      case Num(n) => Some(n)
      case Str(s) => ParseInt(s)
      case _ => None
  }

  /** A text starting with a letter is not a number. */
  lemma ParseIntLetterLed(w: string)
    requires w != [] && 'A' <= w[0] <= 'Z'
    ensures ParseInt(w).None?
  {
    assert !IsSpace(w[0]);
    var t := Strip(w);
    StripTrims(w);
    assert t == [] || t[0] == w[0];
  }

  /** `int(str(n))` is `n`, negative numbers included. */
  lemma ParseIntOfString(n: int)
    ensures ParseInt(IntToString(n)) == Some(n)
  {
    var d := NatToString(if n < 0 then -n else n);
    DecimalRoundTrip(if n < 0 then -n else n);
    if n < 0 {
      assert IntToString(n) == "-" + d;
      ParseIntOfNegative(d);
    } else {
      assert IntToString(n) == d;
      ParseIntOfDigits(d);
    }
  }

  /** A digit string reads as its value. */
  lemma ParseIntOfDigits(d: string)
    requires d != [] && AllDigits(d)
    ensures ParseInt(d) == Some(DecimalValue(d))
  {
    assert IsStripped(d) by { assert IsDigit(d[0]) && IsDigit(d[|d| - 1]); }
    assert Strip(d) == d;
  }

  /** A minus sign before a digit string reads as the negated value. */
  lemma ParseIntOfNegative(d: string)
    requires d != [] && AllDigits(d)
    ensures ParseInt("-" + d) == Some(-(DecimalValue(d) as int))
  {
    var t := "-" + d;
    assert t[1..] == d && t[0] == '-';
    assert IsStripped(t) by { assert t[|t| - 1] == d[|d| - 1]; }
    assert Strip(t) == t;
  }

  /** What `read_metadata_json` can find at `metadata.json`. */
  datatype StoredFile = Missing | Unreadable | Parsed(doc: Value)

  /** `read_metadata_json`: a missing or unreadable index reads as
      `{"items": []}`. */
  function ReadMetadata(f: StoredFile): (v: Value)
    ensures f.Parsed? ==> v == f.doc
    ensures !f.Parsed? ==> v == Obj(map["items" := Arr([])])
  {
    if f.Parsed? then f.doc else Obj(map["items" := Arr([])])
  }

  /** The result of the test `if not meta or not isinstance(meta.get("items"),
      list)` that opens every reader of the index. */
  datatype ItemsView = NoItems | Items(items: seq<Value>) | Raises

  function ItemsOf(doc: Value): (r: ItemsView)
    ensures r.Items? <==> doc.Obj? && "items" in doc.fields && doc.fields["items"].Arr?
    ensures r.Items? ==> r.items == doc.fields["items"].elems
    ensures r.Raises? <==> Truthy(doc) && !doc.Obj?
  {
    if !Truthy(doc) then NoItems
    else match doc
      case Obj(m) => if "items" in m && m["items"].Arr? then Items(m["items"].elems) else NoItems
      case _ => Raises
  }

  /** Index items as records, when every one is an object; the readers call
      `it.get(...)` on each item, which raises on anything else. */
  function AsRecords(xs: seq<Value>): (r: Option<seq<Record>>)
    ensures r.Some? <==> forall i :: 0 <= i < |xs| ==> xs[i].Obj?
    ensures r.Some? ==> |r.value| == |xs| && forall i :: 0 <= i < |xs| ==> r.value[i] == xs[i].fields
  {
    if xs == [] then Some([])
    else match AsRecords(xs[..|xs| - 1])
      case None => None
      case Some(rs) =>
        if xs[|xs| - 1].Obj? then Some(rs + [xs[|xs| - 1].fields]) else None
  }
}
