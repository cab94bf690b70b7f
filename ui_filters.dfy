/** The item list of the main window (`_apply_filters` in app/ui_main.py):
    the records of the last scan are filtered by the search box and the
    filter menu, sorted by the sort menu, and indexed by normalised path for
    keyboard navigation; a selection that is no longer listed is dropped.
    `os.path.normpath` is a parameter `norm` of the window. */
module ItemFilters {
  import opened Text
  import opened JsonValues
  import opened Collections
  import opened CardHelpers

  // ---------------------------------------------------------------------
  // The filter menu
  // ---------------------------------------------------------------------

  const AllMode: string := "すべて"
  const ZipMode: string := "ZIPあり"
  const DocsMode: string := "文書あり"
  const SourceMode: string := "ソースあり"
  const ImageMode: string := "画像あり"
  const NoThumbMode: string := "サムネ無し"
  const NoPurchaseMode: string := "購入情報無し"

  /** The search box test on the lowered, stripped query: a blank query
      keeps everything, otherwise the query must occur in the lowered
      display title, in the guessed id or in the lowered path. */
  predicate MatchesQuery(it: Record, q: string) {
    q == [] || Contains(Lower(DisplayTitle(it)), q) || Contains(GuessProductId(it), q)
    || Contains(Lower(StrOrEmpty(it, "path")), q)
  }

  /** `int(it.get(field) or 0) > 0`; `None` stands for the exception `int`
      raises on a value that is not a number. */
  function CountTest(it: Record, field: string): (r: Option<bool>)
    ensures field !in it ==> r == Some(false)
    ensures field in it && it[field].Num? ==> r == Some(it[field].n > 0)
  {
    var n := PyIntOrZero(Get(it, field));
    if n.Some? then Some(n.value > 0) else None
  }

  /** `_has_thumb`: a string thumbnail path that is not blank. */
  predicate HasThumb(it: Record) {
    NonBlank(Get(it, "thumbnail")).Some?
  }

  /** `_has_purchase_info`. */
  predicate HasPurchaseInfo(it: Record) {
    Strip(StrOrEmpty(it, "purchase_title")) != []
  }

  /** The filter menu's test: whether a record is kept; `None` when the
      test raises. Any other menu text keeps everything. */
  function ModeTest(it: Record, mode: string): Option<bool> {
    if mode == ZipMode then CountTest(it, "zip_count")
    else if mode == DocsMode then CountTest(it, "doc_count")
    else if mode == SourceMode then CountTest(it, "source_count")
    else if mode == ImageMode then CountTest(it, "image_count")
    else if mode == NoThumbMode then Some(!HasThumb(it))
    else if mode == NoPurchaseMode then Some(!HasPurchaseInfo(it))
    else Some(true)
  }

  /** Both tests, the query first: a record the query drops is never given
      to the mode test. */
  function Passes(it: Record, q: string, mode: string): Option<bool> {
    if !MatchesQuery(it, q) then Some(false) else ModeTest(it, mode)
  }

  function Keep(q: string, mode: string): Record -> bool {
    it => Passes(it, q, mode) == Some(true)
  }

  /** `self._items_all if isinstance(self._items_all, list) else []`. */
  function ListItems(v: Value): seq<Value> {
    if v.Arr? then v.elems else []
  }

  /** The dict elements of a list, in order. */
  function DictItems(xs: seq<Value>): seq<Record> {
    if xs == [] then []
    else
      var x := xs[|xs| - 1];
      DictItems(xs[..|xs| - 1]) + (if x.Obj? then [x.fields] else [])
  }

  /** One turn of the filter loop. */
  function FilterStep(prev: Option<seq<Record>>, x: Value, q: string, mode: string): Option<seq<Record>> {
    if prev.None? || !x.Obj? then prev
    else match Passes(x.fields, q, mode)
      case None => None
      case Some(keep) => if keep then Some(prev.value + [x.fields]) else prev
  }

  /** The filter loop: the kept records in order, or `None` once a test
      raises. */
  function Filtered(xs: seq<Value>, q: string, mode: string): Option<seq<Record>> {
    if xs == [] then Some([])
    else FilterStep(Filtered(xs[..|xs| - 1], q, mode), xs[|xs| - 1], q, mode)
  }

  /** The loop raises exactly when some dict item's test raises, and
      otherwise keeps exactly the dict items that pass, in their order. */
  lemma {:induction false} FilteredIsFilter(xs: seq<Value>, q: string, mode: string)
    ensures Filtered(xs, q, mode).None? <==> exists it :: it in DictItems(xs) && Passes(it, q, mode).None?
    ensures Filtered(xs, q, mode).Some? ==> Filtered(xs, q, mode).value == Filter(DictItems(xs), Keep(q, mode))
  {
    if xs != [] {
      var init, x := xs[..|xs| - 1], xs[|xs| - 1];
      FilteredIsFilter(init, q, mode);
      assert Filtered(xs, q, mode) == FilterStep(Filtered(init, q, mode), x, q, mode);
      if x.Obj? {
        FilterSnoc(DictItems(init), x.fields, Keep(q, mode));
        assert DictItems(xs) == DictItems(init) + [x.fields];
        forall it ensures it in DictItems(xs) <==> it in DictItems(init) || it == x.fields { }
      } else {
        assert DictItems(xs) == DictItems(init);
      }
    }
  }

  /** A kept record is a dict item of the list that passes both tests, and
      every such dict item is kept. */
  lemma FilteredMembers(xs: seq<Value>, q: string, mode: string, it: Record)
    requires Filtered(xs, q, mode).Some?
    ensures it in Filtered(xs, q, mode).value <==> Obj(it) in xs && Passes(it, q, mode) == Some(true)
  {
    FilteredIsFilter(xs, q, mode);
    FilterContents(DictItems(xs), Keep(q, mode), it);
    DictItemsMembers(xs, it);
  }

  lemma {:induction false} DictItemsMembers(xs: seq<Value>, it: Record)
    ensures it in DictItems(xs) <==> Obj(it) in xs
  {
    if xs != [] {
      var init := xs[..|xs| - 1];
      DictItemsMembers(init, it);
      assert xs == init + [xs[|xs| - 1]];
    }
  }

  // ---------------------------------------------------------------------
  // The sort menu
  // ---------------------------------------------------------------------

  const TitleSort: string := "タイトル"
  const IdSort: string := "ID"
  const DateSort: string := "購入日"
  const ZipSort: string := "ZIP数"
  const DocsSort: string := "文書数"
  const ImagesSort: string := "画像数"

  function TitleKey(it: Record): SortKey {
    StrKey(Lower(DisplayTitle(it)))
  }

  /** `int(pid)` of the guessed id, 0 when there is none. */
  function IdKey(it: Record): SortKey {
    IntKey(ParseInt(GuessProductId(it)).GetOr(0))
  }

  function DateKey(it: Record): SortKey {
    StrKey(StrOrEmpty(it, "purchased_at"))
  }

  function ZipKey(it: Record): SortKey {
    IntKey(PyIntOrZero(Get(it, "zip_count")).GetOr(0))
  }

  function DocsKey(it: Record): SortKey {
    IntKey(PyIntOrZero(Get(it, "doc_count")).GetOr(0))
  }

  function ImagesKey(it: Record): SortKey {
    IntKey(PyIntOrZero(Get(it, "image_count")).GetOr(0))
  }

  /** The key of a sort menu entry. */
  function KeyFn(entry: string): Option<(Record -> SortKey)> {
    if entry == TitleSort then Some(TitleKey)
    else if entry == IdSort then Some(IdKey)
    else if entry == DateSort then Some(DateKey)
    else if entry == ZipSort then Some(ZipKey)
    else if entry == DocsSort then Some(DocsKey)
    else if entry == ImagesSort then Some(ImagesKey)
    else None
  }

  /** The field a count key converts with `int`, which can raise. */
  function CountField(entry: string): Option<string> {
    if entry == ZipSort then Some("zip_count")
    else if entry == DocsSort then Some("doc_count")
    else if entry == ImagesSort then Some("image_count")
    else None
  }

  predicate CountsParse(fs: seq<Record>, field: string) {
    forall i :: 0 <= i < |fs| ==> PyIntOrZero(Get(fs[i], field)).Some?
  }

  /** Whether `list.sort` completes: a known entry whose keys all compute. */
  predicate SortApplies(fs: seq<Record>, entry: string) {
    KeyFn(entry).Some? && (CountField(entry).Some? ==> CountsParse(fs, CountField(entry).value))
  }

  /** The sort step: a stable sort by the entry's key (descending when
      `desc`); an unknown entry, or a key that raises inside the
      `try ... except: pass`, leaves the order as filtered. */
  function SortItems(fs: seq<Record>, entry: string, desc: bool): seq<Record> {
    if SortApplies(fs, entry) then StableSort(fs, KeyFn(entry).value, desc) else fs
  }

  /** The sort only reorders; when it applies the list is ordered by the
      chosen key and records with equal keys keep their filtered order. */
  lemma SortItemsOrder(fs: seq<Record>, entry: string, desc: bool, k: SortKey)
    ensures multiset(SortItems(fs, entry, desc)) == multiset(fs)
    ensures SortApplies(fs, entry) ==>
      var key := KeyFn(entry).value;
      SortedBy(SortItems(fs, entry, desc), key, desc)
      && WithKey(SortItems(fs, entry, desc), key, k) == WithKey(fs, key, k)
    ensures !SortApplies(fs, entry) ==> SortItems(fs, entry, desc) == fs
  {
    if SortApplies(fs, entry) {
      StableSortIsStable(fs, KeyFn(entry).value, desc, k);
    }
  }

  // ---------------------------------------------------------------------
  // Navigation index and selection
  // ---------------------------------------------------------------------

  /** `_norm_path(str(it.get("path") or ""))`. */
  function PathOf(norm: string -> string, it: Record): string {
    norm(StrOrEmpty(it, "path"))
  }

  /** `_items_index_map`: each non-empty normalised path to the position of
      the last record carrying it. */
  function IndexMap(items: seq<Record>, norm: string -> string): map<string, nat> {
    if items == [] then map[]
    else
      var m := IndexMap(items[..|items| - 1], norm);
      var p := PathOf(norm, items[|items| - 1]);
      if p != [] then m[p := |items| - 1] else m
  }

  /** The index holds exactly the non-empty paths of the list, each mapped
      to a record that carries it with no later record carrying it. */
  lemma IndexMapPositions(items: seq<Record>, norm: string -> string, p: string)
    ensures var m := IndexMap(items, norm);
      (p in m <==> p != [] && exists i :: 0 <= i < |items| && PathOf(norm, items[i]) == p)
      && (p in m ==> m[p] < |items| && PathOf(norm, items[m[p]]) == p
                     && forall j :: m[p] < j < |items| ==> PathOf(norm, items[j]) != p)
  {
    IndexMapLatest(items, norm, p);
    if p != [] && exists i :: 0 <= i < |items| && PathOf(norm, items[i]) == p {
      var i :| 0 <= i < |items| && PathOf(norm, items[i]) == p;
      IndexMapCovers(items, norm, i);
    }
  }

  /** Every non-empty path of the list is a key of the index. */
  lemma {:induction false} IndexMapCovers(items: seq<Record>, norm: string -> string, i: nat)
    requires i < |items| && PathOf(norm, items[i]) != []
    ensures PathOf(norm, items[i]) in IndexMap(items, norm)
  {
    var init := items[..|items| - 1];
    if i < |items| - 1 {
      assert items[i] == init[i];
      IndexMapCovers(init, norm, i);
    }
  }

  /** A key is a non-empty path mapped to a record carrying it, and no later
      record carries it. */
  lemma {:induction false} IndexMapLatest(items: seq<Record>, norm: string -> string, p: string)
    ensures var m := IndexMap(items, norm);
      p in m ==> p != [] && m[p] < |items| && PathOf(norm, items[m[p]]) == p
                 && forall j :: m[p] < j < |items| ==> PathOf(norm, items[j]) != p
  {
    if items != [] {
      var init := items[..|items| - 1];
      var last := |items| - 1;
      IndexMapLatest(init, norm, p);
      var m := IndexMap(items, norm);
      if !(p != [] && PathOf(norm, items[last]) == p) && p in m {
        var mi := IndexMap(init, norm);
        assert p in mi && m[p] == mi[p] && mi[p] < last;
        assert items[mi[p]] == init[mi[p]];
        forall j | m[p] < j < |items| ensures PathOf(norm, items[j]) != p {
          if j < last { assert items[j] == init[j]; }
        }
      }
    }
  }

  /** `_norm_path(it.get("path", ""))`: `normpath` of a string; for any
      other value `normpath` raises and the fallback `str(p or "")` is used. */
  function RawPathOf(norm: string -> string, it: Record): string {
    match Get<Value>(it, "path")
    case None => norm("")
    case Some(Str(s)) => norm(s)
    case Some(v) => if Truthy(v) then PyStr(v) else ""
  }

  /** The selection survives when some listed record carries its path. */
  predicate StillListed(items: seq<Record>, sel: string, norm: string -> string) {
    exists i :: 0 <= i < |items| && RawPathOf(norm, items[i]) == sel
  }

  function KeptSelection(items: seq<Record>, sel: string, norm: string -> string): string {
    if sel != [] && !StillListed(items, sel, norm) then [] else sel
  }

  // ---------------------------------------------------------------------
  // The window state
  // ---------------------------------------------------------------------

  /** The list part of the main window: `_items_all`, `_items`,
      `_items_index_map`, `_selected_path` ("" for `None`) and `_sort_desc`. */
  class ItemBrowser {
    const norm: string -> string
    var itemsAll: Value
    var items: seq<Record>
    var indexMap: map<string, nat>
    var selectedPath: string
    var sortDesc: bool

    constructor (norm: string -> string)
      ensures this.norm == norm
      ensures itemsAll == Arr([]) && items == [] && indexMap == map[]
      ensures selectedPath == [] && !sortDesc
    {
      this.norm := norm;
      itemsAll, items, indexMap, selectedPath, sortDesc := Arr([]), [], map[], [], false;
    }

    /** `_apply_filters` with the texts of the search box, the filter menu
        and the sort menu. When a filter test raises, the exception leaves
        the window as it was; otherwise the list becomes the sorted kept
        records, the index is rebuilt and a vanished selection is cleared. */
    method ApplyFilters(search: string, modeText: string, sortText: string) returns (raised: bool)
      modifies this
      ensures var fs := Filtered(ListItems(old(itemsAll)), Lower(Strip(search)),
                                 if modeText == [] then AllMode else modeText);
        (fs.None? <==> raised)
        && (raised ==> items == old(items) && indexMap == old(indexMap) && selectedPath == old(selectedPath))
        && (!raised ==> items == SortItems(fs.value, if sortText == [] then TitleSort else sortText, sortDesc)
                        && indexMap == IndexMap(items, norm)
                        && selectedPath == KeptSelection(items, old(selectedPath), norm))
      ensures itemsAll == old(itemsAll) && sortDesc == old(sortDesc)
    {
      var q := Lower(Strip(search));
      var mode := if modeText == [] then AllMode else modeText;
      var entry := if sortText == [] then TitleSort else sortText;
      var ok, filtered := FilterItems(ListItems(itemsAll), q, mode);
      if !ok {
        return true;
      }
      items := SortItems(filtered, entry, sortDesc);
      RebuildIndex();
      if selectedPath != [] {
        var listed := exists j :: 0 <= j < |items| && RawPathOf(norm, items[j]) == selectedPath;
        if !listed {
          selectedPath := [];
        }
      }
      return false;
    }

    /** The loop that rebuilds `_items_index_map` from `_items`. */
    method RebuildIndex()
      modifies this
      ensures indexMap == IndexMap(items, norm)
      ensures items == old(items) && itemsAll == old(itemsAll)
      ensures selectedPath == old(selectedPath) && sortDesc == old(sortDesc)
    {
      indexMap := map[];
      var i := 0;
      while i < |items|
        invariant 0 <= i <= |items|
        invariant indexMap == IndexMap(items[..i], norm)
        invariant items == old(items) && itemsAll == old(itemsAll)
        invariant selectedPath == old(selectedPath) && sortDesc == old(sortDesc)
      {
        assert items[..i + 1][..i] == items[..i];
        var p := norm(StrOrEmpty(items[i], "path"));
        if p != [] {
          indexMap := indexMap[p := i];
        }
        i := i + 1;
      }
      assert items[..i] == items;
    }
  }

  /** The filter loop of `_apply_filters`; `ok` is false when a test raised. */
  method FilterItems(xs: seq<Value>, q: string, mode: string) returns (ok: bool, filtered: seq<Record>)
    ensures Filtered(xs, q, mode) == if ok then Some(filtered) else None
  {
    filtered := [];
    var i := 0;
    while i < |xs|
      invariant 0 <= i <= |xs|
      invariant Filtered(xs[..i], q, mode) == Some(filtered)
    {
      var x := xs[i];
      assert xs[..i + 1][..i] == xs[..i];
      assert Filtered(xs[..i + 1], q, mode) == FilterStep(Some(filtered), x, q, mode);
      if x.Obj? {
        var it := x.fields;
        if MatchesQuery(it, q) {
          var keep := ModeTest(it, mode);
          if keep.None? {
            assert xs[..i + 1] + xs[i + 1..] == xs;
            FilteredRaiseSticks(xs[..i + 1], xs[i + 1..], q, mode);
            return false, [];
          }
          if keep.value {
            filtered := filtered + [it];
          }
        }
      }
      i := i + 1;
    }
    assert xs[..i] == xs;
    return true, filtered;
  }

  /** Once the loop has raised, later items do not matter. */
  lemma {:induction false} FilteredRaiseSticks(xs: seq<Value>, ys: seq<Value>, q: string, mode: string)
    requires Filtered(xs, q, mode).None?
    ensures Filtered(xs + ys, q, mode).None?
    decreases |ys|
  {
    if ys == [] {
      assert xs + ys == xs;
    } else {
      var init := ys[..|ys| - 1];
      FilteredRaiseSticks(xs, init, q, mode);
      assert (xs + ys)[..|xs + ys| - 1] == xs + init;
    }
  }
}
