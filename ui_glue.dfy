/** How the main window (app/ui_main.py) hands the results of the storage
    and import functions to its item list. Three hand-overs do not fit what
    the called code returns; each is modelled as written, next to the
    hand-over the surrounding code evidently means:
    - after a scan, `_items_all` is set to the counts that `scan_dl_folder`
      returns instead of the records it writes;
    - the import message unpacks the result dict of
      `apply_purchase_import_json`, which yields its keys, not its counts;
    - the count filters and sorts read `zip_count`, `doc_count`,
      `source_count` and `image_count`, which no stored record holds. */
module WindowGlue {
  import opened Text
  import opened JsonValues
  import opened Collections
  import opened ItemFilters
  import Storage
  import PurchaseImport

  // ---------------------------------------------------------------------
  // After a scan
  // ---------------------------------------------------------------------

  /** The dict `scan_dl_folder` returns. */
  function ScanReturn(count: nat, archives: nat, documents: nat): Value {
    Obj(map["count" := Num(count), "archives" := Num(archives), "documents" := Num(documents)])
  }

  /** As written: whatever the search box and the filter menu say, the list
      after a scan is empty, because `_items_all` is not a list. */
  lemma ScanListsNothing(count: nat, archives: nat, documents: nat, q: string, mode: string)
    ensures Filtered(ListItems(ScanReturn(count, archives, documents)), q, mode) == Some([])
  {
  }

  /** `scan_folder`'s worker and the rescan after an import, as written:
      store the returned dict as `_items_all` and apply the filters. */
  method ShowScanResult(b: ItemBrowser, count: nat, archives: nat, documents: nat,
                        search: string, modeText: string, sortText: string)
    modifies b
    ensures b.itemsAll == ScanReturn(count, archives, documents)
    ensures b.items == [] && b.indexMap == map[]
    ensures b.selectedPath == []
    ensures b.sortDesc == old(b.sortDesc)
  {
    b.itemsAll := ScanReturn(count, archives, documents);
    var raised := b.ApplyFilters(search, modeText, sortText);
    assert Filtered([], Lower(Strip(search)), if modeText == [] then AllMode else modeText) == Some([]);
  }

  /** Intended: the list the scan wrote as `metadata.json`'s `items`. */
  function IntendedAfterScan(items: seq<Storage.LibraryItem>): Value {
    Arr(Storage.ItemValues(items))
  }

  /** With the intended hand-over and no search or filter, every scanned
      folder is listed, in scan order. */
  lemma {:induction false} IntendedListsEveryFolder(items: seq<Storage.LibraryItem>)
    ensures Filtered(ListItems(IntendedAfterScan(items)), [], AllMode) == Some(Storage.ItemRecords(items))
  {
    if items != [] {
      var init := items[..|items| - 1];
      IntendedListsEveryFolder(init);
      var vs := Storage.ItemValues(items);
      assert vs[..|vs| - 1] == Storage.ItemValues(init);
    }
  }

  // ---------------------------------------------------------------------
  // The import message
  // ---------------------------------------------------------------------

  /** The message shown after an import, from three rendered values. */
  function ImportText(updated: string, matched: string, total: string): string {
    "反映完了: 更新 " + updated + " 件 / マッチ " + matched + " 件 / 総 " + total + " 件"
  }

  /** As written: `updated, matched, total = apply_purchase_import_json(...)`
      unpacks the keys of the result dict, in their insertion order;
      `None` when the import raised and an error dialog is shown instead. */
  function ImportMessage(r: PurchaseImport.ApplyResult): Option<string> {
    if r.Raised? then None
    else
      var keys := ["total", "matched", "updated"];
      Some(ImportText(keys[0], keys[1], keys[2]))
  }

  /** The message names the keys, in the wrong places, and is the same for
      every import. */
  lemma ImportMessageShowsKeys(r: PurchaseImport.ApplyResult, r': PurchaseImport.ApplyResult)
    requires r.Applied? && r'.Applied?
    ensures ImportMessage(r) == Some(ImportText("total", "matched", "updated"))
    ensures ImportMessage(r) == ImportMessage(r')
  {
  }

  /** Intended: the three counters, rendered by `str`. */
  function IntendedImportMessage(r: PurchaseImport.ApplyResult): Option<string> {
    if r.Raised? then None
    else Some(ImportText(NatToString(r.updated), NatToString(r.matched), NatToString(r.total)))
  }

  /** The intended message tells imports apart: equal messages mean equal
      counters. */
  lemma IntendedMessageCounts(r: PurchaseImport.ApplyResult, r': PurchaseImport.ApplyResult)
    requires r.Applied? && r'.Applied?
    requires IntendedImportMessage(r) == IntendedImportMessage(r')
    ensures r.updated == r'.updated && r.matched == r'.matched && r.total == r'.total
  {
    var a, b, c := NatToString(r.updated), NatToString(r.matched), NatToString(r.total);
    var a', b', c' := NatToString(r'.updated), NatToString(r'.matched), NatToString(r'.total);
    ImportTextInjective(a, b, c, a', b', c');
    DecimalRoundTrip(r.updated);
    DecimalRoundTrip(r'.updated);
    DecimalRoundTrip(r.matched);
    DecimalRoundTrip(r'.matched);
    DecimalRoundTrip(r.total);
    DecimalRoundTrip(r'.total);
  }

  /** A digit string followed by text that starts with a non-digit can be
      read back from the front. */
  lemma DigitsFront(d: string, rest: string, d': string, rest': string)
    requires AllDigits(d) && AllDigits(d')
    requires rest != [] && !IsDigit(rest[0]) && rest' != [] && !IsDigit(rest'[0])
    requires d + rest == d' + rest'
    ensures d == d' && rest == rest'
  {
    DigitRunOf(d, rest);
    DigitRunOf(d', rest');
    assert d == (d + rest)[..|d|];
    assert d' == (d' + rest')[..|d'|];
    assert rest == (d + rest)[|d|..];
    assert rest' == (d' + rest')[|d'|..];
  }

  /** Two texts after the same non-digit-led separator: the digit strings
      in front and the rest after the separator agree. */
  lemma DigitsSep(d: string, sep: string, rest: string, d': string, rest': string)
    requires AllDigits(d) && AllDigits(d') && sep != [] && !IsDigit(sep[0])
    requires d + (sep + rest) == d' + (sep + rest')
    ensures d == d' && rest == rest'
  {
    DigitsFront(d, sep + rest, d', sep + rest');
    assert (sep + rest)[|sep|..] == rest && (sep + rest')[|sep|..] == rest';
  }

  /** The message determines the three digit strings put into it. */
  lemma ImportTextInjective(a: string, b: string, c: string, a': string, b': string, c': string)
    requires AllDigits(a) && AllDigits(b) && AllDigits(c)
    requires AllDigits(a') && AllDigits(b') && AllDigits(c')
    requires ImportText(a, b, c) == ImportText(a', b', c')
    ensures a == a' && b == b' && c == c'
  {
    var p1, p2, p3 := " 件 / マッチ ", " 件 / 総 ", " 件";
    assert p1[0] == ' ' && p2[0] == ' ' && p3[0] == ' ';
    FramedInjective("反映完了: 更新 ", p1, p2, p3, a, b, c, a', b', c');
  }

  /** Digit strings between fixed separators that each start with a
      non-digit can be read back. */
  lemma FramedInjective(p0: string, p1: string, p2: string, p3: string,
                        a: string, b: string, c: string, a': string, b': string, c': string)
    requires AllDigits(a) && AllDigits(b) && AllDigits(c)
    requires AllDigits(a') && AllDigits(b') && AllDigits(c')
    requires p1 != [] && !IsDigit(p1[0]) && p2 != [] && !IsDigit(p2[0]) && p3 != [] && !IsDigit(p3[0])
    requires p0 + a + p1 + b + p2 + c + p3 == p0 + a' + p1 + b' + p2 + c' + p3
    ensures a == a' && b == b' && c == c'
  {
    var u, u' := b + (p2 + (c + p3)), b' + (p2 + (c' + p3));
    var t, t' := p0 + a + p1 + b + p2 + c + p3, p0 + a' + p1 + b' + p2 + c' + p3;
    assert t == p0 + (a + (p1 + u));
    assert t' == p0 + (a' + (p1 + u'));
    assert t[|p0|..] == a + (p1 + u) && t'[|p0|..] == a' + (p1 + u');
    DigitsSep(a, p1, u, a', u');
    DigitsSep(b, p2, c + p3, b', c' + p3);
    DigitsFront(c, p3, c', p3);
  }

  // ---------------------------------------------------------------------
  // The count filters and sorts
  // ---------------------------------------------------------------------

  /** No stored record has a top-level count key. */
  lemma StoredRecordHasNoCounts(x: Storage.LibraryItem)
    ensures var it := Storage.ItemRecord(x);
      "zip_count" !in it && "doc_count" !in it && "source_count" !in it && "image_count" !in it
  {
  }

  predicate IsCountMode(mode: string) {
    mode == ZipMode || mode == DocsMode || mode == SourceMode || mode == ImageMode
  }

  /** As written: a count filter over the stored records lists nothing,
      whatever the folders hold. */
  lemma {:induction false} CountFilterListsNothing(items: seq<Storage.LibraryItem>, q: string, mode: string)
    requires IsCountMode(mode)
    ensures Filtered(Storage.ItemValues(items), q, mode) == Some([])
  {
    if items != [] {
      var init := items[..|items| - 1];
      CountFilterListsNothing(init, q, mode);
      var vs := Storage.ItemValues(items);
      assert vs[..|vs| - 1] == Storage.ItemValues(init);
      StoredRecordHasNoCounts(items[|items| - 1]);
    }
  }

  lemma {:induction false} WithKeyAll<T>(s: seq<T>, key: T -> SortKey, k: SortKey)
    requires forall i :: 0 <= i < |s| ==> key(s[i]) == k
    ensures WithKey(s, key, k) == s
  {
    if s != [] {
      WithKeyAll(s[1..], key, k);
    }
  }

  /** A stable sort of elements that all share one key changes nothing. */
  lemma SortAllEqual<T>(s: seq<T>, key: T -> SortKey, desc: bool, k: SortKey)
    requires forall i :: 0 <= i < |s| ==> key(s[i]) == k
    ensures StableSort(s, key, desc) == s
  {
    var r := StableSort(s, key, desc);
    forall i | 0 <= i < |r| ensures key(r[i]) == k {
      assert r[i] in multiset(s);
      var m :| 0 <= m < |s| && s[m] == r[i];
    }
    StableSortIsStable(s, key, desc, k);
    WithKeyAll(s, key, k);
    WithKeyAll(r, key, k);
  }

  /** Every count key of a stored record is 0. */
  lemma CountKeyZero(x: Storage.LibraryItem, entry: string)
    requires entry == ZipSort || entry == DocsSort || entry == ImagesSort
    ensures KeyFn(entry).Some? && KeyFn(entry).value(Storage.ItemRecord(x)) == IntKey(0)
  {
    StoredRecordHasNoCounts(x);
  }

  /** As written: a count sort leaves stored records in their filtered order,
      since every record's count key is 0. */
  lemma CountSortKeepsOrder(fs: seq<Record>, items: seq<Storage.LibraryItem>, entry: string, desc: bool)
    requires entry == ZipSort || entry == DocsSort || entry == ImagesSort
    requires forall i :: 0 <= i < |fs| ==> exists j :: 0 <= j < |items| && fs[i] == Storage.ItemRecord(items[j])
    ensures SortItems(fs, entry, desc) == fs
  {
    var key := KeyFn(entry).value;
    forall i | 0 <= i < |fs| ensures key(fs[i]) == IntKey(0) {
      var j :| 0 <= j < |items| && fs[i] == Storage.ItemRecord(items[j]);
      CountKeyZero(items[j], entry);
    }
    if SortApplies(fs, entry) {
      SortAllEqual(fs, key, desc, IntKey(0));
    }
  }

  /** Intended: the count a filter means, from the record's `stats`. */
  function IntendedCountTest(it: Record, mode: string): Option<bool>
    requires IsCountMode(mode)
  {
    var field := if mode == ZipMode then "archive_count"
                 else if mode == DocsMode then "document_count"
                 else if mode == SourceMode then "source_count"
                 else "image_count";
    match Get<Value>(it, "stats")
    case Some(Obj(stats)) => CountTest(stats, field)
    case _ => Some(false)
  }

  /** With the intended test a stored record passes a count filter exactly
      when its folder holds files of that kind. */
  lemma IntendedCountMatchesStats(x: Storage.LibraryItem, mode: string)
    requires IsCountMode(mode)
    ensures var t := IntendedCountTest(Storage.ItemRecord(x), mode);
      (mode == ZipMode ==> t == Some(x.stats.archiveCount > 0))
      && (mode == DocsMode ==> t == Some(x.stats.documentCount > 0))
      && (mode == SourceMode ==> t == Some(x.stats.sourceCount > 0))
      && (mode == ImageMode ==> t == Some(x.stats.imageCount > 0))
  {
  }
}
