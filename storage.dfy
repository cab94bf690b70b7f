/** The library rescan of app/storage.py (`scan_dl_folder`,
    `scan_last_dl_folder`): one record per item folder of the download
    folder, rebuilt from the files found, the public page and the previous
    index, and written back as `metadata.json`. */
module Storage {
  import opened Text
  import opened JsonValues
  import opened Collections
  import opened ItemIds
  import opened HtmlParsers
  import opened FolderScan

  /** One record of the library index as the rescan builds it. */
  datatype LibraryItem = LibraryItem(
    title: string,
    path: string,
    productId: string,
    productUrl: string,
    officialTitle: string,
    purchaseTitle: string,
    purchasedAt: string,
    files: FileLists,
    stats: FileStats,
    thumbnail: string)

  /** What the per-item `fetch_and_cache_thumbnail` call does: it raises
      (the loop catches the exception), or it returns the relative thumbnail
      path and the cached meta dict, either of which may be `None`. */
  datatype ThumbOutcome = ThumbRaised | ThumbReturned(rel: Option<string>, meta: Option<Record>)

  /** The dict `scan_dl_folder` returns, or the exception it lets through. */
  datatype ScanResult = ScanRaised | Scanned(count: nat, archives: nat, documents: nat)

  // ---------------------------------------------------------------------
  // Paths and the previous index
  // ---------------------------------------------------------------------

  /** `os.path.join(root, name)` for a name from `os.listdir`, which holds
      no separator. */
  function JoinPath(root: string, name: string): (p: string)
    ensures name != [] ==> p != []
    ensures StartsWith(p, root)
  {
    if root == [] || root[|root| - 1] == '/' then root + name else root + "/" + name
  }

  /** Different names in one folder give different paths. */
  lemma JoinPathInjective(root: string, n1: string, n2: string)
    requires JoinPath(root, n1) == JoinPath(root, n2)
    ensures n1 == n2
  {
    var sep := if root == [] || root[|root| - 1] == '/' then root else root + "/";
    assert JoinPath(root, n1) == sep + n1 && JoinPath(root, n2) == sep + n2;
    assert n1 == (sep + n1)[|sep|..];
    assert n2 == (sep + n2)[|sep|..];
  }

  /** The key of `prev_map`: the record's `path` when it is a non-empty
      string, "" (no entry) otherwise. */
  function PathKey(r: Record): (k: string)
    ensures k != [] <==> "path" in r && r["path"].Str? && r["path"].s != []
    ensures k != [] ==> k == r["path"].s
  {
    match Get<Value>(r, "path")
    case Some(Str(p)) => p
    case _ => ""
  }

  /** The index items `prev.get("items")` and `it.get("path")` would see
      without raising, if the scan reads the index at all. */
  function PrevRecords(stored: StoredFile, diff: bool): (r: Option<seq<Record>>)
    ensures !diff ==> r == Some([])
  {
    if !diff then Some([])
    else match ItemsOf(ReadMetadata(stored))
      case NoItems => Some([])
      case Raises => None
      case Items(xs) => AsRecords(xs)
  }

  /** `prev_map`; `None` stands for the exception raised on a non-object
      index document or a non-object item. */
  function PrevMap(stored: StoredFile, diff: bool): (r: Option<map<string, Record>>)
    ensures r.Some? <==> PrevRecords(stored, diff).Some?
  {
    match PrevRecords(stored, diff)
    case None => None
    case Some(recs) => Some(KeyedMap(recs, PathKey))
  }

  /** When the previous index is read, the scan fails exactly on a truthy
      non-object document or a non-object item; without `diff` nothing is
      inherited. */
  lemma PrevMapRaises(stored: StoredFile, diff: bool)
    ensures !diff ==> PrevMap(stored, diff) == Some(map[])
    ensures PrevMap(stored, diff).None? <==>
              diff && var doc := ReadMetadata(stored);
              ((Truthy(doc) && !doc.Obj?) ||
               (ItemsOf(doc).Items? && exists i :: 0 <= i < |ItemsOf(doc).items| && !ItemsOf(doc).items[i].Obj?))
  {
  }

  /** Every entry of `prev_map` is a record stored under its own non-empty
      path, and it is the last index item with that path. */
  lemma {:induction false} PrevMapLastWins(stored: StoredFile, diff: bool, p: string)
    requires PrevMap(stored, diff).Some? && p in PrevMap(stored, diff).value
    ensures p != [] && PathKey(PrevMap(stored, diff).value[p]) == p
    ensures var recs := PrevRecords(stored, diff).value;
            exists i :: 0 <= i < |recs| && PrevMap(stored, diff).value[p] == recs[i]
                        && forall j :: i < j < |recs| ==> PathKey(recs[j]) != p
  {
    var recs := PrevRecords(stored, diff).value;
    KeyedMapLastWins(recs, PathKey, p);
  }

  /** The test `prev_item and isinstance(prev_item, dict)`. */
  predicate Usable(prev: Option<Record>) {
    prev.Some? && prev.value != map[]
  }

  // ---------------------------------------------------------------------
  // One item, as a sequence of steps
  // ---------------------------------------------------------------------

  /** `v.strip() if isinstance(v, str) else ""`. */
  function StrippedOr(v: Option<Value>): (s: string)
    ensures IsStripped(s)
    ensures v.Some? && v.value.Str? ==> s == Strip(v.value.s)
    ensures !(v.Some? && v.value.Str?) ==> s == ""
  {
    match v
    case Some(Str(t)) => Strip(t)
    case _ => ""
  }

  /** The fresh record for the folder `name`. */
  function Fresh(root: string, name: string): LibraryItem {
    LibraryItem(name, JoinPath(root, name), "", "", "", "", "",
                FileLists([], [], [], []), FileStats(0, 0, 0, 0), "")
  }

  /** The sticky purchase fields copied from the previous record. */
  function WithPurchase(it: LibraryItem, prev: Option<Record>): LibraryItem {
    if Usable(prev) then
      it.(purchaseTitle := StrippedOr(Get(prev.value, "purchase_title")),
          purchasedAt := StrippedOr(Get(prev.value, "purchased_at")))
    else it
  }

  /** The `files` of `scan_files_two_level(folder)`. */
  function ScanLists(folder: Listing): FileLists {
    FileLists(TwoLevel(folder, Archives), TwoLevel(folder, Documents),
              TwoLevel(folder, Sources), TwoLevel(folder, Images))
  }

  /** The lists `scan_files_two_level` returns are these. */
  lemma ScanListsOf(files: FileLists, folder: Listing)
    requires forall b :: BucketOf(files, b) == TwoLevel(folder, b)
    ensures files == ScanLists(folder)
  {
    BucketsEqual(files, ScanLists(folder));
  }

  /** Lists that agree bucket by bucket are the same lists. */
  lemma BucketsEqual(f: FileLists, g: FileLists)
    requires forall b :: BucketOf(f, b) == BucketOf(g, b)
    ensures f == g
  {
    assert f.archives == BucketOf(f, Archives) == BucketOf(g, Archives) == g.archives;
    assert f.documents == BucketOf(f, Documents) == BucketOf(g, Documents) == g.documents;
    assert f.sources == BucketOf(f, Sources) == BucketOf(g, Sources) == g.sources;
    assert f.images == BucketOf(f, Images) == BucketOf(g, Images) == g.images;
  }

  function CountsOf(f: FileLists): FileStats {
    FileStats(|f.archives|, |f.documents|, |f.sources|, |f.images|)
  }

  function WithFiles(it: LibraryItem, folder: Listing): LibraryItem {
    it.(files := ScanLists(folder), stats := CountsOf(ScanLists(folder)))
  }

  /** The meta dict whose fields the fetch step copies: the cached one
      `fetch_and_cache_thumbnail` returned, otherwise the public page's;
      none when the thumbnail call raised. */
  function MetaUsed(pid: string, thumb: ThumbOutcome, page: PageOutcome): Option<Record> {
    match thumb
    case ThumbRaised => None
    case ThumbReturned(_, Some(m)) => Some(m)
    case ThumbReturned(_, None) =>
      if page.PageFailed? then None else Some(PageMeta(pid, OgRun(OgInit, page.events)))
  }

  /** The thumbnail path the fetch step stores: a non-empty returned path. */
  function FetchedThumb(thumb: ThumbOutcome): string {
    if thumb.ThumbReturned? && thumb.rel.Some? then thumb.rel.value else ""
  }

  /** Non-blank `official_title` and `product_url` of a meta dict overwrite
      the record's, stripped. */
  function ApplyMeta(it: LibraryItem, m: Record): LibraryItem {
    it.(officialTitle := NonBlank(Get(m, "official_title")).GetOr(it.officialTitle),
        productUrl := NonBlank(Get(m, "product_url")).GetOr(it.productUrl))
  }

  /** The `if pid:` block and the guarded fetch. */
  function WithFetch(it: LibraryItem, pid: Option<string>, thumb: ThumbOutcome, page: PageOutcome): (r: LibraryItem)
    ensures r.title == it.title && r.path == it.path && r.files == it.files && r.stats == it.stats
    ensures r.purchaseTitle == it.purchaseTitle && r.purchasedAt == it.purchasedAt
  {
    match pid
    case None => it
    case Some(id) =>
      var it1 := it.(productId := id, productUrl := BuildPublicItemUrl(id));
      var it2 := if FetchedThumb(thumb) != [] then it1.(thumbnail := FetchedThumb(thumb)) else it1;
      match MetaUsed(id, thumb, page)
      case None => it2
      case Some(m) => ApplyMeta(it2, m)
  }

  /** The previous record's non-blank thumbnail fills an empty one. */
  function WithInherited(it: LibraryItem, prev: Option<Record>): (r: LibraryItem)
    ensures r.(thumbnail := it.thumbnail) == it
  {
    if it.thumbnail == [] && Usable(prev) then
      match NonBlank(Get(prev.value, "thumbnail"))
      case Some(t) => it.(thumbnail := t)
      case None => it
    else it
  }

  /** The record the loop body builds for the folder `name`. */
  function BuildItem(root: string, name: string, folder: Listing, prev: Option<Record>,
                     thumb: ThumbOutcome, page: PageOutcome): LibraryItem
  {
    var it := WithFiles(WithPurchase(Fresh(root, name), prev), folder);
    WithInherited(WithFetch(it, ExtractProductId(name), thumb, page), prev)
  }

  /** The record for one directory entry of the root; the outcomes of the
      network calls are given per item path. */
  function ItemFor(root: string, d: Entry, prevMap: map<string, Record>,
                   thumbs: string -> ThumbOutcome, pages: string -> PageOutcome): LibraryItem
    requires d.Dir?
  {
    var p := JoinPath(root, d.name);
    BuildItem(root, d.name, d.listing, Get<Record>(prevMap, p), thumbs(p), pages(p))
  }

  // ---------------------------------------------------------------------
  // Properties of one record
  // ---------------------------------------------------------------------

  /** Title and path are the folder's; files and counts are the two-level
      scan's. */
  lemma ItemBasics(root: string, name: string, folder: Listing, prev: Option<Record>,
                   thumb: ThumbOutcome, page: PageOutcome)
    ensures var it := BuildItem(root, name, folder, prev, thumb, page);
            it.title == name && it.path == JoinPath(root, name)
            && it.files == ScanLists(folder) && it.stats == CountsOf(it.files)
  {
  }

  /** The sticky purchase fields are the previous record's stripped strings,
      "" when there is no previous record or the value is not a string; the
      files found and the fetch play no part. */
  lemma ItemPurchaseSticky(root: string, name: string, folder: Listing, prev: Option<Record>,
                           thumb: ThumbOutcome, page: PageOutcome)
    ensures var it := BuildItem(root, name, folder, prev, thumb, page);
            it.purchaseTitle == (if Usable(prev) then StrippedOr(Get(prev.value, "purchase_title")) else "")
            && it.purchasedAt == (if Usable(prev) then StrippedOr(Get(prev.value, "purchased_at")) else "")
            && IsStripped(it.purchaseTitle) && IsStripped(it.purchasedAt)
  {
  }

  /** The fetched thumbnail wins; the previous record's stripped thumbnail is
      taken only when the fetch left it empty. */
  lemma ItemThumbnail(root: string, name: string, folder: Listing, prev: Option<Record>,
                      thumb: ThumbOutcome, page: PageOutcome)
    ensures var it := BuildItem(root, name, folder, prev, thumb, page);
            var fetched := if ExtractProductId(name).Some? then FetchedThumb(thumb) else "";
            var inherited := if Usable(prev) then NonBlank(Get(prev.value, "thumbnail")) else None;
            it.thumbnail == (if fetched != [] then fetched else inherited.GetOr(""))
  {
    var it0 := WithFiles(WithPurchase(Fresh(root, name), prev), folder);
    var it1 := WithFetch(it0, ExtractProductId(name), thumb, page);
    FetchThumbField(it0, ExtractProductId(name), thumb, page);
    InheritedThumbField(it1, prev);
  }

  /** The fetch step sets the thumbnail exactly when it returned a path. */
  lemma FetchThumbField(it: LibraryItem, pid: Option<string>, thumb: ThumbOutcome, page: PageOutcome)
    ensures WithFetch(it, pid, thumb, page).thumbnail ==
              if pid.Some? && FetchedThumb(thumb) != [] then FetchedThumb(thumb) else it.thumbnail
  {
  }

  /** An empty thumbnail takes the previous record's non-blank one. */
  lemma InheritedThumbField(it: LibraryItem, prev: Option<Record>)
    ensures WithInherited(it, prev).thumbnail ==
              if it.thumbnail != [] then it.thumbnail
              else (if Usable(prev) then NonBlank(Get(prev.value, "thumbnail")) else None).GetOr("")
  {
  }

  /** With an id in the folder name the record carries it and its canonical
      URL, overwritten only by non-blank stripped values of the meta dict
      used; a raised thumbnail call leaves the canonical values. */
  lemma ItemMetaFields(root: string, name: string, folder: Listing, prev: Option<Record>,
                       thumb: ThumbOutcome, page: PageOutcome, pid: string)
    requires ExtractProductId(name) == Some(pid)
    ensures var it := BuildItem(root, name, folder, prev, thumb, page);
            it.productId == pid
            && match MetaUsed(pid, thumb, page)
               case None => it.productUrl == BuildPublicItemUrl(pid) && it.officialTitle == ""
               case Some(m) =>
                 it.productUrl == NonBlank(Get(m, "product_url")).GetOr(BuildPublicItemUrl(pid))
                 && it.officialTitle == NonBlank(Get(m, "official_title")).GetOr("")
  {
    var it := WithFiles(WithPurchase(Fresh(root, name), prev), folder);
    assert it.officialTitle == "";
    FetchFields(it, pid, thumb, page);
  }

  /** The fetch step on its own. */
  lemma FetchFields(it: LibraryItem, pid: string, thumb: ThumbOutcome, page: PageOutcome)
    ensures var r := WithFetch(it, Some(pid), thumb, page);
            r.productId == pid
            && match MetaUsed(pid, thumb, page)
               case None => r.productUrl == BuildPublicItemUrl(pid) && r.officialTitle == it.officialTitle
               case Some(m) =>
                 r.productUrl == NonBlank(Get(m, "product_url")).GetOr(BuildPublicItemUrl(pid))
                 && r.officialTitle == NonBlank(Get(m, "official_title")).GetOr(it.officialTitle)
  {
  }

  /** Without an id nothing is fetched: the record does not depend on the
      network outcomes and has no id, URL, official title or fetched
      thumbnail. */
  lemma ItemWithoutId(root: string, name: string, folder: Listing, prev: Option<Record>,
                      thumb1: ThumbOutcome, page1: PageOutcome, thumb2: ThumbOutcome, page2: PageOutcome)
    requires ExtractProductId(name).None?
    ensures BuildItem(root, name, folder, prev, thumb1, page1) == BuildItem(root, name, folder, prev, thumb2, page2)
    ensures var it := BuildItem(root, name, folder, prev, thumb1, page1);
            it.productId == "" && it.productUrl == "" && it.officialTitle == ""
  {
  }

  /** The canonical URL has no surrounding whitespace. */
  lemma CanonicalUrlStripped(pid: string)
    requires pid != [] && AllDigits(pid)
    ensures IsStripped(BuildPublicItemUrl(pid))
  {
    var u := BuildPublicItemUrl(pid);
    assert u[0] == 'h';
    assert u[|u| - 1] == pid[|pid| - 1] && IsDigit(pid[|pid| - 1]);
  }

  /** The non-blank fields of the dict built from a fetched page. */
  lemma PageMetaFields(pid: string, og: OgState)
    requires pid != [] && AllDigits(pid)
    ensures var m := PageMeta(pid, og);
            NonBlank(Get(m, "product_url")) == Some(BuildPublicItemUrl(pid))
            && NonBlank(Get(m, "official_title")) == (if og.ogTitle.Some? && Strip(og.ogTitle.value) != [] then Some(Strip(og.ogTitle.value)) else None)
  {
    CanonicalUrlStripped(pid);
  }

  /** When the meta comes from the public page, the URL stays canonical and
      the official title is the page's stripped non-blank `og:title`. */
  lemma ItemFromPage(root: string, name: string, folder: Listing, prev: Option<Record>,
                     rel: Option<string>, events: seq<Event>, pid: string)
    requires ExtractProductId(name) == Some(pid)
    ensures var it := BuildItem(root, name, folder, prev, ThumbReturned(rel, None), PageOk(events));
            var og := OgRun(OgInit, events).ogTitle;
            it.productUrl == BuildPublicItemUrl(pid)
            && it.officialTitle == (if og.Some? && Strip(og.value) != [] then Strip(og.value) else "")
  {
    var og := OgRun(OgInit, events);
    var m := PageMeta(pid, og);
    PageMetaFields(pid, og);
    ItemFromMeta(root, name, folder, prev, ThumbReturned(rel, None), PageOk(events), pid, m);
  }

  /** The fields a given meta dict sets. */
  lemma ItemFromMeta(root: string, name: string, folder: Listing, prev: Option<Record>,
                     thumb: ThumbOutcome, page: PageOutcome, pid: string, m: Record)
    requires ExtractProductId(name) == Some(pid) && MetaUsed(pid, thumb, page) == Some(m)
    ensures var it := BuildItem(root, name, folder, prev, thumb, page);
            it.productUrl == NonBlank(Get(m, "product_url")).GetOr(BuildPublicItemUrl(pid))
            && it.officialTitle == NonBlank(Get(m, "official_title")).GetOr("")
  {
    ItemMetaFields(root, name, folder, prev, thumb, page, pid);
  }

  // ---------------------------------------------------------------------
  // The whole rescan
  // ---------------------------------------------------------------------

  /** The directory entries of a listing, in order. */
  function DirEntries(es: seq<Entry>): (ds: seq<Entry>)
    ensures |ds| <= |es|
    ensures forall i :: 0 <= i < |ds| ==> ds[i].Dir?
  {
    if es == [] then []
    else DirEntries(es[..|es| - 1]) + (if es[|es| - 1].Dir? then [es[|es| - 1]] else [])
  }

  /** The records of the loop over the root listing `es`. */
  function Rescan(root: string, es: seq<Entry>, prevMap: map<string, Record>,
                  thumbs: string -> ThumbOutcome, pages: string -> PageOutcome): seq<LibraryItem>
  {
    if es == [] then []
    else
      var items := Rescan(root, es[..|es| - 1], prevMap, thumbs, pages);
      var e := es[|es| - 1];
      if e.Dir? then items + [ItemFor(root, e, prevMap, thumbs, pages)] else items
  }

  /** One more listing entry adds its record when it is a directory. */
  lemma RescanStep(root: string, es: seq<Entry>, i: nat, prevMap: map<string, Record>,
                   thumbs: string -> ThumbOutcome, pages: string -> PageOutcome)
    requires i < |es|
    ensures Rescan(root, es[..i + 1], prevMap, thumbs, pages)
            == Rescan(root, es[..i], prevMap, thumbs, pages)
               + (if es[i].Dir? then [ItemFor(root, es[i], prevMap, thumbs, pages)] else [])
  {
    assert es[..i + 1][..i] == es[..i];
  }

  /** Exactly one record per directory entry of the root, in listing order;
      files and other entries are skipped. */
  lemma {:induction false} RescanOnePerDir(root: string, es: seq<Entry>, prevMap: map<string, Record>,
                                           thumbs: string -> ThumbOutcome, pages: string -> PageOutcome)
    ensures var items := Rescan(root, es, prevMap, thumbs, pages);
            var ds := DirEntries(es);
            |items| == |ds| && forall k :: 0 <= k < |ds| ==> items[k] == ItemFor(root, ds[k], prevMap, thumbs, pages)
  {
    if es != [] {
      RescanOnePerDir(root, es[..|es| - 1], prevMap, thumbs, pages);
    }
  }

  function SumArchives(items: seq<LibraryItem>): nat {
    if items == [] then 0 else SumArchives(items[..|items| - 1]) + items[|items| - 1].stats.archiveCount
  }

  function SumDocuments(items: seq<LibraryItem>): nat {
    if items == [] then 0 else SumDocuments(items[..|items| - 1]) + items[|items| - 1].stats.documentCount
  }

  lemma SumsSnoc(items: seq<LibraryItem>, item: LibraryItem)
    ensures SumArchives(items + [item]) == SumArchives(items) + item.stats.archiveCount
    ensures SumDocuments(items + [item]) == SumDocuments(items) + item.stats.documentCount
  {
    assert (items + [item])[..|items|] == items;
  }

  /** The returned dict: the record count and the summed per-record counts. */
  function Summary(items: seq<LibraryItem>): (r: ScanResult)
    ensures r.Scanned? && r.count == |items|
  {
    Scanned(|items|, SumArchives(items), SumDocuments(items))
  }

  // ---------------------------------------------------------------------
  // The written index
  // ---------------------------------------------------------------------

  function StrValues(ss: seq<string>): (vs: seq<Value>)
    ensures |vs| == |ss|
  {
    if ss == [] then [] else StrValues(ss[..|ss| - 1]) + [Str(ss[|ss| - 1])]
  }

  /** The item dict as `json.dump` writes it. */
  function ItemRecord(it: LibraryItem): Record {
    map["title" := Str(it.title), "path" := Str(it.path),
        "product_id" := Str(it.productId), "product_url" := Str(it.productUrl),
        "official_title" := Str(it.officialTitle), "purchase_title" := Str(it.purchaseTitle),
        "purchased_at" := Str(it.purchasedAt),
        "files" := Obj(map["archives" := Arr(StrValues(it.files.archives)),
                           "documents" := Arr(StrValues(it.files.documents)),
                           "sources" := Arr(StrValues(it.files.sources)),
                           "images" := Arr(StrValues(it.files.images))]),
        "stats" := Obj(map["archive_count" := Num(it.stats.archiveCount),
                           "document_count" := Num(it.stats.documentCount),
                           "source_count" := Num(it.stats.sourceCount),
                           "image_count" := Num(it.stats.imageCount)]),
        "thumbnail" := Str(it.thumbnail)]
  }

  /** The fields a later rescan reads back. */
  lemma ItemRecordFields(it: LibraryItem)
    ensures var r := ItemRecord(it);
            "path" in r && r != map[] && Get(r, "path") == Some(Str(it.path))
            && Get(r, "purchase_title") == Some(Str(it.purchaseTitle))
            && Get(r, "purchased_at") == Some(Str(it.purchasedAt))
            && Get(r, "thumbnail") == Some(Str(it.thumbnail))
  {
  }

  function ItemValues(items: seq<LibraryItem>): (vs: seq<Value>)
    ensures |vs| == |items|
  {
    if items == [] then [] else ItemValues(items[..|items| - 1]) + [Obj(ItemRecord(items[|items| - 1]))]
  }

  function ItemRecords(items: seq<LibraryItem>): (rs: seq<Record>)
    ensures |rs| == |items|
  {
    if items == [] then [] else ItemRecords(items[..|items| - 1]) + [ItemRecord(items[|items| - 1])]
  }

  /** `write_metadata_json(root, items)`: the document `{"items": items}`. */
  function IndexDoc(items: seq<LibraryItem>): Value {
    Obj(map["items" := Arr(ItemValues(items))])
  }

  lemma {:induction false} ItemValuesAsRecords(items: seq<LibraryItem>)
    ensures AsRecords(ItemValues(items)) == Some(ItemRecords(items))
  {
    if items != [] {
      ItemValuesAsRecords(items[..|items| - 1]);
    }
  }

  lemma {:induction false} ItemRecordsAt(items: seq<LibraryItem>, k: nat)
    requires k < |items|
    ensures ItemRecords(items)[k] == ItemRecord(items[k])
  {
    if k < |items| - 1 {
      ItemRecordsAt(items[..|items| - 1], k);
    }
  }

  /** The `prev_map` a later scan builds from the written index. */
  function Reread(items: seq<LibraryItem>): map<string, Record> {
    KeyedMap(ItemRecords(items), PathKey)
  }

  /** Reading back a written index never raises, and keys every record by
      its path. */
  lemma WrittenIndexRead(items: seq<LibraryItem>)
    ensures PrevRecords(Parsed(IndexDoc(items)), true) == Some(ItemRecords(items))
    ensures PrevMap(Parsed(IndexDoc(items)), true) == Some(Reread(items))
  {
    ItemValuesAsRecords(items);
    assert ItemsOf(IndexDoc(items)) == Items(ItemValues(items));
  }

  /** Folder names of a listing that are non-empty and pairwise distinct, as
      `os.listdir` gives them. */
  predicate DistinctNames(ds: seq<Entry>) {
    (forall i :: 0 <= i < |ds| ==> ds[i].name != [])
    && forall i, j :: 0 <= i < j < |ds| ==> ds[i].name != ds[j].name
  }

  /** Record `k` of a rescan is the record of directory `k`. */
  lemma RescanAt(root: string, es: seq<Entry>, prevMap: map<string, Record>,
                 thumbs: string -> ThumbOutcome, pages: string -> PageOutcome, k: nat)
    requires k < |DirEntries(es)|
    ensures k < |Rescan(root, es, prevMap, thumbs, pages)|
    ensures Rescan(root, es, prevMap, thumbs, pages)[k] == ItemFor(root, DirEntries(es)[k], prevMap, thumbs, pages)
  {
    RescanOnePerDir(root, es, prevMap, thumbs, pages);
  }

  /** The path and the purchase fields of a directory's record. */
  lemma ItemForFields(root: string, d: Entry, prevMap: map<string, Record>,
                      thumbs: string -> ThumbOutcome, pages: string -> PageOutcome)
    requires d.Dir?
    ensures var it := ItemFor(root, d, prevMap, thumbs, pages);
            var prev := Get<Record>(prevMap, JoinPath(root, d.name));
            it.path == JoinPath(root, d.name)
            && it.purchaseTitle == (if Usable(prev) then StrippedOr(Get(prev.value, "purchase_title")) else "")
            && it.purchasedAt == (if Usable(prev) then StrippedOr(Get(prev.value, "purchased_at")) else "")
  {
    var p := JoinPath(root, d.name);
    ItemBasics(root, d.name, d.listing, Get<Record>(prevMap, p), thumbs(p), pages(p));
    ItemPurchaseSticky(root, d.name, d.listing, Get<Record>(prevMap, p), thumbs(p), pages(p));
  }

  /** The written record of directory `j` is keyed by that directory's path. */
  lemma RecordKey(root: string, es: seq<Entry>, prevMap: map<string, Record>,
                  thumbs: string -> ThumbOutcome, pages: string -> PageOutcome, j: nat)
    requires j < |DirEntries(es)|
    ensures var items := Rescan(root, es, prevMap, thumbs, pages);
            j < |ItemRecords(items)| && PathKey(ItemRecords(items)[j]) == JoinPath(root, DirEntries(es)[j].name)
  {
    var items := Rescan(root, es, prevMap, thumbs, pages);
    var d := DirEntries(es)[j];
    RescanAt(root, es, prevMap, thumbs, pages, j);
    ItemForFields(root, d, prevMap, thumbs, pages);
    ItemRecordsAt(items, j);
    ItemRecordFields(items[j]);
  }

  /** The previous record a rescan of the same listing finds for folder `k`
      is the record the last scan wrote for it. */
  lemma RescanFindsOwnRecord(root: string, es: seq<Entry>, prevMap: map<string, Record>,
                             thumbs: string -> ThumbOutcome, pages: string -> PageOutcome, k: nat)
    requires DistinctNames(DirEntries(es)) && k < |DirEntries(es)|
    ensures var items := Rescan(root, es, prevMap, thumbs, pages);
            k < |items| && Get<Record>(Reread(items), JoinPath(root, DirEntries(es)[k].name)) == Some(ItemRecord(items[k]))
  {
    var items := Rescan(root, es, prevMap, thumbs, pages);
    var ds := DirEntries(es);
    var recs := ItemRecords(items);
    RescanOnePerDir(root, es, prevMap, thumbs, pages);
    RecordKey(root, es, prevMap, thumbs, pages, k);
    forall j | 0 <= j < |recs| && j != k ensures PathKey(recs[j]) != PathKey(recs[k]) {
      RecordKey(root, es, prevMap, thumbs, pages, j);
      if JoinPath(root, ds[j].name) == JoinPath(root, ds[k].name) {
        JoinPathInjective(root, ds[j].name, ds[k].name);
        assert false;
      }
    }
    KeyedMapUnique(recs, PathKey, k);
    ItemRecordsAt(items, k);
  }

  /** Purchase information survives a rescan of the same folders whatever
      the network does: the second scan copies the first scan's values. */
  lemma RescanKeepsPurchase(root: string, es: seq<Entry>, prevMap: map<string, Record>,
                            thumbs: string -> ThumbOutcome, pages: string -> PageOutcome,
                            thumbs2: string -> ThumbOutcome, pages2: string -> PageOutcome, k: nat)
    requires DistinctNames(DirEntries(es)) && k < |DirEntries(es)|
    ensures var items := Rescan(root, es, prevMap, thumbs, pages);
            var items2 := Rescan(root, es, Reread(items), thumbs2, pages2);
            k < |items| && k < |items2|
            && items2[k].purchaseTitle == items[k].purchaseTitle
            && items2[k].purchasedAt == items[k].purchasedAt
  {
    var items := Rescan(root, es, prevMap, thumbs, pages);
    var d := DirEntries(es)[k];
    RescanAt(root, es, prevMap, thumbs, pages, k);
    RescanAt(root, es, Reread(items), thumbs2, pages2, k);
    RescanFindsOwnRecord(root, es, prevMap, thumbs, pages, k);
    ItemRecordFields(items[k]);
    ItemForFields(root, d, prevMap, thumbs, pages);
    ItemForFields(root, d, Reread(items), thumbs2, pages2);
    var prev2 := Get<Record>(Reread(items), JoinPath(root, d.name));
    assert prev2 == Some(ItemRecord(items[k]));
    assert Usable(prev2);
    assert StrippedOr(Get(prev2.value, "purchase_title")) == items[k].purchaseTitle;
    assert StrippedOr(Get(prev2.value, "purchased_at")) == items[k].purchasedAt;
  }

  // ---------------------------------------------------------------------
  // The folder on disk and the scan itself
  // ---------------------------------------------------------------------

  /** A download folder: its path, what `os.listdir`/`os.path.isdir` show
      under it, and its `metadata.json`. */
  class DlFolder {
    const root: string
    const listing: Listing
    var index: StoredFile

    constructor(root: string, listing: Listing, index: StoredFile)
      ensures this.root == root && this.listing == listing && this.index == index
    {
      this.root := root;
      this.listing := listing;
      this.index := index;
    }

    /** `prev_map` built by the loop over the previous index's items. */
    method LoadPrevMap(diff: bool) returns (prevMap: Option<map<string, Record>>)
      ensures prevMap == PrevMap(index, diff)
    {
      var recs := PrevRecords(index, diff);
      if recs.None? {
        return None;
      }
      var m := BuildKeyedMap(recs.value, PathKey);
      prevMap := Some(m);
    }

    /** `scan_dl_folder(root, diff=diff)`: an exception while reading the
        previous index or listing the root leaves the index as it was;
        otherwise the index is rewritten with one record per item folder
        and the counts of the new records are returned. */
    method ScanDlFolder(diff: bool, thumbs: string -> ThumbOutcome, pages: string -> PageOutcome)
      returns (res: ScanResult)
      modifies this
      ensures PrevMap(old(index), diff).None? || listing.Unreadable? ==> res == ScanRaised && index == old(index)
      ensures PrevMap(old(index), diff).Some? && listing.Readable? ==>
                var items := Rescan(root, listing.entries, PrevMap(old(index), diff).value, thumbs, pages);
                index == Parsed(IndexDoc(items)) && res == Summary(items)
    {
      var prevMap := LoadPrevMap(diff);
      if prevMap.None? || listing.Unreadable? {
        return ScanRaised;
      }
      var items, totalArchives, totalDocuments := ScanEntries(listing.entries, prevMap.value, thumbs, pages);
      index := Parsed(IndexDoc(items));
      res := Scanned(|items|, totalArchives, totalDocuments);
    }

    /** The loop over the listing: one record per item folder, and the
        running totals of archives and documents. */
    method ScanEntries(es: seq<Entry>, pm: map<string, Record>,
                       thumbs: string -> ThumbOutcome, pages: string -> PageOutcome)
      returns (items: seq<LibraryItem>, totalArchives: nat, totalDocuments: nat)
      ensures items == Rescan(root, es, pm, thumbs, pages)
      ensures totalArchives == SumArchives(items) && totalDocuments == SumDocuments(items)
    {
      items, totalArchives, totalDocuments := [], 0, 0;
      var i := 0;
      while i < |es|
        invariant 0 <= i <= |es|
        invariant items == Rescan(root, es[..i], pm, thumbs, pages)
        invariant totalArchives == SumArchives(items) && totalDocuments == SumDocuments(items)
      {
        RescanStep(root, es, i, pm, thumbs, pages);
        items, totalArchives, totalDocuments := AddEntry(items, totalArchives, totalDocuments, es[i], pm, thumbs, pages);
        i := i + 1;
      }
      assert es[..i] == es;
    }

    /** One turn of the loop: a directory entry adds its record and its
        counts, any other entry is skipped. */
    method AddEntry(items: seq<LibraryItem>, totalArchives: nat, totalDocuments: nat, e: Entry,
                    pm: map<string, Record>, thumbs: string -> ThumbOutcome, pages: string -> PageOutcome)
      returns (items': seq<LibraryItem>, totalArchives': nat, totalDocuments': nat)
      requires totalArchives == SumArchives(items) && totalDocuments == SumDocuments(items)
      ensures items' == items + (if e.Dir? then [ItemFor(root, e, pm, thumbs, pages)] else [])
      ensures totalArchives' == SumArchives(items') && totalDocuments' == SumDocuments(items')
    {
      items', totalArchives', totalDocuments' := items, totalArchives, totalDocuments;
      if e.Dir? {
        var p := JoinPath(root, e.name);
        var item := ScanItem(e.name, e.listing, Get<Record>(pm, p), thumbs(p), pages(p));
        SumsSnoc(items, item);
        items' := items + [item];
        totalArchives' := totalArchives + item.stats.archiveCount;
        totalDocuments' := totalDocuments + item.stats.documentCount;
      } else {
        assert items + [] == items;
      }
    }

    /** The loop body for the item folder `name`, updating the record field
        by field. */
    method ScanItem(name: string, folder: Listing, prev: Option<Record>, thumb: ThumbOutcome, page: PageOutcome)
      returns (item: LibraryItem)
      ensures item == BuildItem(root, name, folder, prev, thumb, page)
    {
      item := Fresh(root, name);
      if Usable(prev) {
        item := item.(purchaseTitle := StrippedOr(Get(prev.value, "purchase_title")),
                      purchasedAt := StrippedOr(Get(prev.value, "purchased_at")));
      }
      var files, stats := ScanFilesTwoLevel(folder);
      ScanListsOf(files, folder);
      item := item.(files := files, stats := stats);
      assert item == WithFiles(WithPurchase(Fresh(root, name), prev), folder);
      var pid := ExtractProductId(name);
      if pid.Some? {
        item := FetchStep(item, pid.value, thumb, page);
      }
      if item.thumbnail == [] && Usable(prev) {
        var t := NonBlank(Get(prev.value, "thumbnail"));
        if t.Some? {
          item := item.(thumbnail := t.value);
        }
      }
    }
  }

  /** The `if pid:` block and the guarded fetch for a folder with an id;
      an exception from the thumbnail call ends the block. */
  method FetchStep(it: LibraryItem, pid: string, thumb: ThumbOutcome, page: PageOutcome)
    returns (item: LibraryItem)
    ensures item == WithFetch(it, Some(pid), thumb, page)
  {
    item := it.(productId := pid, productUrl := BuildPublicItemUrl(pid));
    if thumb.ThumbRaised? {
      return;
    }
    if thumb.rel.Some? && thumb.rel.value != [] {
      item := item.(thumbnail := thumb.rel.value);
    }
    var meta := thumb.meta;
    if meta.None? {
      meta := FetchPublicItemMeta(pid, page);
    }
    if meta.Some? {
      var ot := NonBlank(Get(meta.value, "official_title"));
      if ot.Some? {
        item := item.(officialTitle := ot.value);
      }
      var pu := NonBlank(Get(meta.value, "product_url"));
      if pu.Some? {
        item := item.(productUrl := pu.value);
      }
    }
  }

  /** `scan_last_dl_folder`: `None` is a missing or vanished remembered
      folder, for which it raises before scanning anything. */
  method ScanLastDlFolder(last: Option<DlFolder>, diff: bool,
                          thumbs: string -> ThumbOutcome, pages: string -> PageOutcome)
    returns (res: ScanResult)
    modifies if last.Some? then {last.value} else {}
    ensures last.None? ==> res == ScanRaised
    ensures last.Some? ==> var f := last.value;
              (PrevMap(old(f.index), diff).None? || f.listing.Unreadable? ==> res == ScanRaised && f.index == old(f.index))
              && (PrevMap(old(f.index), diff).Some? && f.listing.Readable? ==>
                    var items := Rescan(f.root, f.listing.entries, PrevMap(old(f.index), diff).value, thumbs, pages);
                    f.index == Parsed(IndexDoc(items)) && res == Summary(items))
  {
    if last.None? {
      return ScanRaised;
    }
    res := last.value.ScanDlFolder(diff, thumbs, pages);
  }
}
