/** The purchase-import pipeline of app/utils.py: item URLs are pulled from
    pasted text and from saved purchase-history pages, normalised to the
    canonical item URL, de-duplicated, optionally filtered against the ids
    already in the library index, and written as `purchase_import.json`;
    `apply_purchase_import_json` then merges such a file into the index. */
module PurchaseImport {
  import opened Text
  import opened Collections
  import opened JsonValues
  import opened ItemIds
  import opened HtmlParsers

  // ---------------------------------------------------------------------
  // URL extraction
  // ---------------------------------------------------------------------

  /** The line boundaries of Python's `str.splitlines`. */
  predicate IsLineBreak(c: char) {
    c == '\n' || c == '\r' || c == '\U{0B}' || c == '\U{0C}' || ('\U{1C}' <= c <= '\U{1E}')
    || c == '\U{85}' || c == '\U{2028}' || c == '\U{2029}'
  }

  predicate NoLineBreak(s: string) {
    forall i :: 0 <= i < |s| ==> !IsLineBreak(s[i])
  }

  function BreakIndex(s: string): (i: nat)
    ensures i <= |s| && NoLineBreak(s[..i])
    ensures i < |s| ==> IsLineBreak(s[i])
  {
    if s == [] || IsLineBreak(s[0]) then 0
    else
      var k := BreakIndex(s[1..]);
      assert s[..k + 1] == [s[0]] + s[1..][..k];
      k + 1
  }

  /** `str.splitlines()`: "\r\n" is one boundary, and a final boundary does
      not start an empty last line. */
  function SplitLines(s: string): (r: seq<string>)
    ensures forall k :: 0 <= k < |r| ==> NoLineBreak(r[k])
    decreases |s|
  {
    if s == [] then []
    else
      var i := BreakIndex(s);
      if i == |s| then assert s[..i] == s; [s]
      else
        var skip := if s[i] == '\r' && i + 1 < |s| && s[i + 1] == '\n' then 2 else 1;
        [s[..i]] + SplitLines(s[i + skip..])
  }

  /** The lines come back: a line followed by "\n" is split off as it is. */
  lemma SplitLinesCons(a: string, rest: string)
    requires NoLineBreak(a)
    ensures SplitLines(a + "\n" + rest) == [a] + SplitLines(rest)
  {
    var s := a + "\n" + rest;
    BreakIndexOf(a, "\n" + rest);
    assert s == a + ("\n" + rest);
    assert s[..|a|] == a;
    assert s[|a| + 1..] == rest;
  }

  lemma {:induction false} BreakIndexOf(a: string, rest: string)
    requires NoLineBreak(a) && rest != [] && IsLineBreak(rest[0])
    ensures BreakIndex(a + rest) == |a|
    decreases |a|
  {
    if a == [] {
      assert a + rest == rest;
    } else {
      var s := a + rest;
      assert s[0] == a[0] && !IsLineBreak(a[0]);
      assert NoLineBreak(a[1..]) by {
        forall i | 0 <= i < |a| - 1 ensures !IsLineBreak(a[1..][i]) {
          assert a[1..][i] == a[i + 1];
        }
      }
      assert s[1..] == a[1..] + rest;
      BreakIndexOf(a[1..], rest);
      assert BreakIndex(s) == BreakIndex(s[1..]) + 1;
    }
  }

  lemma {:induction false} BreakIndexNone(a: string)
    requires NoLineBreak(a)
    ensures BreakIndex(a) == |a|
  {
    if a != [] {
      assert !IsLineBreak(a[0]);
      assert NoLineBreak(a[1..]) by {
        forall i | 0 <= i < |a| - 1 ensures !IsLineBreak(a[1..][i]) {
          assert a[1..][i] == a[i + 1];
        }
      }
      BreakIndexNone(a[1..]);
    }
  }

  /** A text without line boundaries is one line. */
  lemma SplitLinesSingle(a: string)
    requires a != [] && NoLineBreak(a)
    ensures SplitLines(a) == [a]
  {
    BreakIndexNone(a);
    assert a[..|a|] == a;
  }

  /** The canonical URLs of the candidates that normalise, in order. */
  function Canonicals(xs: seq<string>): (r: seq<string>)
    ensures |r| <= |xs|
    ensures forall k :: 0 <= k < |r| ==> IsCanonicalItemUrl(r[k])
  {
    if xs == [] then []
    else
      Canonicals(xs[..|xs| - 1])
      + (match NormalizeItemUrl(xs[|xs| - 1]) case Some(u) => [u] case None => [])
  }

  lemma CanonicalsSnoc(xs: seq<string>, k: nat)
    requires k < |xs|
    ensures Canonicals(xs[..k + 1]) ==
      Canonicals(xs[..k]) + (match NormalizeItemUrl(xs[k]) case Some(u) => [u] case None => [])
  {
    assert xs[..k + 1][..k] == xs[..k];
  }

  /** `_extract_urls_from_text`. */
  method ExtractUrlsFromText(pastedText: string) returns (urls: seq<string>)
    ensures urls == Canonicals(SplitLines(pastedText))
  {
    var lines := SplitLines(pastedText);
    urls := [];
    var k := 0;
    while k < |lines|
      invariant 0 <= k <= |lines|
      invariant urls == Canonicals(lines[..k])
    {
      CanonicalsSnoc(lines, k);
      var line := Strip(lines[k]);
      StripIdempotent(lines[k]);
      if line != [] {
        var u := NormalizeItemUrl(line);
        if u.Some? {
          urls := urls + [u.value];
        }
      }
      k := k + 1;
    }
    assert lines[..k] == lines;
  }

  /** The normalising loop over the anchors a parser collected. */
  method NormalizeAll(collected: seq<string>) returns (normalized: seq<string>)
    ensures normalized == Canonicals(collected)
  {
    normalized := [];
    var k := 0;
    while k < |collected|
      invariant 0 <= k <= |collected|
      invariant normalized == Canonicals(collected[..k])
    {
      var nu := NormalizeItemUrl(collected[k]);
      CanonicalsSnoc(collected, k);
      if nu.Some? {
        assert Canonicals(collected[..k + 1]) == normalized + [nu.value];
        normalized := normalized + [nu.value];
      } else {
        assert Canonicals(collected[..k + 1]) == normalized;
      }
      k := k + 1;
    }
    assert collected[..k] == collected;
  }

  /** `_extract_urls_from_html`, on the page's events. */
  method ExtractUrlsFromHtml(events: seq<Event>) returns (normalized: seq<string>)
    ensures normalized == Canonicals(AnchorRun(AnchorInit, events).urls)
  {
    var parser := new PurchaseHtmlParser();
    parser.Feed(events);
    normalized := NormalizeAll(parser.urls);
  }

  // ---------------------------------------------------------------------
  // De-duplication and filtering
  // ---------------------------------------------------------------------

  /** The `seen`/`uniq` loop of both builders. */
  method Dedupe(urls: seq<string>) returns (uniq: seq<string>)
    ensures uniq == FirstSeen(urls)
  {
    uniq := [];
    var seen: set<string> := {};
    var k := 0;
    while k < |urls|
      invariant 0 <= k <= |urls|
      invariant uniq == FirstSeen(urls[..k])
      invariant forall u :: u in seen <==> u in urls[..k]
    {
      assert urls[..k + 1][..k] == urls[..k];
      assert forall u :: u in urls[..k + 1] <==> u in urls[..k] || u == urls[k];
      if urls[k] !in seen {
        seen := seen + {urls[k]};
        uniq := uniq + [urls[k]];
      }
      k := k + 1;
    }
    assert urls[..k] == urls;
  }

  /** The id an index record is known by in `_load_existing_items_map`:
      the stripped `str(product_id)`, with "none" in any case meaning none
      (`lower` is exact here: only ASCII letters lower-case to "none"). */
  function IndexKey(r: Record): (k: string)
    ensures k != [] ==> IsStripped(k) && !IsNoneWord(k)
  {
    var p := Strip(StrField(r, "product_id"));
    if IsNoneWord(p) then "" else p
  }

  /** `p.lower() == "none"`. */
  predicate IsNoneWord(p: string) {
    |p| == 4 && LowerChar(p[0]) == 'n' && LowerChar(p[1]) == 'o' && LowerChar(p[2]) == 'n' && LowerChar(p[3]) == 'e'
  }

  lemma IsNoneWordIsLower(p: string)
    ensures IsNoneWord(p) <==> Lower(p) == "none"
  {
    if Lower(p) == "none" {
      assert |p| == 4 && Lower(p)[0] == 'n' && Lower(p)[1] == 'o' && Lower(p)[2] == 'n' && Lower(p)[3] == 'e';
    }
  }

  /** A record whose stored id is JSON null (the string "None") is not known
      by any id. */
  lemma NullIdIsNoKey(r: Record)
    requires "product_id" in r && r["product_id"] == Null
    ensures IndexKey(r) == ""
  {
    assert StrField(r, "product_id") == "None";
    assert Strip("None") == "None" by { assert IsStripped("None"); }
    assert IsNoneWord("None");
  }

  /** The index records, or `None` when the index reader raises. */
  function IndexRecords(stored: StoredFile): (r: Option<seq<Record>>)
  {
    match ItemsOf(ReadMetadata(stored))
    case NoItems => Some([])
    case Raises => None
    case Items(xs) => AsRecords(xs)
  }

  /** `_load_existing_items_map`: `None` stands for the exception raised by a
      non-object index (or index item). */
  method LoadExistingItemsMap(stored: StoredFile) returns (out: Option<map<string, Record>>)
    ensures out.None? <==> IndexRecords(stored).None?
    ensures out.Some? ==> out.value == KeyedMap(IndexRecords(stored).value, IndexKey)
  {
    var recs := IndexRecords(stored);
    if recs.None? {
      return None;
    }
    var m := BuildKeyedMap(recs.value, IndexKey);
    out := Some(m);
  }

  /** The test of `_filter_urls_by_existing_folders`. */
  function KnownUrl(existing: map<string, Record>): string -> bool {
    u => ItemIdOf(u).Some? && ItemIdOf(u).value in existing
  }

  /** `_filter_urls_by_existing_folders`, given the existing-items map. */
  method FilterUrlsByExistingFolders(urls: seq<string>, existing: map<string, Record>)
    returns (kept: seq<string>, removed: nat)
    ensures kept == Filter(urls, KnownUrl(existing))
    ensures forall k :: 0 <= k < |kept| ==> ItemIdOf(kept[k]).Some? && ItemIdOf(kept[k]).value in existing
    ensures |kept| + removed == |urls|
  {
    kept, removed := [], 0;
    var k := 0;
    while k < |urls|
      invariant 0 <= k <= |urls|
      invariant kept == Filter(urls[..k], KnownUrl(existing))
      invariant |kept| + removed == k
    {
      assert urls[..k + 1] == urls[..k] + [urls[k]];
      FilterSnoc(urls[..k], urls[k], KnownUrl(existing));
      var m := ItemIdOf(urls[k]);
      if m.None? {
        removed := removed + 1;
      } else if m.value !in existing {
        removed := removed + 1;
      } else {
        kept := kept + [urls[k]];
      }
      k := k + 1;
    }
    assert urls[..k] == urls;
    forall j | 0 <= j < |kept| ensures ItemIdOf(kept[j]).Some? && ItemIdOf(kept[j]).value in existing {
      FilterContents(urls, KnownUrl(existing), kept[j]);
    }
  }

  // ---------------------------------------------------------------------
  // Building purchase_import.json
  // ---------------------------------------------------------------------

  /** `{"product_id": pid, "product_url": u}`. */
  function ImportRecord(pid: string, u: string): (r: Record)
    ensures Get(r, "product_id") == Some(Str(pid)) && Get(r, "product_url") == Some(Str(u))
  {
    map["product_id" := Str(pid), "product_url" := Str(u)]
  }

  /** One import record for each URL with an id. */
  function ImportItems(uniq: seq<string>): (r: seq<Record>)
    ensures |r| <= |uniq|
  {
    if uniq == [] then []
    else
      var u := uniq[|uniq| - 1];
      ImportItems(uniq[..|uniq| - 1])
      + (match ItemIdOf(u) case Some(pid) => [ImportRecord(pid, u)] case None => [])
  }

  /** The id part of a canonical URL. */
  function CanonicalId(u: string): string
    requires IsCanonicalItemUrl(u)
  {
    u[|ItemUrlPrefix|..]
  }

  lemma CanonicalItemId(u: string)
    requires IsCanonicalItemUrl(u)
    ensures ItemIdOf(u) == Some(CanonicalId(u))
  {
    var pid := CanonicalId(u);
    assert u == BuildPublicItemUrl(pid);
    CanonicalUrlId(pid);
  }

  /** When every URL has an id, none is dropped and each record carries
      the id of its own URL. */
  lemma {:induction false} ImportItemsWithIds(uniq: seq<string>)
    requires forall k :: 0 <= k < |uniq| ==> ItemIdOf(uniq[k]).Some?
    ensures |ImportItems(uniq)| == |uniq|
    ensures forall k :: 0 <= k < |uniq| ==>
              ImportItems(uniq)[k] == ImportRecord(ItemIdOf(uniq[k]).value, uniq[k])
    decreases |uniq|
  {
    if uniq != [] {
      var t, u := uniq[..|uniq| - 1], uniq[|uniq| - 1];
      forall k | 0 <= k < |t| ensures ItemIdOf(t[k]).Some? {
        assert t[k] == uniq[k];
      }
      ImportItemsWithIds(t);
      ImportItemsSnoc(uniq);
      var r := ImportItems(t);
      forall k | 0 <= k < |uniq| ensures ImportItems(uniq)[k] == ImportRecord(ItemIdOf(uniq[k]).value, uniq[k]) {
        if k < |t| {
          assert ImportItems(uniq)[k] == r[k] && uniq[k] == t[k];
        }
      }
    }
  }

  lemma ImportItemsSnoc(uniq: seq<string>)
    requires uniq != [] && ItemIdOf(uniq[|uniq| - 1]).Some?
    ensures var u := uniq[|uniq| - 1];
      ImportItems(uniq) == ImportItems(uniq[..|uniq| - 1]) + [ImportRecord(ItemIdOf(u).value, u)]
  {
  }

  /** Canonical URLs all have an id, so none is dropped and each record
      carries the id of its own URL. */
  lemma ImportItemsOfCanonical(uniq: seq<string>)
    requires forall k :: 0 <= k < |uniq| ==> IsCanonicalItemUrl(uniq[k])
    ensures |ImportItems(uniq)| == |uniq|
    ensures forall k :: 0 <= k < |uniq| ==>
              ImportItems(uniq)[k] == ImportRecord(CanonicalId(uniq[k]), uniq[k])
  {
    forall k | 0 <= k < |uniq| ensures ItemIdOf(uniq[k]) == Some(CanonicalId(uniq[k])) {
      CanonicalItemId(uniq[k]);
    }
    ImportItemsWithIds(uniq);
  }

  method BuildItems(uniq: seq<string>) returns (items: seq<Record>)
    ensures items == ImportItems(uniq)
  {
    items := [];
    var k := 0;
    while k < |uniq|
      invariant 0 <= k <= |uniq|
      invariant items == ImportItems(uniq[..k])
    {
      assert uniq[..k + 1][..k] == uniq[..k];
      var m := ItemIdOf(uniq[k]);
      if m.Some? {
        items := items + [ImportRecord(m.value, uniq[k])];
      }
      k := k + 1;
    }
    assert uniq[..k] == uniq;
  }

  /** The JSON written to `out_path` (without `generated_at`). */
  datatype PurchaseDoc = PurchaseDoc(sourceType: string, hint: string, filteredOut: Option<nat>, items: seq<Record>)

  /** The returned stats (without `out_path`), next to the written file. */
  datatype BuildResult = BuildResult(doc: PurchaseDoc, extracted: nat, filteredOut: nat)

  /** What building from the collected `urls` yields: de-duplicated in
      first-seen order, optionally filtered against the ids of the index
      `filterIndex` (`None` stands for the exception its reader raises), one
      item per URL with an id. */
  function Built(urls: seq<string>, sourceType: string, hint: string, filterIndex: Option<StoredFile>): Option<BuildResult> {
    var uniq := FirstSeen(urls);
    if filterIndex.None? then Some(BuildResult(PurchaseDoc(sourceType, hint, None, ImportItems(uniq)), |uniq|, 0))
    else match IndexRecords(filterIndex.value)
      case None => None
      case Some(recs) =>
        var kept := Filter(uniq, KnownUrl(KeyedMap(recs, IndexKey)));
        var gone := |uniq| - |kept|;
        Some(BuildResult(PurchaseDoc(sourceType, hint, Some(gone), ImportItems(kept)), |uniq|, gone))
  }

  /** The shared tail of both builders. */
  method Finish(urls: seq<string>, sourceType: string, hint: string, filterIndex: Option<StoredFile>)
    returns (res: Option<BuildResult>)
    ensures res == Built(urls, sourceType, hint, filterIndex)
  {
    var uniq := Dedupe(urls);
    if filterIndex.None? {
      var items := BuildItems(uniq);
      return Some(BuildResult(PurchaseDoc(sourceType, hint, None, items), |uniq|, 0));
    }
    var existing := LoadExistingItemsMap(filterIndex.value);
    if existing.None? {
      return None;
    }
    var kept, removed := FilterUrlsByExistingFolders(uniq, existing.value);
    var items := BuildItems(kept);
    res := Some(BuildResult(PurchaseDoc(sourceType, hint, Some(removed), items), |uniq|, removed));
  }

  /** The result tells how many URLs there were, how many the filter took
      out, and the items are the canonical survivors: distinct, carrying
      their own ids, and, under a filter, only of ids already in the index. */
  lemma {:induction false} BuiltFromCanonical(urls: seq<string>, sourceType: string, hint: string, filterIndex: Option<StoredFile>)
    requires forall k :: 0 <= k < |urls| ==> IsCanonicalItemUrl(urls[k])
    ensures var r := Built(urls, sourceType, hint, filterIndex);
      r.Some? ==>
        r.value.extracted == |FirstSeen(urls)|
        && |r.value.doc.items| + r.value.filteredOut == r.value.extracted
        && (forall k :: 0 <= k < |r.value.doc.items| ==>
              "product_url" in r.value.doc.items[k] && r.value.doc.items[k]["product_url"].Str?
              && IsCanonicalItemUrl(r.value.doc.items[k]["product_url"].s))
  {
    var uniq := FirstSeen(urls);
    FirstSeenContents(urls);
    forall k | 0 <= k < |uniq| ensures IsCanonicalItemUrl(uniq[k]) {
      assert uniq[k] in urls;
    }
    if filterIndex.None? {
      ImportItemsOfCanonical(uniq);
    } else if IndexRecords(filterIndex.value).Some? {
      var kept := Filter(uniq, KnownUrl(KeyedMap(IndexRecords(filterIndex.value).value, IndexKey)));
      forall k | 0 <= k < |kept| ensures IsCanonicalItemUrl(kept[k]) {
        FilterContents(uniq, KnownUrl(KeyedMap(IndexRecords(filterIndex.value).value, IndexKey)), kept[k]);
      }
      ImportItemsOfCanonical(kept);
    }
  }

  /** `build_purchase_json_from_urls_and_html`: the pasted text is read both
      line by line and as HTML (`pastedEvents` are its events). */
  method BuildFromUrlsAndHtml(pastedText: string, pastedEvents: seq<Event>, hint: string, filterIndex: Option<StoredFile>)
    returns (res: Option<BuildResult>)
    ensures res == Built(Canonicals(SplitLines(pastedText)) + Canonicals(AnchorRun(AnchorInit, pastedEvents).urls),
                         "manual_paste", hint, filterIndex)
  {
    var urls := ExtractUrlsFromText(pastedText);
    var htmlUrls := ExtractUrlsFromHtml(pastedEvents);
    urls := urls + htmlUrls;
    res := Finish(urls, "manual_paste", hint, filterIndex);
  }

  /** A saved purchase-history page: its base name and, when it could be
      read, its events. */
  datatype HtmlFile = HtmlFile(baseName: string, events: Option<seq<Event>>)

  /** The URLs of the readable files, file after file. */
  function FilesUrls(files: seq<HtmlFile>): seq<string> {
    if files == [] then []
    else
      var f := files[|files| - 1];
      FilesUrls(files[..|files| - 1]) + (if f.events.Some? then Canonicals(AnchorRun(AnchorInit, f.events.value).urls) else [])
  }

  function FilesUsed(files: seq<HtmlFile>): (r: seq<string>)
    ensures |r| <= |files|
  {
    if files == [] then []
    else
      var f := files[|files| - 1];
      FilesUsed(files[..|files| - 1]) + (if f.events.Some? then [f.baseName] else [])
  }

  /** The default hint: the first file read and how many more there were. */
  function FilesHint(hint: string, used: seq<string>): string {
    if hint != [] then hint
    else if used != [] then used[0] + " (+" + IntToString(|used| - 1) + " files)"
    else ""
  }

  /** `build_purchase_json_from_html_files`; unreadable files are skipped. */
  method BuildFromHtmlFiles(files: seq<HtmlFile>, hint: string, filterIndex: Option<StoredFile>)
    returns (res: Option<BuildResult>)
    ensures res == Built(FilesUrls(files), "manual_copy_html", FilesHint(hint, FilesUsed(files)), filterIndex)
  {
    var urls: seq<string> := [];
    var used: seq<string> := [];
    var k := 0;
    while k < |files|
      invariant 0 <= k <= |files|
      invariant urls == FilesUrls(files[..k]) && used == FilesUsed(files[..k])
    {
      assert files[..k + 1][..k] == files[..k];
      if files[k].events.Some? {
        used := used + [files[k].baseName];
        var more := ExtractUrlsFromHtml(files[k].events.value);
        urls := urls + more;
      }
      k := k + 1;
    }
    assert files[..k] == files;
    res := Finish(urls, "manual_copy_html", FilesHint(hint, used), filterIndex);
  }

  // ---------------------------------------------------------------------
  // apply_purchase_import_json
  // ---------------------------------------------------------------------

  /** What can be at `purchase_json_path`. */
  datatype PurchaseFile = PurchaseUnreadable | PurchaseJson(doc: Value)

  /** The key of an import item: the stripped `str(product_id)` of an
      object ("" skips it; here "none" is not special). */
  function ImportKey(v: Value): string {
    if v.Obj? then Strip(StrField(v.fields, "product_id")) else ""
  }

  /** `src_map`: import items by id, a later duplicate id winning. */
  function SrcMap(items: seq<Value>): map<string, Value> {
    KeyedMap(items, ImportKey)
  }

  /** The id an index record is matched by: its own id, else the bracketed
      id at the front of its title. */
  function ResolvedId(it: Record): string {
    var pid := IndexKey(it);
    if pid != [] then pid else ExtractProductId(StrField(it, "title")).GetOr("")
  }

  /** `a or b` on two optional values. */
  function OrElse(a: Option<Value>, b: Option<Value>): Option<Value> {
    if a.Some? && Truthy(a.value) then a else b
  }

  /** One field copy: set `key` to the stripped value when that is a
      non-blank string different from what is stored; the flag says whether
      it was set. */
  function CopyField(it: Record, key: string, v: Option<Value>): (r: (Record, bool))
    ensures r.1 <==> NonBlank(v).Some? && Get(it, key) != Some(Str(NonBlank(v).value))
    ensures r.1 ==> r.0 == it[key := Str(NonBlank(v).value)]
    ensures !r.1 ==> r.0 == it
  {
    match NonBlank(v)
    case None => (it, false)
    case Some(s) => if Get(it, key) != Some(Str(s)) then (it[key := Str(s)], true) else (it, false)
  }

  function MergeFields(it: Record, src: Record): (Record, bool) {
    var a := CopyField(it, "product_url", Get(src, "product_url"));
    var b := CopyField(a.0, "purchase_title", OrElse(Get(src, "purchase_title"), Get(src, "official_title")));
    var c := CopyField(b.0, "purchased_at", Get(src, "purchased_at"));
    (c.0, a.1 || b.1 || c.1)
  }

  /** The fields the merge may write. */
  predicate IsPurchaseField(k: string) {
    k == "product_url" || k == "purchase_title" || k == "purchased_at"
  }

  /** What the merge writes into one field: the import's non-blank stripped
      value, or what was there. */
  predicate FieldMerged(m: Record, it: Record, k: string, v: Option<Value>) {
    if NonBlank(v).Some? then Get(m, k) == Some(Str(NonBlank(v).value)) else Get(m, k) == Get(it, k)
  }

  /** One copy touches only its key, leaves it holding the import value
      when that is non-blank, and reports exactly whether the key changed. */
  lemma CopyFieldSpec(it: Record, key: string, v: Option<Value>)
    ensures var (m, changed) := CopyField(it, key, v);
      (forall k :: k != key ==> Get(m, k) == Get(it, k))
      && FieldMerged(m, it, key, v)
      && (changed <==> Get(m, key) != Get(it, key))
  {
  }

  /** The merge of one matched record: only the three purchase fields can
      change, each only to a non-blank stripped import value, the title
      falling back to `official_title` only when `purchase_title` is falsy;
      and the flag is set exactly when one of the three fields changed. */
  lemma MergeFieldsSpec(it: Record, src: Record)
    ensures var (m, changed) := MergeFields(it, src);
      (forall k :: !IsPurchaseField(k) ==> Get(m, k) == Get(it, k))
      && FieldMerged(m, it, "product_url", Get(src, "product_url"))
      && FieldMerged(m, it, "purchase_title", OrElse(Get(src, "purchase_title"), Get(src, "official_title")))
      && FieldMerged(m, it, "purchased_at", Get(src, "purchased_at"))
      && (changed <==> exists k :: IsPurchaseField(k) && Get(m, k) != Get(it, k))
  {
    var v1, v2, v3 := Get(src, "product_url"), OrElse(Get(src, "purchase_title"), Get(src, "official_title")), Get(src, "purchased_at");
    var a := CopyField(it, "product_url", v1);
    var b := CopyField(a.0, "purchase_title", v2);
    var c := CopyField(b.0, "purchased_at", v3);
    CopyFieldSpec(it, "product_url", v1);
    CopyFieldSpec(a.0, "purchase_title", v2);
    CopyFieldSpec(b.0, "purchased_at", v3);
    var m := c.0;
    assert MergeFields(it, src) == (m, a.1 || b.1 || c.1);
    if a.1 || b.1 || c.1 {
      if a.1 {
        assert IsPurchaseField("product_url") && Get(m, "product_url") != Get(it, "product_url");
      } else if b.1 {
        assert IsPurchaseField("purchase_title") && Get(m, "purchase_title") != Get(it, "purchase_title");
      } else {
        assert IsPurchaseField("purchased_at") && Get(m, "purchased_at") != Get(it, "purchased_at");
      }
    }
  }

  /** A record after its match is merged, and whether it changed; records
      without a match stay as they are. */
  function MergeRecord(it: Record, src: map<string, Value>): (Record, bool) {
    var pid := ResolvedId(it);
    if pid != [] && pid in src && src[pid].Obj? then MergeFields(it, src[pid].fields) else (it, false)
  }

  /** A record is matched when its resolved id has an import item. */
  predicate Matched(src: map<string, Value>, it: Record) {
    ResolvedId(it) != [] && ResolvedId(it) in src
  }

  /** `matched`: how many records have an import item. */
  function MatchedCount(recs: seq<Record>, src: map<string, Value>): nat {
    if recs == [] then 0
    else MatchedCount(recs[..|recs| - 1], src) + (if Matched(src, recs[|recs| - 1]) then 1 else 0)
  }

  /** `updated`: how many records the merge changed. */
  function UpdatedCount(recs: seq<Record>, src: map<string, Value>): nat {
    if recs == [] then 0
    else UpdatedCount(recs[..|recs| - 1], src) + (if MergeRecord(recs[|recs| - 1], src).1 then 1 else 0)
  }

  function MergeAll(recs: seq<Record>, src: map<string, Value>): (r: seq<Record>)
    ensures |r| == |recs|
  {
    if recs == [] then [] else MergeAll(recs[..|recs| - 1], src) + [MergeRecord(recs[|recs| - 1], src).0]
  }

  /** The result: the three counters and the records written back, when the
      index was written at all. */
  datatype ApplyResult = Raised | Applied(total: nat, matched: nat, updated: nat, written: Option<seq<Record>>)

  /** The counters of the early exits that write nothing. */
  const Zeros := Applied(0, 0, 0, None)

  /** The import items, or why there are none: `None` when the import file
      cannot be read or its items are not a list. */
  function ImportItemsOf(purchase: PurchaseFile): Option<Option<seq<Value>>> {
    match purchase
    case PurchaseUnreadable => Some(None)
    case PurchaseJson(doc) =>
      if !doc.Obj? then None
      else match Get<Value>(doc.fields, "items").GetOr(Arr([]))
        case Arr(xs) => Some(Some(xs))
        case _ => Some(None)
  }

  /** Every import item's values in `src_map` are objects. */
  predicate AllObjects(src: map<string, Value>) {
    forall k :: k in src ==> src[k].Obj?
  }

  lemma {:induction false} SrcMapObjects(items: seq<Value>)
    ensures AllObjects(KeyedMap(items, ImportKey))
  {
    forall k | k in KeyedMap(items, ImportKey) ensures KeyedMap(items, ImportKey)[k].Obj? {
      KeyedMapLastWins(items, ImportKey, k);
    }
  }

  /** What `apply_purchase_import_json` does with the index `stored` and
      the import file `purchase`: the counters and the records it writes. */
  function Applying(stored: StoredFile, purchase: PurchaseFile): ApplyResult {
    match ItemsOf(ReadMetadata(stored))
    case NoItems => Zeros
    case Raises => Raised
    case Items(xs) =>
      match ImportItemsOf(purchase)
      case None => Raised
      case Some(None) => Zeros
      case Some(Some(items)) =>
        var src := SrcMap(items);
        match AsRecords(xs)
        case None => Raised
        case Some(recs) => Applied(|src|, MatchedCount(recs, src), UpdatedCount(recs, src), Some(MergeAll(recs, src)))
  }

  /** One more record through the merge loop. */
  lemma MergeStep(recs: seq<Record>, src: map<string, Value>, j: nat)
    requires j < |recs|
    ensures MergeAll(recs[..j + 1], src) == MergeAll(recs[..j], src) + [MergeRecord(recs[j], src).0]
    ensures MatchedCount(recs[..j + 1], src) == MatchedCount(recs[..j], src) + (if Matched(src, recs[j]) then 1 else 0)
    ensures UpdatedCount(recs[..j + 1], src) == UpdatedCount(recs[..j], src) + (if MergeRecord(recs[j], src).1 then 1 else 0)
  {
    assert recs[..j + 1][..j] == recs[..j];
  }

  /** The body of the loop over the index records: resolve the record's
      id, look up its import item and merge that item's fields. */
  method MergeOne(it: Record, src: map<string, Value>) returns (m: Record, hit: bool, changed: bool)
    requires AllObjects(src)
    ensures hit == Matched(src, it)
    ensures (m, changed) == MergeRecord(it, src)
  {
    var pid := ResolvedId(it);
    m, hit, changed := it, false, false;
    if pid != [] && pid in src {
      hit := true;
      var r := MergeFields(it, src[pid].fields);
      m, changed := r.0, r.1;
    }
  }

  /** One turn of the merge loop: record `j` is merged in place and the
      counters move on by what it adds. */
  method MergeTurn(recs: seq<Record>, src: map<string, Value>, j: nat,
                   out: seq<Record>, matched: nat, updated: nat)
    returns (out': seq<Record>, matched': nat, updated': nat)
    requires AllObjects(src) && j < |recs| && |out| == |recs|
    requires out[..j] == MergeAll(recs[..j], src)
    requires matched == MatchedCount(recs[..j], src) && updated == UpdatedCount(recs[..j], src)
    ensures |out'| == |recs| && out'[..j + 1] == MergeAll(recs[..j + 1], src)
    ensures forall i :: j < i < |out| ==> out'[i] == out[i]
    ensures matched' == MatchedCount(recs[..j + 1], src) && updated' == UpdatedCount(recs[..j + 1], src)
  {
    MergeStep(recs, src, j);
    var m, hit, changed := MergeOne(recs[j], src);
    matched' := if hit then matched + 1 else matched;
    updated' := if changed then updated + 1 else updated;
    UpdateExtends(out, j, m);
    out' := out[j := m];
  }

  /** The loop over the index records of `apply_purchase_import_json`:
      each record whose resolved id has an import item gets that item's
      fields merged in place; the counters count the matches and the
      records that changed. */
  method MergeLoop(recs: seq<Record>, src: map<string, Value>) returns (out: seq<Record>, matched: nat, updated: nat)
    requires AllObjects(src)
    ensures out == MergeAll(recs, src)
    ensures matched == MatchedCount(recs, src)
    ensures updated == UpdatedCount(recs, src)
  {
    out := recs;
    matched, updated := 0, 0;
    var j := 0;
    while j < |recs|
      invariant 0 <= j <= |recs| && |out| == |recs|
      invariant out[..j] == MergeAll(recs[..j], src)
      invariant forall i :: j <= i < |recs| ==> out[i] == recs[i]
      invariant matched == MatchedCount(recs[..j], src)
      invariant updated == UpdatedCount(recs[..j], src)
    {
      out, matched, updated := MergeTurn(recs, src, j, out, matched, updated);
      j := j + 1;
    }
    assert recs[..j] == recs && out[..j] == out;
  }

  /** `apply_purchase_import_json`. */
  method ApplyPurchaseImport(stored: StoredFile, purchase: PurchaseFile) returns (res: ApplyResult)
    ensures res == Applying(stored, purchase)
  {
    var view := ItemsOf(ReadMetadata(stored));
    if view.NoItems? {
      return Zeros;
    }
    if view.Raises? {
      return Raised;
    }
    var imp := ImportItemsOf(purchase);
    if imp.None? {
      return Raised;
    }
    if imp.value.None? {
      return Zeros;
    }
    var items := imp.value.value;
    var src := BuildKeyedMap(items, ImportKey);
    SrcMapObjects(items);
    var total := |src|;
    var recsOpt := AsRecords(view.items);
    if recsOpt.None? {
      return Raised;
    }
    var recs := recsOpt.value;
    var out, matched, updated := MergeLoop(recs, src);
    res := Applied(total, matched, updated, Some(out));
  }

  /** A record can only change when it matched. */
  lemma {:induction false} UpdatedAtMostMatched(recs: seq<Record>, src: map<string, Value>)
    ensures UpdatedCount(recs, src) <= MatchedCount(recs, src)
  {
    if recs != [] {
      UpdatedAtMostMatched(recs[..|recs| - 1], src);
    }
  }

  /** `total` is the number of distinct non-empty import ids. */
  lemma TotalIsDistinctIds(items: seq<Value>, pid: string)
    ensures pid in SrcMap(items) <==> pid != "" && exists k :: 0 <= k < |items| && ImportKey(items[k]) == pid
  {
    KeyedMapKeys(items, ImportKey, pid);
  }

  /** The id a record is matched by depends on its `product_id` and
      `title` alone. */
  lemma ResolvedIdFrame(a: Record, b: Record)
    requires Get(a, "product_id") == Get(b, "product_id") && Get(a, "title") == Get(b, "title")
    ensures ResolvedId(a) == ResolvedId(b)
  {
    assert StrField(a, "product_id") == StrField(b, "product_id");
    assert StrField(a, "title") == StrField(b, "title");
  }

  /** Merging into a record that already holds every merged value is a no-op. */
  lemma MergeFieldsAgain(m: Record, it: Record, s: Record)
    requires FieldMerged(m, it, "product_url", Get(s, "product_url"))
    requires FieldMerged(m, it, "purchase_title", OrElse(Get(s, "purchase_title"), Get(s, "official_title")))
    requires FieldMerged(m, it, "purchased_at", Get(s, "purchased_at"))
    ensures MergeFields(m, s) == (m, false)
  {
    var v1, v2, v3 := Get(s, "product_url"), OrElse(Get(s, "purchase_title"), Get(s, "official_title")), Get(s, "purchased_at");
    assert CopyField(m, "product_url", v1) == (m, false);
    assert CopyField(m, "purchase_title", v2) == (m, false);
    assert CopyField(m, "purchased_at", v3) == (m, false);
  }

  /** What a second merge needs of the first: the id fields are untouched and
      every merged field holds its merged value. */
  lemma MergeFieldsFacts(it: Record, s: Record)
    ensures var m := MergeFields(it, s).0;
      Get(m, "product_id") == Get(it, "product_id") && Get(m, "title") == Get(it, "title")
      && FieldMerged(m, it, "product_url", Get(s, "product_url"))
      && FieldMerged(m, it, "purchase_title", OrElse(Get(s, "purchase_title"), Get(s, "official_title")))
      && FieldMerged(m, it, "purchased_at", Get(s, "purchased_at"))
  {
    MergeFieldsSpec(it, s);
    assert !IsPurchaseField("product_id") && !IsPurchaseField("title");
  }

  /** Merging is idempotent: applying the same import again changes nothing. */
  lemma MergeRecordTwice(it: Record, src: map<string, Value>)
    ensures var m := MergeRecord(it, src).0;
      MergeRecord(m, src) == (m, false)
  {
    var pid := ResolvedId(it);
    if pid != [] && pid in src && src[pid].Obj? {
      var s := src[pid].fields;
      var m := MergeFields(it, s).0;
      assert MergeRecord(it, src).0 == m;
      MergeFieldsFacts(it, s);
      ResolvedIdFrame(m, it);
      assert MergeRecord(m, src) == MergeFields(m, s);
      MergeFieldsAgain(m, it, s);
    }
  }

  lemma {:induction false} MergeAllTwice(recs: seq<Record>, src: map<string, Value>)
    ensures MergeAll(MergeAll(recs, src), src) == MergeAll(recs, src)
    ensures UpdatedCount(MergeAll(recs, src), src) == 0
    decreases |recs|
  {
    if recs != [] {
      var t := recs[..|recs| - 1];
      var m := MergeAll(recs, src);
      MergeAllTwice(t, src);
      assert m[..|m| - 1] == MergeAll(t, src);
      MergeRecordTwice(recs[|recs| - 1], src);
      assert m[|m| - 1] == MergeRecord(recs[|recs| - 1], src).0;
    }
  }
}
