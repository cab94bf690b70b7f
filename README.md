# BoothLibraryHelper core, modelled in Dafny

BoothLibraryHelper keeps a local library of items bought on the BOOTH shop.
Each item sits in its own folder named `[<id>] <name>` inside a download folder.
The desktop program:

- rescans that folder into a `metadata.json` index;
- caches each item's public thumbnail;
- builds and applies `purchase_import.json` files from pasted text and saved purchase-history pages;
- keeps a small change-detection table;
- shows the library as a filtered, sorted grid of cards.

This project models the deterministic core of those parts and proves what the code promises about it.

| file | module | models |
|---|---|---|
| text.dfy | `Text` | `str.strip`, ASCII `lower`, substring tests, the `\d+` patterns of `re.match`/`re.search`, `str(n)` of a count |
| json.dfy | `JsonValues` | parsed JSON values and the `dict.get` / `str(...)` / `int(... or 0)` / truthiness idioms used on them |
| collections.dfy | `Collections` | filtering, dict building with the last duplicate winning, first-seen de-duplication, the stable `list.sort` |
| utils_ids.dfy | `ItemIds` | `extract_product_id`, `build_public_item_url`, `_normalize_item_url` |
| utils_html.dfy | `HtmlParsers` | `PurchaseHTMLParser`, `BoothMetaParser`, `fetch_public_item_meta` |
| utils_scan.dfy | `FolderScan` | `_scan_single_dir`, `scan_files_two_level` |
| utils_thumbnail.dfy | `ThumbnailCache` | `fetch_and_cache_thumbnail` over an abstract cache directory |
| utils_purchase.dfy | `PurchaseImport` | URL extraction, `_load_existing_items_map`, `_filter_urls_by_existing_folders`, the two builders of `purchase_import.json`, `apply_purchase_import_json` |
| storage.dfy | `Storage` | `scan_dl_folder`, `scan_last_dl_folder` |
| db.dfy | `ChangeDb` | `compute_hash` and the `DB` table: `upsert_item`, `clear_update_flag`, `list_items` |
| ui_helpers.dfy | `CardHelpers` | the pure helpers of the main window: id guessing, display title, product URL, `_quantize_px`, `_calc_columns`, and the navigation index arithmetic |
| ui_queue.dfy | `ThumbQueues` | `_queue_thumb` / `_process_thumb_queue` / `_update_visible_thumbnails_only` |
| ui_pool.dfy | `CardPools` | `_ensure_pool_size` |
| ui_filters.dfy | `ItemFilters` | the filter, sort, index-map and selection part of `_apply_filters` |
| ui_glue.dfy | `WindowGlue` | how the window hands scan and import results to its list (see Findings) |

State that the program changes step by step is modelled as a class with `modifies` clauses:

- the parsers;
- the file buckets;
- the thumbnail cache;
- the download folder and its index;
- the change table;
- the thumbnail queue;
- the card pool;
- the item browser.

Each such method is proved against a function of the old state. The properties are proved about those functions as lemmas.

Several things come in as parameters:

- **Outcome parameters:** the network (page fetch, image download) and the filesystem (directory listings, file contents, whether `metadata.json` parses, whether the thumbnail cache's writes succeed).
- **Oracles:** the SHA-256 digest, `os.path.normpath` and the PIL image decode.
- **Plain parameters:** the clock and the `fromisoformat` reading of a time stamp, both given as integer seconds.

On two points the code does something other than what the program's description says. The model follows the code in both:

- **`apply_purchase_import_json`:** when `metadata.json` is missing or unreadable, it does not return zeros without writing. `read_metadata_json` reads such an index as `{"items": []}`, so the import goes ahead and writes an empty index. `total` counts the import ids. Zeros without a write come only from these cases:
  - an index that parses but holds no item list;
  - an unreadable import file;
  - an import file whose `items` is not a list.
- **`fetch_and_cache_thumbnail`:** when the image download fails, it returns the freshly fetched page metadata, not the metadata cached before the attempt. The cached image is kept.

## Model

| member | source | states |
|---|---|---|
| Text.Strip | app/utils.py:360 | `str.strip()` leaves no whitespace at either end, never lengthens, and keeps a stripped string as it is |
| Text.StripTrims | app/utils.py:360 | the stripped text is a slice of the original with only whitespace cut from each end, so with the stripped ends it is exactly `strip()` |
| Text.StripIdempotent | app/utils.py:360 | stripping twice is stripping once |
| Text.LowerFacts | app/utils.py:269 | `lower()` leaves no ASCII capital, keeps a text without capitals as it is, is idempotent, and changes only capitals |
| Text.DigitRun | app/utils.py:39 | the greedy `\d+` run at the front: all digits, and followed by a non-digit or the end |
| Text.MatchAt | app/utils.py:39 | an anchored match captures a digit run of the minimum length or more, and the text starts with the opening, the digits and the closing |
| Text.MatchAtOf | app/utils.py:39 | a text that starts with the opening, a digit run and the closing is matched and searched with exactly that digit run captured |
| Text.Search | app/utils.py:373 | a search captures a digit run of the minimum length or more, enclosed by the opening and the closing somewhere in the text |
| Text.SearchSkips | app/utils.py:373 | text where no match starts can be skipped: the search finds what it finds in the rest |
| Text.NatToString | app/ui_main.py:797 | `str(n)` of a count is a non-empty digit string |
| Text.DecimalRoundTrip | app/ui_main.py:797 | reading `str(n)` back as a decimal gives `n` |
| ItemIds.ExtractProductId | app/utils.py:35-40 | an id found is a non-empty ASCII digit run and the name starts with `[` + id + `]` |
| ItemIds.ExtractProductIdOf | app/utils.py:35-40 | for every non-empty digit run `d`, a name `[d]` followed by anything yields `d` |
| ItemIds.BuildPublicItemUrl | app/utils.py:43-44 | the item URL is the fixed shop prefix followed by exactly the id |
| ItemIds.ItemIdOf | app/utils.py:372-375 | the first `/items/<digits>` run found is a non-empty digit string |
| ItemIds.ItemIdAfter | app/utils.py:372-375 | after text holding no `/i`, the next `/items/<digits>` run is the one found |
| ItemIds.CanonicalUrlId | app/utils.py:43-44 | the id searched in a canonical item URL is the id it was built from |
| ItemIds.Absolutize | app/utils.py:364-368 | `//` links get `https:` in front, links not starting with `/` stay as they are |
| ItemIds.NormalizeItemUrl | app/utils.py:357-377 | a result exists exactly when the stripped, absolutised URL is http(s) and holds `/items/<digits>`, and it is then the canonical URL of that id |
| ItemIds.CanonicalIsNormal | app/utils.py:357-377 | normalising a canonical item URL returns it unchanged |
| ItemIds.NormalizeIdempotent | app/utils.py:357-377 | normalising a normalised URL gives the same URL again |
| ItemIds.NormalizeSteps | app/utils.py:357-377 | a stripped link whose absolutised form is http(s) with id `pid` normalises to the canonical URL of `pid` |
| ItemIds.ProtocolRelativeAbsolutized | app/utils.py:364-365 | a `//host/ja/items/<id>` link is stripped already and becomes an `https:` URL |
| ItemIds.NormalizeProtocolRelative | app/utils.py:357-377 | `//host/ja/items/<id>` plus a query or fragment normalises to the canonical URL of the id |
| ItemIds.RootRelativeAbsolutized | app/utils.py:367-368 | a `/ja/items/<id>` link gets the shop host in front |
| ItemIds.NormalizeRootRelative | app/utils.py:357-377 | `/ja/items/<id>` plus a query or fragment normalises to the canonical URL of the id |
| ItemIds.NormalizeAbsolute | app/utils.py:357-377 | `https://host/items/<id>` on any host normalises to the canonical URL of the id |
| HtmlParsers.AttrGet | app/utils.py:27-28 | `dict(attrs).get`: absent exactly when no attribute has the name, otherwise the value of an attribute with that name |
| HtmlParsers.AnchorRunAppend | app/utils.py:327-354 | feeding two event runs one after the other is feeding their concatenation |
| HtmlParsers.AnchorRunWellFormed | app/utils.py:347-351 | every URL the anchor parser collects is stripped and contains `/items/` |
| HtmlParsers.AnchorInside | app/utils.py:347-351 | inside an open anchor, each data event adds the stripped href once when it holds `/items/`, and nothing else changes |
| HtmlParsers.AnchorOutside | app/utils.py:334-351 | outside every anchor, events that open none add no URL and open no anchor |
| HtmlParsers.AnchorBlock | app/utils.py:334-354 | a whole `<a href>`…`</a>` adds the stripped href once per data event inside (when it holds `/items/`) and closes the anchor |
| HtmlParsers.AnchorWithoutData | app/utils.py:334-354 | an anchor with no data events adds no URL |
| HtmlParsers.PurchaseHtmlParser.constructor | app/utils.py:328-332 | the parser starts with no URLs and outside an anchor |
| HtmlParsers.PurchaseHtmlParser.HandleStartTag | app/utils.py:334-340 | only `a` with a non-empty href opens an anchor and records the href; URLs are untouched |
| HtmlParsers.PurchaseHtmlParser.HandleEndTag | app/utils.py:342-345 | a closing `a` resets the anchor state; other end tags change nothing |
| HtmlParsers.PurchaseHtmlParser.HandleData | app/utils.py:347-351 | a data event appends exactly the URLs of the anchor state and keeps that state |
| HtmlParsers.PurchaseHtmlParser.Feed | app/utils.py:392-394 | feeding events leaves the state of the event-by-event run |
| HtmlParsers.OgRunUntouched | app/utils.py:24-32 | without an `og:image` (`og:title`) meta tag the collected `og_image` (`og_title`) stays as it was |
| HtmlParsers.OgRunAppend | app/utils.py:18-32 | feeding two runs in turn is feeding their concatenation |
| HtmlParsers.OgImageLastWins | app/utils.py:24-30 | the last `og:image` meta tag decides `og_image`: its `content` value |
| HtmlParsers.BoothMetaParser.constructor | app/utils.py:19-22 | both fields start as `None` |
| HtmlParsers.BoothMetaParser.HandleStartTag | app/utils.py:24-32 | tags other than `meta` change nothing; the state is one step of the run |
| HtmlParsers.BoothMetaParser.Feed | app/utils.py:62-63 | feeding events leaves the state of the event-by-event run |
| HtmlParsers.PageMeta | app/utils.py:65-70 | the dict holds the canonical URL, and `official_title` / `og_image_url` exactly when the parsed value is non-empty, and no other key |
| HtmlParsers.FetchPublicItemMeta | app/utils.py:47-72 | `None` exactly when the page fetch fails; otherwise the meta dict of the parsed page |
| ThumbnailCache.Rank | app/utils.py:109 | every extension has its place in the scan order `.png`, `.jpg`, `.jpeg`, `.webp` |
| ThumbnailCache.RelPathInjective | app/utils.py:111-112 | different extensions give different reported paths |
| ThumbnailCache.FirstPresent | app/utils.py:107-114 | no image is found exactly when the cache holds none; otherwise the earliest cached extension in scan order |
| ThumbnailCache.ThumbCache.FindExisting | app/utils.py:107-114 | the scan loop finds the earliest cached extension in scan order |
| ThumbnailCache.ParseUtcIso | app/utils.py:127-137 | a missing, non-string or blank `fetched_at` gives no time |
| ThumbnailCache.MetaOutFields | app/utils.py:244-251 | the written meta record holds exactly the six keys with the id, the page URL and title, the image URL, the image path and the stamp |
| ThumbnailCache.FreshAfterRefresh | app/utils.py:139-149 | a meta stamped at `now` is fresh later exactly while `ttl` is positive and less than `ttl` seconds passed, and never under a forced refresh |
| ThumbnailCache.ChooseExt | app/utils.py:209-229 | a case-insensitive URL suffix decides first, `.jpeg` becomes `.jpg`, and `.jpeg` is never chosen |
| ThumbnailCache.ChooseExtByContentType | app/utils.py:216-225 | without a known suffix, `png` in the content type gives `.png`, then `jpeg`/`jpg` gives `.jpg`, then `webp`, and `.jpg` otherwise |
| ThumbnailCache.ReplaceImage | app/utils.py:234-242 | after saving, the new image is stored; a cached image of another extension is gone when its removal succeeded and kept when it failed; nothing else changes |
| ThumbnailCache.ReplaceKeepsOne | app/utils.py:234-242 | with a successful removal, a cache that held at most one image holds exactly the new one afterwards |
| ThumbnailCache.FailedRemoveKeepsBoth | app/utils.py:235-239 | a failed removal is ignored, so the old image of another extension stays beside the new one |
| ThumbnailCache.ThumbCache.constructor | app/utils.py:103-125 | the cache starts with the given images and meta file |
| ThumbnailCache.ThumbCache.FetchAndCache | app/utils.py:75-258 | every outcome: no id does nothing; an image with a fresh meta (as `meta.json` parses, only an object counts) is reused; a failed page falls back to the cache or nothing; otherwise the refresh of `Refresh` |
| ThumbnailCache.ThumbCache.Refresh | app/utils.py:165-258 | no og:image writes the page meta (a failed write is ignored) and keeps the image; an unchanged og:image rewrites the meta without a download; otherwise the download outcome |
| ThumbnailCache.ThumbCache.Download | app/utils.py:205-258 | the download `try` block: a failed GET keeps the cache and returns the page meta; otherwise the old image of another extension is removed (a failed removal ignored), and a failed image or meta write returns the old path and the page meta with the files as far as the writes got, so after a removal the returned path names a file that is gone; success replaces the image and writes the new meta |
| FolderScan.LastDot | app/utils.py:268 | the index found is the last `.` of the name, and none is found exactly when there is no `.` |
| FolderScan.Ext | app/utils.py:268 | the extension is empty or a `.`-led suffix of the name with no further `.` |
| FolderScan.ClassifyByExt | app/utils.py:268-276 | a name goes to a bucket exactly when its lower-cased extension is in that bucket's set |
| FolderScan.InBucketClassified | app/utils.py:264-278 | the names a listing adds to a bucket all belong to that bucket |
| FolderScan.ChildrenClassified | app/utils.py:292-297 | what the immediate subdirectories add belongs to the bucket |
| FolderScan.TwoLevelClassified | app/utils.py:282-297 | every name in a bucket of the two-level scan belongs to that bucket |
| FolderScan.BucketMembership | app/utils.py:268-276 | a name is in a bucket only if it classifies into that bucket, that is, by `ClassifyByExt`, only if its extension is in that bucket's set |
| FolderScan.BucketsDisjoint | app/utils.py:268-276 | no name lands in two buckets |
| FolderScan.UnknownDropped | app/utils.py:268-276 | a name whose extension is in no set is in no bucket |
| FolderScan.DirectFileFound | app/utils.py:264-276 | every regular file directly in the listing whose extension is known lands in its bucket |
| FolderScan.TwoLevelOnly | app/utils.py:282-297 | what lies below the immediate subdirectories never changes the result |
| FolderScan.AddName | app/utils.py:269-276 | the `if`/`elif` chain appends a name to its own bucket only |
| FolderScan.AddFilesBuckets | app/utils.py:266-276 | appending the files of a listing appends to each bucket exactly that listing's names for it |
| FolderScan.FileBuckets.constructor | app/utils.py:286 | the four lists start empty |
| FolderScan.FileBuckets.Add | app/utils.py:269-276 | one name is appended to the bucket it belongs to |
| FolderScan.FileBuckets.ScanSingleDir | app/utils.py:264-280 | each bucket grows by exactly the directory's names for it, in listing order |
| FolderScan.ScanFilesTwoLevel | app/utils.py:282-304 | the buckets are the direct files followed by those of each immediate subdirectory, and `stats` are the bucket lengths |
| Collections.FilterContents | app/utils.py:418-435 | a filtered list holds exactly the elements that pass the test |
| Collections.FilterIsSubsequence | app/utils.py:418-435 | a filtered list is the input with some elements left out and the rest in order |
| Collections.CountComplement | app/utils.py:418-435 | the elements that pass and those that fail add up to the whole list |
| Collections.KeyedMap | app/utils.py:408-416 | a dict built by `m[key(x)] = x` over non-empty keys never holds the empty key |
| Collections.KeyedMapKeys | app/utils.py:408-416 | its keys are exactly the non-empty keys of the elements |
| Collections.KeyedMapLastWins | app/utils.py:408-416 | each key holds the last element with that key |
| Collections.KeyedMapUnique | app/utils.py:408-416 | a key that occurs once holds its one element |
| Collections.BuildKeyedMap | app/utils.py:408-416 | the dict-building loop builds exactly that dict |
| Collections.FirstSeenContents | app/utils.py:470-476 | the de-duplicated list has no duplicates and holds exactly the input's elements |
| Collections.FirstSeenAppend | app/utils.py:466-476 | de-duplicating text URLs followed by anchor URLs lists the text URLs first, then the anchor URLs not seen among them |
| Collections.FirstSeenNoDuplicates | app/utils.py:470-476 | a list without duplicates is its own de-duplication |
| Collections.IndexOf | app/utils.py:470-476 | the position found is the first occurrence of the element |
| Collections.FirstSeenOrder | app/utils.py:470-476 | de-duplicated elements keep the order of their first occurrences |
| Collections.StrLeTransitive | app/ui_main.py:891-893 | Python's string order is total: "not less than" is transitive |
| Collections.BeforeOrder | app/ui_main.py:914-928 | "goes strictly before" on sort keys is irreflexive, asymmetric and its negation transitive, either direction |
| Collections.InsertPermutes | app/ui_main.py:914-928 | inserting adds the element and keeps all others |
| Collections.InsertSorted | app/ui_main.py:914-928 | inserting into a sorted list keeps it sorted |
| Collections.StableSort | app/ui_main.py:914-928 | `list.sort(key, reverse)` returns a permutation that is sorted by the key |
| Collections.StableSortIsStable | app/ui_main.py:914-928 | elements with equal keys keep their relative order |
| JsonValues.Get | app/utils.py:32 | `dict.get`: a value exactly when the key is present, and then its value |
| JsonValues.IntToString | app/utils.py:611 | `str(n)` is non-empty, and for a non-negative integer a digit string whose value is `n` |
| JsonValues.PyStr | app/utils.py:588 | `str` of a string is the string, of `None` is `"None"`, of a number is text `int()` reads back as that number, of a bool is text `int()` rejects |
| JsonValues.StrField | app/utils.py:588 | `str(r.get(k, ""))` is `""` for a missing key and the string itself for a string |
| JsonValues.StrOrEmpty | app/utils.py:593 | `str(v or "")` is `""` for a missing or falsy value and the string itself for a string |
| JsonValues.NonBlank | app/utils.py:598-600 | the `isinstance(v, str) and v.strip()` guard passes exactly on a non-blank string, giving its stripped form |
| JsonValues.ParseInt | app/ui_main.py:894-899 | `int(s)` succeeds exactly when the stripped text is decimal digits, or a sign followed by digits, and then gives their value with the sign applied |
| JsonValues.ParseIntLetterLed | app/ui_main.py:894-899 | text that starts with a letter, such as `"True"`, is rejected by `int()` |
| JsonValues.PyIntOrZero | app/storage.py:121-122 | `int(v or 0)` is 0 for a missing or falsy value and `n` for a number `n` |
| JsonValues.ParseIntOfString | app/storage.py:121-122 | `int(str(n))` is `n` for every integer, negative ones included |
| JsonValues.ReadMetadata | app/utils.py:307-315 | a parsed index is returned as is; a missing or unreadable one reads as `{"items": []}` |
| JsonValues.ItemsOf | app/utils.py:562-564 | the items are used exactly when the document is an object whose `items` is a list; a truthy non-object raises |
| JsonValues.AsRecords | app/utils.py:585-586 | the items are records exactly when every one is an object, and then they are those objects in order |
| PurchaseImport.BreakIndex | app/utils.py:382 | the first line boundary of a text, or its end |
| PurchaseImport.SplitLines | app/utils.py:382 | `splitlines` returns lines without line boundaries |
| PurchaseImport.SplitLinesCons | app/utils.py:382 | a line followed by `\n` is split off as it is |
| PurchaseImport.SplitLinesSingle | app/utils.py:382 | a non-empty text without line boundaries is one line |
| PurchaseImport.Canonicals | app/utils.py:380-389 | the normalised URLs kept are canonical item URLs, no more than there were candidates |
| PurchaseImport.ExtractUrlsFromText | app/utils.py:380-389 | the loop keeps, in order, the canonical URL of every line that normalises |
| PurchaseImport.NormalizeAll | app/utils.py:395-400 | the loop keeps, in order, the canonical URL of every collected link that normalises |
| PurchaseImport.ExtractUrlsFromHtml | app/utils.py:392-400 | the canonical URLs of the anchors the parser collects from the page, in order |
| PurchaseImport.Dedupe | app/utils.py:470-476 | the `seen`/`uniq` loop computes the first-seen de-duplication |
| PurchaseImport.IndexKey | app/utils.py:407-414 | a key used is stripped and never `none` in any case |
| PurchaseImport.IsNoneWordIsLower | app/utils.py:410 | the test for the word `none` is `lower() == "none"` |
| PurchaseImport.NullIdIsNoKey | app/utils.py:409-413 | a record whose id is JSON null (`str(None)` is `"None"`) is not in the map |
| PurchaseImport.LoadExistingItemsMap | app/utils.py:403-415 | the map raises exactly when the index reader does, and is otherwise the map by non-empty id with a later duplicate winning |
| PurchaseImport.FilterUrlsByExistingFolders | app/utils.py:418-435 | the kept URLs are those whose id is in the map, in order, and `kept + removed` is the number of URLs |
| PurchaseImport.ImportRecord | app/utils.py:488-490 | the import record holds the id and the URL |
| PurchaseImport.ImportItems | app/utils.py:485-490 | at most one record per URL |
| PurchaseImport.CanonicalItemId | app/utils.py:43-44 | the id searched in a canonical URL is its id part |
| PurchaseImport.ImportItemsWithIds | app/utils.py:485-490 | when every URL has an id, record `k` is the record of URL `k` |
| PurchaseImport.ImportItemsOfCanonical | app/utils.py:485-490 | for canonical URLs, record `k` holds URL `k` and its id |
| PurchaseImport.BuildItems | app/utils.py:485-490 | the loop builds exactly those records |
| PurchaseImport.Finish | app/utils.py:470-501 | the shared tail de-duplicates, filters when asked, and builds one item per URL with an id |
| PurchaseImport.BuiltFromCanonical | app/utils.py:478-501 | `extracted` is the number of distinct URLs, items plus `filtered_out` make it up, and every item's URL is canonical |
| PurchaseImport.BuildFromUrlsAndHtml | app/utils.py:460-500 | the text lines' URLs come first, then the anchors', through the shared tail with source type `manual_paste` |
| PurchaseImport.FilesUsed | app/utils.py:510-518 | at most one base name per file |
| PurchaseImport.BuildFromHtmlFiles | app/utils.py:503-558 | unreadable files are skipped, the URLs of the others come file after file, with the default hint naming the first file used |
| PurchaseImport.CopyField | app/utils.py:596-612 | a field is set to the stripped import value exactly when that is a non-blank string differing from the stored value, and the change is reported |
| PurchaseImport.CopyFieldSpec | app/utils.py:596-612 | one copy touches only its key and reports exactly whether that key changed |
| PurchaseImport.MergeFieldsSpec | app/utils.py:596-615 | only `product_url`, `purchase_title` and `purchased_at` change, each only to a non-blank stripped import value, the title falling back to `official_title` only when `purchase_title` is falsy; the flag says whether any changed |
| PurchaseImport.MergeAll | app/utils.py:583-615 | the merge keeps the number of records |
| PurchaseImport.SrcMapObjects | app/utils.py:571-578 | every entry of `src_map` is a dict |
| PurchaseImport.MergeStep | app/utils.py:583-617 | one more record adds its merged form, one to `matched` when it matched, one to `updated` when it changed |
| PurchaseImport.MergeOne | app/utils.py:584-615 | the loop body resolves the id, looks it up and merges the record |
| PurchaseImport.MergeLoop | app/utils.py:583-617 | the loop returns the merged records and the `matched` and `updated` counts |
| PurchaseImport.ApplyPurchaseImport | app/utils.py:561-629 | the result of the import, including the early exits, the raises and the records written |
| PurchaseImport.UpdatedAtMostMatched | app/utils.py:583-617 | `updated <= matched` |
| PurchaseImport.TotalIsDistinctIds | app/utils.py:571-580 | `src_map` holds exactly the non-empty ids of the import items, so `total` is their number |
| PurchaseImport.ResolvedIdFrame | app/utils.py:584-588 | the id a record is matched by depends only on its `product_id` and `title` |
| PurchaseImport.MergeFieldsAgain | app/utils.py:596-615 | merging into a record already holding every merged value changes nothing |
| PurchaseImport.MergeRecordTwice | app/utils.py:583-617 | merging a record twice changes nothing the second time |
| PurchaseImport.MergeAllTwice | app/utils.py:583-629 | applying the same import again to the written records changes none, so `updated` is 0 |
| Storage.JoinPath | app/storage.py:44 | the item path starts with the root and is not empty for a non-empty name |
| Storage.JoinPathInjective | app/storage.py:44 | different names in one folder give different paths |
| Storage.PathKey | app/storage.py:34-36 | a record has a key exactly when its `path` is a non-empty string, and the key is that path |
| Storage.PrevRecords | app/storage.py:30-32 | with `diff` off, there are no previous records |
| Storage.PrevMap | app/storage.py:30-36 | `prev_map` exists exactly when the previous records can be read |
| Storage.PrevMapRaises | app/storage.py:30-36 | with `diff` off the map is empty; the scan raises exactly on a truthy index that is not an object, or on a non-object item |
| Storage.PrevMapLastWins | app/storage.py:33-36 | each entry is stored under its own non-empty path, and is the last record with that path |
| Storage.StrippedOr | app/storage.py:74-75 | a string reads as its stripped form, anything else as `""` |
| Storage.ScanListsOf | app/storage.py:77-78 | the lists the two-level scan returns are the ones stored in the record |
| Storage.WithFetch | app/storage.py:81-114 | the fetch step touches only the id, URL, official title and thumbnail |
| Storage.WithInherited | app/storage.py:116-119 | inheriting touches only the thumbnail |
| Storage.ItemBasics | app/storage.py:48-79 | title and path are the folder's, files and counts are the two-level scan's |
| Storage.ItemPurchaseSticky | app/storage.py:70-75 | `purchase_title` and `purchased_at` are the previous record's stripped strings, `""` without one or for a non-string, whatever files or fetch results there are |
| Storage.ItemThumbnail | app/storage.py:93-119 | a returned thumbnail wins; the previous record's stripped thumbnail is taken only when it stays empty |
| Storage.ItemMetaFields | app/storage.py:81-112 | with an id the record carries it and its canonical URL, overwritten only by non-blank stripped meta values; without a meta both stay as set |
| Storage.FetchFields | app/storage.py:86-114 | the fetch step alone: the cached meta is used, else the page meta, and a raised call changes nothing |
| Storage.ItemWithoutId | app/storage.py:81-114 | without an id nothing is fetched: the record does not depend on the network and has no id, URL or official title |
| Storage.CanonicalUrlStripped | app/utils.py:43-44 | the canonical URL has no surrounding whitespace |
| Storage.PageMetaFields | app/utils.py:65-70 | the fetched page's URL is the canonical one and its title the stripped `og:title` when non-blank |
| Storage.ItemFromPage | app/storage.py:104-112 | when the page meta is used, the URL stays canonical and the official title is the page's stripped non-blank `og:title` |
| Storage.DirEntries | app/storage.py:43-46 | only directory entries are kept |
| Storage.RescanOnePerDir | app/storage.py:43-124 | exactly one record per directory entry of the root listing, in listing order |
| Storage.Summary | app/storage.py:128-132 | `count` is the number of records |
| Storage.ItemRecordFields | app/storage.py:48-68 | the written record holds the path, purchase fields and thumbnail a later rescan reads |
| Storage.ItemValuesAsRecords | app/storage.py:126 | the written items all read back as records |
| Storage.WrittenIndexRead | app/storage.py:126 | reading the written index back never raises and keys every record by its path |
| Storage.RescanAt | app/storage.py:43-124 | record `k` is the record of directory `k` |
| Storage.ItemForFields | app/storage.py:48-75 | a directory's record has its path and the purchase fields of the previous record at that path |
| Storage.RecordKey | app/storage.py:33-36 | the written record of directory `j` is keyed by that directory's path |
| Storage.RescanFindsOwnRecord | app/storage.py:30-36 | a later scan finds for each folder the record the last scan wrote for it |
| Storage.RescanKeepsPurchase | app/storage.py:70-75 | purchase information survives a rescan of the same folders, whatever the network does |
| Storage.DlFolder.constructor | app/storage.py:20 | the folder holds the root, its listing and its index |
| Storage.DlFolder.LoadPrevMap | app/storage.py:30-36 | the loop builds `prev_map` |
| Storage.DlFolder.ScanDlFolder | app/storage.py:20-132 | a failure reading the index or the listing leaves the index as it was; otherwise the index is rewritten with the rescan's records and their summary is returned |
| Storage.DlFolder.ScanEntries | app/storage.py:43-124 | the loop over the listing builds exactly the rescan's records, with the archive and document totals equal to their sums |
| Storage.DlFolder.AddEntry | app/storage.py:44-47 | a directory entry appends its record and adds its counts to the totals; any other entry is skipped |
| Storage.DlFolder.ScanItem | app/storage.py:48-119 | the loop body builds the record for one folder |
| Storage.FetchStep | app/storage.py:82-114 | the `if pid:` block and the guarded fetch give the fetch step's record |
| Storage.ScanLastDlFolder | app/storage.py:135-151 | no remembered folder raises; otherwise the result is that of scanning it |
| ChangeDb.Joined | app/db.py:12-15 | the digested text is the three fields and two separators |
| ChangeDb.SameJoinedSameHash | app/db.py:12-15 | triples with the same joined text hash alike, whatever the digest function |
| ChangeDb.JoinedCollisions | app/db.py:12-15 | a `|` moved between title and URL, or a thumbnail `None` versus the text `"None"`, gives the same joined text |
| ChangeDb.UpdateFlag | app/db.py:48-52 | the flag is 0 or 1, 0 for a new id, and 1 exactly when the stored digest differs from the new one |
| ChangeDb.Upserted | app/db.py:54-67 | the table gains the id and every other row is unchanged |
| ChangeDb.Cleared | app/db.py:105-110 | only that row's `has_update` becomes 0; an unknown id changes nothing |
| ChangeDb.UpsertNew | app/db.py:48-67 | a first upsert inserts the new fields, the new digest, `now` and flag 0 |
| ChangeDb.UnchangedResetsFlag | app/db.py:48-67 | upserting the same joined text again never flags, and resets a stored 1 to 0 |
| ChangeDb.ChangedFlagsThenClear | app/db.py:51-67 | a changed digest stores flag 1; clearing resets it and keeps the digest |
| ChangeDb.ClearTwice | app/db.py:105-110 | clearing twice is clearing once |
| ChangeDb.ToBoothItem | app/db.py:94-101 | the item carries the row's id, title and URL, and `thumbnail_url` is `None` exactly when the stored value is |
| ChangeDb.RowsIn | app/db.py:72-75 | fetched row `i` is the row stored under key `i` of the scan order |
| ChangeDb.ToBoothItems | app/db.py:76-103 | one item per fetched row |
| ChangeDb.ToBoothItemsAt | app/db.py:76-103 | item `i` is built from fetched row `i` |
| ChangeDb.SelectedRows | app/db.py:72-75 | the query returns every row once, by non-increasing `last_seen_ts` |
| ChangeDb.ListedAt | app/db.py:76-103 | item `i` carries the key of row `i` and is built from that row |
| ChangeDb.ListedIds | app/db.py:76-103 | the conversion keeps the keys of the selection and builds each item from its row |
| ChangeDb.ListedItems | app/db.py:76-103 | converting the selected rows lists the table |
| ChangeDb.ListItemsLists | app/db.py:71-103 | `list_items` yields one item per row, each built from its row, newest first |
| ChangeDb.DB.constructor | app/db.py:18-36 | a new schema holds no rows |
| ChangeDb.DB.UpsertItem | app/db.py:38-69 | returns the flag and leaves the table with the replaced row |
| ChangeDb.DB.ClearUpdateFlag | app/db.py:105-110 | leaves the table with that row's flag cleared |
| ChangeDb.DB.ListItems | app/db.py:71-103 | returns the items of the selected rows |
| ChangeDb.BoothItemsOf | app/db.py:79-102 | the row loop appends one item per row, in row order |
| CardHelpers.StripInside | app/ui_main.py:544 | the stripped text is a substring of the text |
| CardHelpers.Basename | app/ui_main.py:563 | POSIX `basename` is the suffix after the last `/`: it has no `/`, and a `/` precedes it unless it is the whole path |
| CardHelpers.BasenameAfterSlash | app/ui_main.py:563 | the base name of `dir/name` is `name` when `name` has no `/` |
| CardHelpers.TitleId | app/ui_main.py:553-560 | an id found in a title is a run of at least five digits |
| CardHelpers.PathId | app/ui_main.py:562-570 | an id found in the path's base name is a run of at least five digits |
| CardHelpers.SearchInside | app/ui_main.py:549-551 | the digits a search captures occur in the searched text |
| CardHelpers.TitleIdInside | app/ui_main.py:553-560 | an id found in a title occurs in that title |
| CardHelpers.PathIdInside | app/ui_main.py:562-570 | an id found in the base name occurs in the path |
| CardHelpers.GuessProductId | app/ui_main.py:543-572 | the guessed id is `""` or a run of at least five digits |
| CardHelpers.GuessFound | app/ui_main.py:543-572 | a non-empty guess occurs in `product_id`, `product_url`, `purchase_title`, `title` or `path`, tried in that order |
| CardHelpers.GuessPrefersStoredId | app/ui_main.py:544-546 | a stored stripped id of at least five digits wins over every other field |
| CardHelpers.ShopUrlId | app/ui_main.py:548-551 | the canonical shop URL of an id yields that id as its first `/items/` run |
| CardHelpers.GuessFromShopUrl | app/ui_main.py:543-551 | without a usable stored id, a canonical shop URL gives its id |
| CardHelpers.FolderPathId | app/ui_main.py:562-566 | a path ending in a folder named `[<id>]...` yields that id |
| CardHelpers.GuessFromFolderName | app/ui_main.py:543-572 | with nothing else to go on, a folder named `[<id>]...` gives its id |
| CardHelpers.DisplayTitle | app/ui_main.py:574-581 | the title shown is never empty |
| CardHelpers.DisplayTitleChoice | app/ui_main.py:574-581 | a non-blank purchase title is shown stripped; without a truthy one the folder title is used; a blank title shows `(untitled) <id>` or `(untitled)` |
| CardHelpers.ProductUrlShape | app/ui_main.py:583-590 | a stored web URL is kept; otherwise the canonical URL of the guessed id, which carries that id; empty exactly when neither exists; never a non-web URL |
| CardHelpers.RoundHalfEven | app/ui_main.py:600 | Python's `round(a / b)`: within half of `a / b`, and even on a tie |
| CardHelpers.QuantizeBounds | app/ui_main.py:598-601 | with the 32-pixel step the size stays in `[mn, mx]`, is on the grid when the bounds are, and is within half a step of the clamped request |
| CardHelpers.QuantizeFixes | app/ui_main.py:598-601 | a size on the 32-pixel grid within the bounds is kept |
| CardHelpers.QuantizeSizes | app/ui_main.py:31-33 | with the window's bounds every size is one of 256, 288, ..., 608 |
| CardHelpers.ColumnsBounded | app/ui_main.py:1026-1030 | one to four columns, one for a width of 0 or less, four from 1200 pixels on, and never fewer for a wider window |
| CardHelpers.NavTargetMoves | app/ui_main.py:385-410 | with cards, an arrow key lands on a card: one row per vertical step, one card per horizontal step, clamped at the edges; with none, nothing is selected |
| ThumbQueues.BatchOf | app/ui_main.py:1351-1360 | a tick takes the first `min(6, len)` queued requests |
| ThumbQueues.CacheAfterContents | app/ui_main.py:1361-1366 | after a batch exactly the keys whose images load are cached with those images, and other entries are kept |
| ThumbQueues.BatchesDrain | app/ui_main.py:1351-1370 | while no visible thumbnail is missing, successive ticks load the queue in order, one to six keys each, and drain it in ceil(n / 6) ticks |
| ThumbQueues.UncachedContents | app/ui_main.py:1372-1400 | a key is requested again exactly when it is a visible thumbnail at the current size that is not cached |
| ThumbQueues.Enqueued | app/ui_main.py:1341-1346 | queueing keys in turn keeps the queue as a prefix and never shrinks it |
| ThumbQueues.EnqueuedIsFirstSeen | app/ui_main.py:1341-1346 | queueing keys in turn is the de-duplication of the queue followed by them: the queue, then each new key not yet queued once, in first-request order |
| ThumbQueues.EnqueuedContents | app/ui_main.py:1341-1346 | the re-queued list holds each key once, and exactly the old and the new keys |
| ThumbQueues.FailedVisibleRetried | app/ui_main.py:1360-1370 | a visible thumbnail whose image fails to load is queued again by the tick that tried it, so it is retried on every tick while it stays visible and keeps failing |
| ThumbQueues.TickWithoutMisses | app/ui_main.py:1360-1370 | when every visible thumbnail is cached after the batch, the tick leaves exactly the rest of the queue |
| ThumbQueues.SetDrop | app/ui_main.py:1358-1362 | without duplicates, the waiting set after a batch is the old one minus the batch |
| ThumbQueues.ThumbQueue.constructor | app/ui_main.py:86-89 | an empty queue, waiting set and cache, no timer id and no armed callback |
| ThumbQueues.ThumbQueue.QueueThumb | app/ui_main.py:1341-1349 | a waiting request is ignored; a new one joins the back, and a callback is armed when no timer id is held; the queue stays duplicate-free and equal to the waiting set |
| ThumbQueues.ThumbQueue.UpdateVisibleThumbnails | app/ui_main.py:1372-1400 | every visible thumbnail at the current size that is not cached is queued in card order, arming a callback when the queue grows and no id is held; the cache is untouched |
| ThumbQueues.ThumbQueue.ProcessQueue | app/ui_main.py:1351-1370 | the timer id is dropped; an empty queue stops there; otherwise the front batch leaves the queue, the images that load are cached, the visible thumbnails still missing are queued again, and the callbacks armed are one for the re-queue (when it grew the queue) plus one while requests remain, so two can be pending |
| ThumbQueues.ThumbQueue.TakeBatch | app/ui_main.py:1356-1359 | the `while` loop pops the batch from the front |
| ThumbQueues.ThumbQueue.LoadBatch | app/ui_main.py:1360-1366 | the `for` loop un-waits each taken request and caches its image when it loads |
| ThumbQueues.ThumbQueue.SetThumbSize | app/ui_main.py:1055-1064 | a new thumbnail size drops every pending request; the same size keeps them |
| CardPools.NewCards | app/ui_main.py:1086-1087 | `n` new cards with consecutive new handles |
| CardPools.ResizedShape | app/ui_main.py:1085-1098 | exactly `max(d, 10)` cards remain, the first ones are kept in place, and resizing again to the same size changes nothing |
| CardPools.ResizedDistinct | app/ui_main.py:1085-1098 | the pool never holds the same card twice, and new cards get handles never used |
| CardPools.CardPool.constructor | app/ui_main.py:64 | an empty pool |
| CardPools.CardPool.EnsurePoolSize | app/ui_main.py:1085-1098 | the two loops leave the resized pool and keep the pool's cards distinct |
| ItemFilters.CountTest | app/ui_main.py:844-854 | an absent count field fails the test; a numeric one passes exactly when it is positive |
| ItemFilters.FilteredIsFilter | app/ui_main.py:863-888 | the filter loop raises exactly when the test of some dict item raises, and otherwise keeps exactly the dict items that pass, in list order |
| ItemFilters.FilteredMembers | app/ui_main.py:863-888 | a record is kept exactly when it is a dict item of the list that passes both the search test and the mode test |
| ItemFilters.DictItemsMembers | app/ui_main.py:864-866 | the loop sees exactly the dict elements of the list; other elements are skipped |
| ItemFilters.SortItemsOrder | app/ui_main.py:914-928 | the sort step only permutes; when the sort completes the list is ordered by the chosen key (descending when asked) and records with equal keys keep their filtered order; an unknown entry or a key that raises leaves the order unchanged |
| ItemFilters.IndexMapPositions | app/ui_main.py:932-942 | the index holds exactly the non-empty normalised paths of the list, each mapped to the last position carrying it |
| ItemFilters.ItemBrowser.constructor | app/ui_main.py:62-68 | the window starts with no items, an empty index, no selection and ascending order |
| ItemFilters.ItemBrowser.ApplyFilters | app/ui_main.py:821-951 | a raising filter test leaves the list, index and selection as they were; otherwise the list is the sorted kept records, the index is rebuilt from it and a selection no longer listed is cleared |
| ItemFilters.ItemBrowser.RebuildIndex | app/ui_main.py:932-942 | the rebuilt index is the index of the current list and nothing else changes |
| ItemFilters.FilterItems | app/ui_main.py:863-888 | the loop reports a raise exactly when the filter raises, and otherwise returns the kept records |
| ItemFilters.FilteredRaiseSticks | app/ui_main.py:863-888 | once a test has raised, later list elements do not matter |
| WindowGlue.ScanListsNothing | app/ui_main.py:727-729 | with `_items_all` set to the counts dict `scan_dl_folder` returns, every search and filter lists nothing |
| WindowGlue.ShowScanResult | app/ui_main.py:723-731 | after a scan as written `_items_all` holds the returned dict, the list, the index and the selection are empty, and the sort direction stays as it was |
| WindowGlue.IntendedListsEveryFolder | app/storage.py:124-126 | with the records the scan writes as the item list, no search and no filter list every scanned folder in scan order |
| WindowGlue.ImportMessageShowsKeys | app/ui_main.py:796-797 | the message after an import shows the key names `total`, `matched`, `updated` in place of the counters, and is the same for every import |
| WindowGlue.IntendedMessageCounts | app/utils.py:629 | a message built from the three counters tells imports apart: equal messages mean equal counters |
| WindowGlue.ImportTextInjective | app/ui_main.py:797 | the message text determines the three digit strings put into it |
| WindowGlue.FramedInjective | app/ui_main.py:797 | digit strings placed between fixed separators that each start with a non-digit can be read back uniquely |
| WindowGlue.DigitsFront | app/ui_main.py:797 | a digit string followed by text starting with a non-digit is read back from the front |
| WindowGlue.StoredRecordHasNoCounts | app/storage.py:48-68 | no stored record has a top-level `zip_count`, `doc_count`, `source_count` or `image_count` |
| WindowGlue.CountFilterListsNothing | app/ui_main.py:844-854 | over the stored records, the ZIP, document, source and image filters list nothing, whatever the folders hold |
| WindowGlue.SortAllEqual | app/ui_main.py:914-928 | the stable sort of records that all share one key leaves them in order |
| WindowGlue.CountKeyZero | app/ui_main.py:905-912 | the ZIP, document and image sort keys of every stored record are 0 |
| WindowGlue.CountSortKeepsOrder | app/ui_main.py:905-928 | sorting stored records by a count entry leaves them in their filtered order |
| WindowGlue.IntendedCountMatchesStats | app/storage.py:61-66 | reading the count from `stats`, a stored record passes a count filter exactly when its folder holds files of that kind |

## Findings

| source | as written | input that shows it | evidently intended | confidence | as-written member | corrected member |
|---|---|---|---|---|---|---|
| app/ui_main.py:727-729 | `_items_all` is set to the dict `scan_dl_folder` returns (`count`, `archives`, `documents`); `_apply_filters` treats anything but a list as empty | a download folder with one item folder `[123] a`: the scan returns `{"count": 1, ...}` and the grid lists nothing | the list of records the scan wrote as `metadata.json`'s `items`, so every folder is listed | not executed | WindowGlue.ShowScanResult | WindowGlue.IntendedListsEveryFolder |
| app/ui_main.py:796 | `updated, matched, total = apply_purchase_import_json(...)` unpacks a three-key dict, which yields its keys `total`, `matched`, `updated` | an import that updates 2 of 3 matched records out of 5 ids shows `更新 total 件 / マッチ matched 件 / 総 updated 件` | the three counters of the result dict, rendered as numbers | not executed | WindowGlue.ImportMessageShowsKeys | WindowGlue.IntendedMessageCounts |
| app/ui_main.py:844-854 | the filters `ZIPあり`, `文書あり`, `ソースあり` and `画像あり` read top-level `zip_count`, `doc_count`, `source_count` and `image_count`, which no record written by `scan_dl_folder` holds | a folder holding `a.zip`, filter `ZIPあり`: its record has `stats.archive_count == 1` and no `zip_count`, so it is not listed | the counts under the record's `stats` | not executed | WindowGlue.CountFilterListsNothing | WindowGlue.IntendedCountMatchesStats |

The count sorts `ZIP数`, `文書数` and `画像数` (app/ui_main.py:905-912) read the same missing keys. `WindowGlue.CountSortKeepsOrder` shows that over stored records they leave the filtered order unchanged.

Every other module follows the code as written. In particular `ItemFilters` keeps the key names the window reads.

## Left out

- Network access goes through `requests`, with its sessions, headers and time-outs. The model replaces it with page and download outcome parameters. `app/update_checker.py` is not part of this model.
- Filesystem and JSON I/O are outcome parameters and abstract state. This covers:
  - `os.listdir`, `os.scandir`, `os.makedirs` and `os.remove`;
  - `open`, `json.load`, `json.dump`;
  - the bytes of `read_metadata_json`, `write_metadata_json` and `_write_purchase_json`.

  The index the model writes is exactly the record list, not its JSON text. In the thumbnail cache, whether `os.remove`, the image write and the `meta.json` write succeed is a parameter; a failed write is taken to leave its file as it was, not half-written.
- `generated_at` in `purchase_import.json` is left out, because it is a clock reading formatted as ISO text.
- `html.parser` tokenisation is not modelled. The parsers run over the start-tag, end-tag and data events the tokeniser would report.
- The SHA-256 of `compute_hash` is a digest function parameter. SQLite is an in-memory map keyed by `item_id`. For `list_items`, the order among rows with equal `last_seen_ts` is a parameter, as SQL leaves it open. `BoothItem.updated_at` is carried as the raw `last_seen_ts`. The model leaves out two things from app/db.py:86-92: its `utcfromtimestamp(...).isoformat() + "Z"` text, and the `None` given for a non-numeric or out-of-range stamp.
- Clocks are integer seconds passed in. These are `time.time`, `datetime.utcnow` and `fromisoformat`. Time zones and ISO formatting are not modelled.
- ThumbnailCache.ThumbCache.FetchAndCache: a hand-edited `fetched_at` with a UTC offset parses to an aware datetime. `_is_fresh` then subtracts it from the naive `utcnow()` outside any `try` (app/utils.py:146-149). The `TypeError` this raises leaves `fetch_and_cache_thumbnail`. The model's `fromIso` gives plain seconds, so it does not model this raise.
- `os.path.normpath` is a parameter. `os.path.join` and `os.path.basename` are modelled with the POSIX separator `/` only.
- `str.lower` is modelled on ASCII letters only. Regular-expression `\d` is modelled as the ASCII digits. `int()` is modelled on optionally signed ASCII decimal text: underscores between digits and Unicode digits are not modelled.
- JSON numbers are integers; floats in the JSON files are not modelled. `str()` of a list or dict, as it could reach a title or path field, is a marker starting with `[` or `{`, not Python's full rendering.
- The Tk user interface is not modelled. This covers:
  - widgets, canvas drawing and scroll geometry;
  - `_ensure_index_visible` and the floating-point part of `_relayout_cards`;
  - the label updates of `_update_visible_thumbnails_only`, whose choice of visible cards (a dict item with a path and a non-blank `thumbnail`) arrives as the list of thumbnail paths;
  - the summary label, saving the UI state, the clipboard and the context menus;
  - the `threading` worker of `scan_folder`.

  The thumbnail timer is whether `_thumb_after_id` holds an id and how many `after` callbacks are armed and not yet run; Tk's scheduling of them is not modelled. `_get_tk_image` is an image-loading oracle.
- The `_sort_desc` toggle is not modelled. The browser takes the current sort direction as part of its state.
- `app/settings.py`, `app/models.py`, `app/about_dialog.py`, `app/agreement_dialog.py`, `app/logger.py` and `app/__main__.py` are not part of this model. Only the field list of `BoothItem` from `app/models.py` is used, as the record `list_items` returns.
- CardHelpers.QuantizeBounds: the round-half-to-even step is proved for the 32-pixel step the window uses, not for every step, because the general statement needs nonlinear arithmetic the solver does not close.
- CardHelpers.QuantizePx: `round(px / step)` goes through a float division in the code. The model rounds the exact integer quotient half to even, which agrees with the float result while `px` and `step` stay far below 2^53.
