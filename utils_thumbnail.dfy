/** `fetch_and_cache_thumbnail` (app/utils.py): the per-item cache in
    `.thumbnail_cache/` holding at most one `booth.<ext>` image and a
    `meta.json` record, refreshed from the public item page under a TTL. The
    page fetch, the image download, the clock and `datetime.fromisoformat`
    arrive as parameters. */
module ThumbnailCache {
  import opened Text
  import opened JsonValues
  import opened ItemIds
  import opened HtmlParsers

  datatype ImgExt = Png | Jpg | Jpeg | Webp

  function ExtText(e: ImgExt): string {
    match e
    case Png => ".png"
    case Jpg => ".jpg"
    case Jpeg => ".jpeg"
    case Webp => ".webp"
  }

  /** The order in which cached images are looked for and URL suffixes tried. */
  const ExtOrder: seq<ImgExt> := [Png, Jpg, Jpeg, Webp]

  function Rank(e: ImgExt): nat
    ensures Rank(e) < |ExtOrder| && ExtOrder[Rank(e)] == e
  {
    match e
    case Png => 0
    case Jpg => 1
    case Jpeg => 2
    case Webp => 3
  }

  /** The path `fetch_and_cache_thumbnail` reports, relative to the item folder. */
  function RelPath(e: ImgExt): string {
    ".thumbnail_cache/booth" + ExtText(e)
  }

  lemma RelPathInjective(e1: ImgExt, e2: ImgExt)
    ensures RelPath(e1) == RelPath(e2) ==> e1 == e2
  {
    var p := ".thumbnail_cache/booth";
    if RelPath(e1) == RelPath(e2) {
      assert |ExtText(e1)| == |ExtText(e2)|;
      assert ExtText(e1) == RelPath(e1)[|p|..];
      assert ExtText(e2) == RelPath(e2)[|p|..];
      assert ExtText(e1)[1] == ExtText(e2)[1];
    }
  }

  /** The first image of the scan order present in the cache. */
  function FirstPresent(present: set<ImgExt>): (r: Option<ImgExt>)
    ensures r.None? <==> present == {}
    ensures r.Some? ==> r.value in present && forall e :: e in present ==> Rank(r.value) <= Rank(e)
  {
    if Png in present then Some(Png)
    else if Jpg in present then Some(Jpg)
    else if Jpeg in present then Some(Jpeg)
    else if Webp in present then Some(Webp)
    else
      assert forall e | e in present :: e == Png || e == Jpg || e == Jpeg || e == Webp;
      None
  }

  /** What `meta.json` holds; only an object becomes `existing_meta`. */
  datatype MetaFile = NoMetaFile | MetaUnreadable | MetaJson(doc: Value)

  function ExistingMeta(f: MetaFile): Option<Record> {
    if f.MetaJson? && f.doc.Obj? then Some(f.doc.fields) else None
  }

  /** `_parse_utc_iso`: a non-blank string, stripped and without a trailing
      "Z", handed to `datetime.fromisoformat` (the parameter `fromIso`, which
      gives whole seconds). */
  function ParseUtcIso(v: Option<Value>, fromIso: string -> Option<int>): (r: Option<int>)
    ensures NonBlank(v).None? ==> r.None?
  {
    match NonBlank(v)
    case None => None
    case Some(ss) => fromIso(if EndsWith(ss, "Z") then ss[..|ss| - 1] else ss)
  }

  /** `_is_fresh`. */
  predicate IsFresh(meta: Option<Record>, force: bool, ttl: int, now: int, fromIso: string -> Option<int>) {
    !force && ttl > 0 && meta.Some?
    && var t := ParseUtcIso(Get(meta.value, "fetched_at"), fromIso);
       t.Some? && now - t.value < ttl
  }

  /** The `meta.json` record written after a refresh; `stamp` is the
      `isoformat()` of the current UTC time, written with a "Z" appended. */
  function MetaOut(pid: string, page: Record, ogImageUrl: string, imageRel: string, stamp: string): Record {
    map[
      "product_id" := Str(pid),
      "product_url" := Get(page, "product_url").GetOr(Str("")),
      "official_title" := Get(page, "official_title").GetOr(Str("")),
      "og_image_url" := Str(ogImageUrl),
      "image_rel" := Str(imageRel),
      "fetched_at" := Str(stamp + "Z")
    ]
  }

  /** The written record has exactly the six keys, holding the id, the
      image URL, the image path and the stamp with its "Z". */
  lemma MetaOutFields(pid: string, page: Record, ogImageUrl: string, imageRel: string, stamp: string)
    ensures var m := MetaOut(pid, page, ogImageUrl, imageRel, stamp);
      && m.Keys == {"product_id", "product_url", "official_title", "og_image_url", "image_rel", "fetched_at"}
      && m["product_id"] == Str(pid) && m["og_image_url"] == Str(ogImageUrl)
      && m["image_rel"] == Str(imageRel) && m["fetched_at"] == Str(stamp + "Z")
  {
  }

  /** A record written at time `now` is fresh exactly while less than `ttl`
      seconds have passed, when not forced and `ttl` is positive. */
  lemma FreshAfterRefresh(pid: string, page: Record, og: string, rel: string, stamp: string,
                          now: int, later: int, ttl: int, fromIso: string -> Option<int>)
    requires IsStripped(stamp) && stamp != [] && fromIso(stamp) == Some(now)
    ensures IsFresh(Some(MetaOut(pid, page, og, rel, stamp)), false, ttl, later, fromIso) <==> ttl > 0 && later - now < ttl
    ensures !IsFresh(Some(MetaOut(pid, page, og, rel, stamp)), true, ttl, later, fromIso)
  {
    MetaOutFields(pid, page, og, rel, stamp);
    var s := stamp + "Z";
    assert IsStripped(s) by { assert s[0] == stamp[0] && s[|s| - 1] == 'Z'; }
    assert EndsWith(s, "Z");
    assert s[..|s| - 1] == stamp;
  }

  /** The extension picked for a downloaded image: the first of the scan
      order that ends the lower-cased URL, else the first content-type hint,
      else ".jpg"; ".jpeg" is then written as ".jpg". */
  function ChooseExt(url: string, contentType: string): (e: ImgExt)
    ensures e != Jpeg
    ensures EndsWith(Lower(url), ".png") ==> e == Png
    ensures !EndsWith(Lower(url), ".png") && (EndsWith(Lower(url), ".jpg") || EndsWith(Lower(url), ".jpeg")) ==> e == Jpg
    ensures EndsWith(Lower(url), ".webp") ==> e == Webp
  {
    var u := Lower(url);
    var fromUrl :=
      if EndsWith(u, ".png") then Some(Png)
      else if EndsWith(u, ".jpg") then Some(Jpg)
      else if EndsWith(u, ".jpeg") then Some(Jpeg)
      else if EndsWith(u, ".webp") then Some(Webp)
      else None;
    var c := Lower(contentType);
    var chosen :=
      if fromUrl.Some? then fromUrl.value
      else if Contains(c, "png") then Png
      else if Contains(c, "jpeg") || Contains(c, "jpg") then Jpg
      else if Contains(c, "webp") then Webp
      else Jpg;
    assert EndsWith(u, ".webp") ==> !EndsWith(u, ".png") && !EndsWith(u, ".jpg") && !EndsWith(u, ".jpeg") by {
      if EndsWith(u, ".webp") {
        assert u[|u| - 1] == 'p';
        assert u[|u| - 2] == 'b';
      }
    }
    if chosen == Jpeg then Jpg else chosen
  }

  /** When the URL ends with no known suffix, the content type decides. */
  lemma ChooseExtByContentType(url: string, contentType: string)
    requires forall e :: e in ExtOrder ==> !EndsWith(Lower(url), ExtText(e))
    ensures Contains(Lower(contentType), "png") ==> ChooseExt(url, contentType) == Png
    ensures !Contains(Lower(contentType), "png") && (Contains(Lower(contentType), "jpeg") || Contains(Lower(contentType), "jpg"))
            ==> ChooseExt(url, contentType) == Jpg
    ensures !Contains(Lower(contentType), "png") && !Contains(Lower(contentType), "jpeg") && !Contains(Lower(contentType), "jpg")
            ==> ChooseExt(url, contentType) == (if Contains(Lower(contentType), "webp") then Webp else Jpg)
  {
    assert Png in ExtOrder && Jpg in ExtOrder && Jpeg in ExtOrder && Webp in ExtOrder;
  }

  type Bytes = seq<bv8>

  /** The image GET: a failure (network error or HTTP error status), or the
      body and the `Content-Type` header ("" when absent). */
  datatype DownloadOutcome = DownloadFailed | Downloaded(content: Bytes, contentType: string)

  /** Whether each filesystem write of a refresh would succeed: the removal
      of an image saved under another extension, the image write, and the
      `meta.json` write (of whichever branch writes it). A failed write
      leaves its file as it was. */
  datatype WriteOutcomes = WriteOutcomes(removeOk: bool, imageOk: bool, metaOk: bool)

  /** The path reported for the image found before the refresh. */
  function ExistingRel(ex: Option<ImgExt>): (r: Option<string>)
    ensures r.Some? <==> ex.Some?
  {
    if ex.Some? then Some(RelPath(ex.value)) else None
  }

  /** `meta.json` after an attempt to write `rec` into it. */
  function MetaAfterWrite(f: MetaFile, ok: bool, rec: Record): MetaFile {
    if ok then MetaJson(Obj(rec)) else f
  }

  /** The images after the attempt to remove a previously found image of
      another extension. */
  function Removed(images: map<ImgExt, Bytes>, existing: Option<ImgExt>, e: ImgExt, removeOk: bool): map<ImgExt, Bytes> {
    if existing.Some? && existing.value != e && removeOk then images - {existing.value} else images
  }

  /** The cache's images after a download saved as `e`: the new image is
      stored, a different previously found image is gone when its removal
      succeeded and kept when it failed, and nothing else changes. */
  function ReplaceImage(images: map<ImgExt, Bytes>, existing: Option<ImgExt>, e: ImgExt, content: Bytes, removeOk: bool): (r: map<ImgExt, Bytes>)
    ensures e in r && r[e] == content
    ensures existing.Some? && existing.value != e && removeOk ==> existing.value !in r
    ensures forall x :: x in r && x != e ==> x in images && r[x] == images[x]
    ensures forall x :: x in images && x != e && !(removeOk && existing == Some(x)) ==> x in r
  {
    Removed(images, existing, e, removeOk)[e := content]
  }

  /** A cache that held at most one image holds exactly the new one when
      the removal succeeds. */
  lemma ReplaceKeepsOne(images: map<ImgExt, Bytes>, e: ImgExt, content: Bytes)
    requires |images.Keys| <= 1
    ensures ReplaceImage(images, FirstPresent(images.Keys), e, content, true).Keys == {e}
  {
    var f := FirstPresent(images.Keys);
    if f.Some? {
      assert |images.Keys - {f.value}| == |images.Keys| - 1;
      assert images.Keys == {f.value} by {
        assert images.Keys - {f.value} == {};
      }
    }
  }

  /** When the removal fails, the old image of another extension stays
      beside the new one. */
  lemma FailedRemoveKeepsBoth(x: ImgExt, old0: Bytes, e: ImgExt, content: Bytes)
    requires x != e
    ensures ReplaceImage(map[x := old0], Some(x), e, content, false).Keys == {x, e}
  {
    var r := ReplaceImage(map[x := old0], Some(x), e, content, false);
    assert x in r;
  }

  /** The shape of the meta `fetch_public_item_meta` returns: an
      og:image URL, when present, is a non-empty string. */
  predicate OgShaped(pm: Record) {
    "og_image_url" in pm ==> pm["og_image_url"].Str? && pm["og_image_url"].s != []
  }

  /** The outcome of a refresh after the page meta `pm` was fetched, from
      the images and `meta.json` before (`im0`, `mf0`) to those after
      (`im`, `mf`) and the returned path and meta. */
  ghost predicate Refreshed(im0: map<ImgExt, Bytes>, mf0: MetaFile, im: map<ImgExt, Bytes>, mf: MetaFile,
                            rel: Option<string>, meta: Option<Record>,
                            pid: string, pm: Record, ex: Option<ImgExt>, em: Option<Record>,
                            download: DownloadOutcome, w: WriteOutcomes, force: bool, stamp: string)
    requires OgShaped(pm)
  {
    var og := Get(pm, "og_image_url");
    // no og:image: record the page and keep whatever image there is
    (og.None? ==>
       rel == ExistingRel(ex) && meta == Some(pm) && im == im0
       && mf == MetaAfterWrite(mf0, w.metaOk, MetaOut(pid, pm, "", if ex.Some? then RelPath(ex.value) else "", stamp)))
    // same og:image as last time: no download
    && (og.Some? && !force && ex.Some? && em.Some?
        && Strip(StrOrEmpty(em.value, "og_image_url")) == Strip(og.value.s) ==>
       var out := MetaOut(pid, pm, og.value.s, RelPath(ex.value), stamp);
       im == im0 && mf == MetaAfterWrite(mf0, w.metaOk, out) && rel == ExistingRel(ex) && meta == Some(out))
    // otherwise the image is downloaded
    && (og.Some? && !(!force && ex.Some? && em.Some? && Strip(StrOrEmpty(em.value, "og_image_url")) == Strip(og.value.s)) ==>
       (download.DownloadFailed? ==> im == im0 && mf == mf0 && rel == ExistingRel(ex) && meta == Some(pm))
       && (download.Downloaded? ==>
          var e := ChooseExt(og.value.s, download.contentType);
          var out := MetaOut(pid, pm, og.value.s, RelPath(e), stamp);
          (!w.imageOk ==> im == Removed(im0, ex, e, w.removeOk) && mf == mf0 && rel == ExistingRel(ex) && meta == Some(pm))
          && (w.imageOk ==> im == ReplaceImage(im0, ex, e, download.content, w.removeOk))
          && (w.imageOk && !w.metaOk ==> mf == mf0 && rel == ExistingRel(ex) && meta == Some(pm))
          && (w.imageOk && w.metaOk ==> mf == MetaJson(Obj(out)) && rel == Some(RelPath(e)) && meta == Some(out))))
  }

  /** The per-item cache directory. */
  class ThumbCache {
    var images: map<ImgExt, Bytes>
    var metaFile: MetaFile

    constructor(images0: map<ImgExt, Bytes>, meta0: MetaFile)
      ensures images == images0 && metaFile == meta0
    {
      images := images0;
      metaFile := meta0;
    }

    /** The scan for an existing `booth.<ext>`, in scan order. */
    method FindExisting() returns (found: Option<ImgExt>)
      ensures found == FirstPresent(images.Keys)
    {
      var k := 0;
      found := None;
      while k < |ExtOrder|
        invariant 0 <= k <= |ExtOrder|
        invariant found.None? ==> forall j :: 0 <= j < k ==> ExtOrder[j] !in images
        invariant found.Some? ==> found == FirstPresent(images.Keys)
      {
        if ExtOrder[k] in images {
          found := Some(ExtOrder[k]);
          assert forall e :: e in images.Keys ==> Rank(e) >= k by {
            forall e | e in images.Keys ensures Rank(e) >= k {
              assert ExtOrder[Rank(e)] == e;
            }
          }
          return;
        }
        k := k + 1;
      }
      assert forall e: ImgExt :: e !in images by {
        forall e: ImgExt ensures e !in images { assert ExtOrder[Rank(e)] == e; }
      }
    }

    /** `fetch_and_cache_thumbnail` for the item folder `folderName`.
        `page` and `download` are what the two GETs would return, `w` which
        file writes would succeed, `now` and `stamp` the current UTC time in
        seconds and as ISO text, `fromIso` the parser of ISO text. */
    method FetchAndCache(folderName: string, page: PageOutcome, download: DownloadOutcome, w: WriteOutcomes,
                         ttl: int, force: bool, now: int, stamp: string, fromIso: string -> Option<int>)
      returns (rel: Option<string>, meta: Option<Record>)
      modifies this
      // no id in the folder name: nothing is done
      ensures ExtractProductId(folderName).None? ==>
        rel.None? && meta.None? && images == old(images) && metaFile == old(metaFile)
      ensures ExtractProductId(folderName).Some? ==>
        var pid := ExtractProductId(folderName).value;
        var ex := FirstPresent(old(images).Keys);
        var em := ExistingMeta(old(metaFile));
        // fast path: an image and a fresh meta are reused untouched
        (ex.Some? && IsFresh(em, force, ttl, now, fromIso) ==>
          rel == ExistingRel(ex) && meta == em && images == old(images) && metaFile == old(metaFile))
        && (!(ex.Some? && IsFresh(em, force, ttl, now, fromIso)) ==>
          // page fetch failed: fall back to the cache, or to nothing
          (page.PageFailed? ==>
             images == old(images) && metaFile == old(metaFile)
             && rel == ExistingRel(ex) && meta == (if ex.Some? then em else None))
          && (page.PageOk? ==>
             Refreshed(old(images), old(metaFile), images, metaFile, rel, meta,
                       pid, PageMeta(pid, OgRun(OgInit, page.events)), ex, em, download, w, force, stamp)))
    {
      var pidOpt := ExtractProductId(folderName);
      if pidOpt.None? {
        return None, None;
      }
      var pid := pidOpt.value;
      var ex := FindExisting();
      var em := ExistingMeta(metaFile);
      if ex.Some? && IsFresh(em, force, ttl, now, fromIso) {
        return ExistingRel(ex), em;
      }
      var fetched := FetchPublicItemMeta(pid, page);
      if fetched.None? {
        if ex.Some? {
          return ExistingRel(ex), em;
        }
        return None, None;
      }
      rel, meta := Refresh(pid, fetched.value, ex, em, download, w, force, stamp);
    }

    /** Everything after a successful page fetch: `meta.json` records the
        page (its write may fail), then the image is kept, or downloaded and
        saved, depending on the page's og:image. */
    method Refresh(pid: string, pm: Record, ex: Option<ImgExt>, em: Option<Record>,
                   download: DownloadOutcome, w: WriteOutcomes, force: bool, stamp: string)
      returns (rel: Option<string>, meta: Option<Record>)
      requires OgShaped(pm)
      modifies this
      ensures Refreshed(old(images), old(metaFile), images, metaFile, rel, meta, pid, pm, ex, em, download, w, force, stamp)
    {
      var og := Get(pm, "og_image_url");
      if og.None? {
        var out := MetaOut(pid, pm, "", if ex.Some? then RelPath(ex.value) else "", stamp);
        if w.metaOk {
          metaFile := MetaJson(Obj(out));
        }
        return ExistingRel(ex), Some(pm);
      }
      var ogUrl := og.value.s;
      if !force && ex.Some? && em.Some? && Strip(StrOrEmpty(em.value, "og_image_url")) == Strip(ogUrl) {
        var out := MetaOut(pid, pm, ogUrl, RelPath(ex.value), stamp);
        if w.metaOk {
          metaFile := MetaJson(Obj(out));
        }
        return ExistingRel(ex), Some(out);
      }
      rel, meta := Download(pid, pm, ogUrl, ex, download, w, stamp);
    }

    /** The `try` block of the download. A failed GET keeps the cache and
        returns the page meta. Otherwise a previously found image of another
        extension is removed (a failed removal is ignored), the image is
        written, then `meta.json`; a failure of either write falls back to
        the previously found path and the page meta, with the files as far
        as the writes got. */
    method Download(pid: string, pm: Record, ogUrl: string, ex: Option<ImgExt>, download: DownloadOutcome,
                    w: WriteOutcomes, stamp: string)
      returns (rel: Option<string>, meta: Option<Record>)
      modifies this
      ensures download.DownloadFailed? ==>
        images == old(images) && metaFile == old(metaFile) && rel == ExistingRel(ex) && meta == Some(pm)
      ensures download.Downloaded? ==>
        var e := ChooseExt(ogUrl, download.contentType);
        var out := MetaOut(pid, pm, ogUrl, RelPath(e), stamp);
        (!w.imageOk ==>
           images == Removed(old(images), ex, e, w.removeOk) && metaFile == old(metaFile)
           && rel == ExistingRel(ex) && meta == Some(pm))
        && (w.imageOk ==> images == ReplaceImage(old(images), ex, e, download.content, w.removeOk))
        && (w.imageOk && !w.metaOk ==> metaFile == old(metaFile) && rel == ExistingRel(ex) && meta == Some(pm))
        && (w.imageOk && w.metaOk ==> metaFile == MetaJson(Obj(out)) && rel == Some(RelPath(e)) && meta == Some(out))
      // the fallback after a removal and a failed image write names a file that is gone
      ensures download.Downloaded? && ex.Some? && ex.value != ChooseExt(ogUrl, download.contentType)
              && w.removeOk && !w.imageOk ==>
        rel == Some(RelPath(ex.value)) && ex.value !in images
    {
      if download.DownloadFailed? {
        return ExistingRel(ex), Some(pm);
      }
      var e := ChooseExt(ogUrl, download.contentType);
      if ex.Some? && ex.value != e && w.removeOk {
        images := images - {ex.value};
      }
      if !w.imageOk {
        return ExistingRel(ex), Some(pm);
      }
      images := images[e := download.content];
      var out := MetaOut(pid, pm, ogUrl, RelPath(e), stamp);
      if !w.metaOk {
        return ExistingRel(ex), Some(pm);
      }
      metaFile := MetaJson(Obj(out));
      return Some(RelPath(e)), Some(out);
    }
  }
}
