/** The two `html.parser.HTMLParser` subclasses of app/utils.py, driven by the
    start-tag, end-tag and data events the tokeniser reports (tag and
    attribute names arrive lower-cased, as `HTMLParser` delivers them), and
    `fetch_public_item_meta`, which feeds a fetched item page to one of them. */
module HtmlParsers {
  import opened Text
  import opened JsonValues
  import opened ItemIds

  /** An attribute is a name with an optional value (`<a download>` has none). */
  type Attr = (string, Option<string>)

  datatype Event =
    | StartTag(tag: string, attrs: seq<Attr>)
    | EndTag(tag: string)
    | Data(text: string)

  /** `dict(attrs).get(name)`: the value of the last attribute of that name;
      the inner `None` is Python's `None` for a value-less attribute. */
  function AttrGet(attrs: seq<Attr>, name: string): (r: Option<Option<string>>)
    ensures r.None? <==> forall i :: 0 <= i < |attrs| ==> attrs[i].0 != name
    ensures r.Some? ==> exists i :: 0 <= i < |attrs| && attrs[i].0 == name && attrs[i].1 == r.value
                                    && forall j :: i < j < |attrs| ==> attrs[j].0 != name
  {
    if attrs == [] then None
    else if attrs[|attrs| - 1].0 == name then Some(attrs[|attrs| - 1].1)
    else AttrGet(attrs[..|attrs| - 1], name)
  }

  /** An attribute value seen as a Python `Optional[str]`: absent and
      value-less are both `None`. */
  function AttrValue(attrs: seq<Attr>, name: string): Option<string> {
    match AttrGet(attrs, name)
    case Some(Some(v)) => Some(v)
    case _ => None
  }

  // ---------------------------------------------------------------------
  // PurchaseHTMLParser
  // ---------------------------------------------------------------------

  /** `attr.get("href", "")`, with Python's `None` for a value-less href
      treated as falsy like "". */
  function Href(attrs: seq<Attr>): string {
    AttrValue(attrs, "href").GetOr("")
  }

  /** The parser's fields `urls`, `_in_a`, `_href`. */
  datatype AnchorState = AnchorState(urls: seq<string>, inA: bool, href: string)

  const AnchorInit := AnchorState([], false, "")

  /** What a data event adds while inside an anchor with this href. */
  function DataUrls(inA: bool, href: string): seq<string> {
    if inA && href != [] && Contains(Strip(href), "/items/") then [Strip(href)] else []
  }

  /** One event, as the three handlers treat it. */
  function AnchorStep(st: AnchorState, e: Event): AnchorState {
    match e
    case StartTag(tag, attrs) =>
      if tag == "a" && Href(attrs) != [] then AnchorState(st.urls, true, Href(attrs)) else st
    case EndTag(tag) =>
      if tag == "a" then AnchorState(st.urls, false, "") else st
    case Data(_) =>
      AnchorState(st.urls + DataUrls(st.inA, st.href), st.inA, st.href)
  }

  /** `feed`: the events in order. */
  function AnchorRun(st: AnchorState, es: seq<Event>): AnchorState {
    if es == [] then st else AnchorStep(AnchorRun(st, es[..|es| - 1]), es[|es| - 1])
  }

  lemma {:induction false} AnchorRunAppend(st: AnchorState, a: seq<Event>, b: seq<Event>)
    ensures AnchorRun(st, a + b) == AnchorRun(AnchorRun(st, a), b)
    decreases |b|
  {
    if b == [] {
      assert a + b == a;
    } else {
      assert (a + b)[..|a + b| - 1] == a + b[..|b| - 1];
      AnchorRunAppend(st, a, b[..|b| - 1]);
    }
  }

  /** Every collected URL is stripped and contains "/items/". */
  predicate UrlsWellFormed(urls: seq<string>) {
    forall i :: 0 <= i < |urls| ==> IsStripped(urls[i]) && Contains(urls[i], "/items/")
  }

  lemma {:induction false} AnchorRunWellFormed(st: AnchorState, es: seq<Event>)
    requires UrlsWellFormed(st.urls)
    ensures UrlsWellFormed(AnchorRun(st, es).urls)
    decreases |es|
  {
    if es != [] {
      AnchorRunWellFormed(st, es[..|es| - 1]);
    }
  }

  /** No event of `mid` is an `a` tag. */
  predicate NoAnchorTags(mid: seq<Event>) {
    forall i :: 0 <= i < |mid| ==> !(mid[i].StartTag? && mid[i].tag == "a") && !(mid[i].EndTag? && mid[i].tag == "a")
  }

  function DataCount(es: seq<Event>): (n: nat)
    ensures n <= |es|
  {
    if es == [] then 0 else DataCount(es[..|es| - 1]) + (if es[|es| - 1].Data? then 1 else 0)
  }

  function Repeat(x: string, n: nat): (r: seq<string>)
    ensures |r| == n && forall i :: 0 <= i < n ==> r[i] == x
  {
    if n == 0 then [] else Repeat(x, n - 1) + [x]
  }

  /** Between the tags of an open anchor, each data event adds the stripped
      href once (when it names an item) and nothing else changes. */
  lemma {:induction false} AnchorInside(st: AnchorState, mid: seq<Event>)
    requires st.inA && st.href != []
    requires NoAnchorTags(mid)
    ensures AnchorRun(st, mid) ==
      AnchorState(st.urls + (if Contains(Strip(st.href), "/items/") then Repeat(Strip(st.href), DataCount(mid)) else []),
                  true, st.href)
    decreases |mid|
  {
    if mid != [] {
      AnchorInside(st, mid[..|mid| - 1]);
      var e := mid[|mid| - 1];
      assert !(e.StartTag? && e.tag == "a") && !(e.EndTag? && e.tag == "a");
      if Contains(Strip(st.href), "/items/") && e.Data? {
        var k := DataCount(mid[..|mid| - 1]);
        assert Repeat(Strip(st.href), k + 1) == Repeat(Strip(st.href), k) + [Strip(st.href)];
      }
    }
  }

  /** Outside every anchor, events that open none add nothing. */
  lemma {:induction false} AnchorOutside(st: AnchorState, mid: seq<Event>)
    requires !st.inA
    requires forall i :: 0 <= i < |mid| ==> !(mid[i].StartTag? && mid[i].tag == "a")
    ensures AnchorRun(st, mid).urls == st.urls && !AnchorRun(st, mid).inA
    decreases |mid|
  {
    if mid != [] {
      AnchorOutside(st, mid[..|mid| - 1]);
    }
  }

  /** A whole anchor: `<a href=h>`, then events without `a` tags, then `</a>`
      appends one stripped `h` per data event when `h` names an item, and
      leaves the parser outside any anchor. */
  lemma AnchorBlock(st: AnchorState, attrs: seq<Attr>, mid: seq<Event>)
    requires Href(attrs) != []
    requires NoAnchorTags(mid)
    ensures var h := Strip(Href(attrs));
      AnchorRun(st, [StartTag("a", attrs)] + mid + [EndTag("a")]) ==
      AnchorState(st.urls + (if Contains(h, "/items/") then Repeat(h, DataCount(mid)) else []), false, "")
  {
    var open := AnchorStep(st, StartTag("a", attrs));
    assert AnchorRun(st, [StartTag("a", attrs)]) == open by {
      assert [StartTag("a", attrs)][..0] == [];
    }
    AnchorRunAppend(st, [StartTag("a", attrs)], mid);
    AnchorInside(open, mid);
    AnchorRunAppend(st, [StartTag("a", attrs)] + mid, [EndTag("a")]);
    assert AnchorRun(AnchorRun(st, [StartTag("a", attrs)] + mid), [EndTag("a")])
        == AnchorStep(AnchorRun(st, [StartTag("a", attrs)] + mid), EndTag("a")) by {
      assert [EndTag("a")][..0] == [];
    }
  }

  /** An anchor with no data events contributes nothing. */
  lemma AnchorWithoutData(st: AnchorState, attrs: seq<Attr>, mid: seq<Event>)
    requires Href(attrs) != []
    requires NoAnchorTags(mid) && DataCount(mid) == 0
    ensures AnchorRun(st, [StartTag("a", attrs)] + mid + [EndTag("a")]).urls == st.urls
  {
    AnchorBlock(st, attrs, mid);
  }

  /** `PurchaseHTMLParser`. */
  class PurchaseHtmlParser {
    var urls: seq<string>
    var inA: bool
    var href: string

    function State(): AnchorState
      reads this
    {
      AnchorState(urls, inA, href)
    }

    constructor()
      ensures State() == AnchorInit
    {
      urls := [];
      inA := false;
      href := "";
    }

    /** Only an `a` with a non-empty href opens an anchor; any other start
        tag, and an `a` without href, leaves the state alone. */
    method HandleStartTag(tag: string, attrs: seq<Attr>)
      modifies this
      ensures tag == "a" && Href(attrs) != [] ==> inA && href == Href(attrs)
      ensures !(tag == "a" && Href(attrs) != []) ==> inA == old(inA) && href == old(href)
      ensures urls == old(urls)
      ensures State() == AnchorStep(old(State()), StartTag(tag, attrs))
    {
      if tag == "a" {
        var h := Href(attrs);
        if h != [] {
          inA := true;
          href := h;
        }
      }
    }

    /** A closing `a` resets the state. */
    method HandleEndTag(tag: string)
      modifies this
      ensures tag == "a" ==> !inA && href == ""
      ensures tag != "a" ==> inA == old(inA) && href == old(href)
      ensures urls == old(urls)
      ensures State() == AnchorStep(old(State()), EndTag(tag))
    {
      if tag == "a" {
        inA := false;
        href := "";
      }
    }

    method HandleData(data: string)
      modifies this
      ensures urls == old(urls) + DataUrls(old(inA), old(href))
      ensures inA == old(inA) && href == old(href)
      ensures State() == AnchorStep(old(State()), Data(data))
    {
      if !inA {
        return;
      }
      if href == [] {
        return;
      }
      var h := Strip(href);
      if Contains(h, "/items/") {
        urls := urls + [h];
      }
    }

    method Feed(events: seq<Event>)
      modifies this
      ensures State() == AnchorRun(old(State()), events)
    {
      var i := 0;
      while i < |events|
        invariant 0 <= i <= |events|
        invariant State() == AnchorRun(old(State()), events[..i])
      {
        assert events[..i + 1][..i] == events[..i];
        match events[i] {
          case StartTag(tag, attrs) => HandleStartTag(tag, attrs);
          case EndTag(tag) => HandleEndTag(tag);
          case Data(text) => HandleData(text);
        }
        i := i + 1;
      }
      assert events[..i] == events;
    }
  }

  // ---------------------------------------------------------------------
  // BoothMetaParser and fetch_public_item_meta
  // ---------------------------------------------------------------------

  /** The parser's fields `og_image`, `og_title`. */
  datatype OgState = OgState(ogImage: Option<string>, ogTitle: Option<string>)

  const OgInit := OgState(None, None)

  /** A `<meta>` start tag whose `property` is `prop`. */
  predicate IsMetaProp(e: Event, prop: string) {
    e.StartTag? && e.tag == "meta" && AttrGet(e.attrs, "property") == Some(Some(prop))
  }

  function OgStep(st: OgState, e: Event): OgState {
    if IsMetaProp(e, "og:image") then OgState(AttrValue(e.attrs, "content"), st.ogTitle)
    else if IsMetaProp(e, "og:title") then OgState(st.ogImage, AttrValue(e.attrs, "content"))
    else st
  }

  function OgRun(st: OgState, es: seq<Event>): OgState {
    if es == [] then st else OgStep(OgRun(st, es[..|es| - 1]), es[|es| - 1])
  }

  /** Events with no `og:image` meta tag leave `og_image` as it was, and
      likewise for `og:title`. */
  lemma {:induction false} OgRunUntouched(st: OgState, es: seq<Event>)
    ensures (forall i :: 0 <= i < |es| ==> !IsMetaProp(es[i], "og:image")) ==> OgRun(st, es).ogImage == st.ogImage
    ensures (forall i :: 0 <= i < |es| ==> !IsMetaProp(es[i], "og:title")) ==> OgRun(st, es).ogTitle == st.ogTitle
    decreases |es|
  {
    if es != [] {
      OgRunUntouched(st, es[..|es| - 1]);
    }
  }

  lemma {:induction false} OgRunAppend(st: OgState, a: seq<Event>, b: seq<Event>)
    ensures OgRun(st, a + b) == OgRun(OgRun(st, a), b)
    decreases |b|
  {
    if b == [] {
      assert a + b == a;
    } else {
      assert (a + b)[..|a + b| - 1] == a + b[..|b| - 1];
      OgRunAppend(st, a, b[..|b| - 1]);
    }
  }

  /** The last `og:image` meta tag decides `og_image`: its `content`, or
      `None` when it has none. */
  lemma OgImageLastWins(st: OgState, pre: seq<Event>, e: Event, post: seq<Event>)
    requires IsMetaProp(e, "og:image")
    requires forall i :: 0 <= i < |post| ==> !IsMetaProp(post[i], "og:image")
    ensures OgRun(st, pre + [e] + post).ogImage == AttrValue(e.attrs, "content")
  {
    OgRunAppend(st, pre + [e], post);
    OgRunUntouched(OgRun(st, pre + [e]), post);
    assert (pre + [e])[..|pre + [e]| - 1] == pre;
  }

  class BoothMetaParser {
    var ogImage: Option<string>
    var ogTitle: Option<string>

    function State(): OgState
      reads this
    {
      OgState(ogImage, ogTitle)
    }

    constructor()
      ensures State() == OgInit
    {
      ogImage := None;
      ogTitle := None;
    }

    method HandleStartTag(tag: string, attrs: seq<Attr>)
      modifies this
      ensures tag != "meta" ==> State() == old(State())
      ensures State() == OgStep(old(State()), StartTag(tag, attrs))
    {
      if tag != "meta" {
        return;
      }
      var prop := AttrGet(attrs, "property");
      if prop == Some(Some("og:image")) {
        ogImage := AttrValue(attrs, "content");
      } else if prop == Some(Some("og:title")) {
        ogTitle := AttrValue(attrs, "content");
      }
    }

    /** `feed`; end tags and data are ignored by this parser. */
    method Feed(events: seq<Event>)
      modifies this
      ensures State() == OgRun(old(State()), events)
    {
      var i := 0;
      while i < |events|
        invariant 0 <= i <= |events|
        invariant State() == OgRun(old(State()), events[..i])
      {
        assert events[..i + 1][..i] == events[..i];
        if events[i].StartTag? {
          HandleStartTag(events[i].tag, events[i].attrs);
        }
        i := i + 1;
      }
      assert events[..i] == events;
    }
  }

  /** The outcome of the public item-page GET: a network error or an HTTP
      error status, or the page's events. */
  datatype PageOutcome = PageFailed | PageOk(events: seq<Event>)

  /** The dict `fetch_public_item_meta` builds from the parsed page. */
  function PageMeta(productId: string, og: OgState): (m: Record)
    ensures "product_url" in m && m["product_url"] == Str(BuildPublicItemUrl(productId))
    ensures "official_title" in m <==> og.ogTitle.Some? && og.ogTitle.value != []
    ensures "og_image_url" in m <==> og.ogImage.Some? && og.ogImage.value != []
    ensures "official_title" in m ==> m["official_title"] == Str(og.ogTitle.value)
    ensures "og_image_url" in m ==> m["og_image_url"] == Str(og.ogImage.value)
    ensures m.Keys <= {"product_url", "official_title", "og_image_url"}
  {
    var m0 := map["product_url" := Str(BuildPublicItemUrl(productId))];
    var m1 := if og.ogTitle.Some? && og.ogTitle.value != [] then m0["official_title" := Str(og.ogTitle.value)] else m0;
    if og.ogImage.Some? && og.ogImage.value != [] then m1["og_image_url" := Str(og.ogImage.value)] else m1
  }

  /** `fetch_public_item_meta`: `None` when the page could not be fetched,
      otherwise the product URL plus the non-empty `og:title`/`og:image`. */
  method FetchPublicItemMeta(productId: string, page: PageOutcome) returns (meta: Option<Record>)
    ensures page.PageFailed? <==> meta.None?
    ensures page.PageOk? ==> meta == Some(PageMeta(productId, OgRun(OgInit, page.events)))
  {
    if page.PageFailed? {
      return None;
    }
    var parser := new BoothMetaParser();
    parser.Feed(page.events);
    meta := Some(PageMeta(productId, parser.State()));
  }
}
