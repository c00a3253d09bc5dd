/**
 * Discovery of a topic's canonical URL and hubs (section 4 of the W3C WebSub Recommendation):
 * `Link` headers of a HEAD response (RFC 5988), then of a GET response, then the `<link>`
 * elements of an HTML document. Parsing of a `Link` header and relative-reference resolution
 * (section 5.2 of RFC 3986) are passed in as functions.
 */
module Discovery {
  import opened Base

  /** A parsed `Link` header value: its `rel` and its (possibly relative) URI. */
  datatype Link = Link(rel: string, uri: string)

  /** A link with its `rel` and its resolved URL. */
  datatype Tagged = Tagged(rel: string, url: string)

  /** A `Content-Type`: type and subtype. */
  datatype MediaType = MediaType(kind: string, subType: string)

  /** A `<link>` element under `html > head`, with its `href` and `rel` attributes if present. */
  datatype LinkElement = LinkElement(href: Option<string>, rel: Option<string>)

  /**
   * What discovery sees of one HTTP response: the final request URL, the `Link` header values,
   * the media type, and the document's head links (used only for a GET).
   */
  datatype Reply = Reply(url: string, linkHeaders: seq<string>, mediaType: Option<MediaType>, links: seq<LinkElement>)

  datatype DiscoverResponse = DiscoverResponse(topicUrl: Option<string>, hubUrls: seq<string>)

  /** Both are WebSubExceptions. */
  datatype DiscoverError = NoContentType | NotUnderstood

  /** `Link.valueOf`, and `URI.resolve` / `absUrl` as (base, reference) -> absolute URL. */
  type LinkParser = string -> Link
  type Resolver = (string, string) -> string

  /** Positions in `ts` whose rel is `rel`, in increasing order. */
  function RelPositions(ts: seq<Tagged>, rel: string): (ps: seq<nat>)
    ensures forall k :: 0 <= k < |ps| ==> ps[k] < |ts| && ts[ps[k]].rel == rel
    ensures forall i :: 0 <= i < |ts| && ts[i].rel == rel ==> i in ps
    ensures forall k, l :: 0 <= k < l < |ps| ==> ps[k] < ps[l]
  {
    if |ts| == 0 then []
    else
      var front := RelPositions(ts[..|ts| - 1], rel);
      if ts[|ts| - 1].rel == rel then front + [|ts| - 1] else front
  }

  /** The URL of the first link in `ts` with the given rel. */
  function FirstWithRel(ts: seq<Tagged>, rel: string): (u: Option<string>)
    ensures u.None? <==> forall i :: 0 <= i < |ts| ==> ts[i].rel != rel
    ensures u.Some? ==> exists i :: 0 <= i < |ts| && ts[i].rel == rel && ts[i].url == u.value &&
                                    forall j :: 0 <= j < i ==> ts[j].rel != rel
  {
    if |ts| == 0 then None
    else if ts[0].rel == rel then Some(ts[0].url)
    else
      var u := FirstWithRel(ts[1..], rel);
      assert forall i :: 1 <= i < |ts| ==> ts[i] == ts[1..][i - 1];
      u
  }

  /** The URLs of all links in `ts` with the given rel, in order. */
  function AllWithRel(ts: seq<Tagged>, rel: string): seq<string> {
    if |ts| == 0 then []
    else (if ts[0].rel == rel then [ts[0].url] else []) + AllWithRel(ts[1..], rel)
  }

  /** `AllWithRel` lists exactly the links at `RelPositions`, in that order. */
  lemma {:induction false} AllWithRelAtPositions(ts: seq<Tagged>, rel: string)
    ensures var ps := RelPositions(ts, rel);
            var us := AllWithRel(ts, rel);
            |us| == |ps| && forall k :: 0 <= k < |ps| ==> us[k] == ts[ps[k]].url
  {
    if |ts| > 0 {
      var init := ts[..|ts| - 1];
      var last := ts[|ts| - 1];
      AllWithRelAtPositions(init, rel);
      assert ts == init + [last];
      AllWithRelAppend(init, [last], rel);
      assert AllWithRel([last], rel) == (if last.rel == rel then [last.url] else []) + AllWithRel([], rel);
    }
  }

  lemma {:induction false} AllWithRelAppend(ts: seq<Tagged>, more: seq<Tagged>, rel: string)
    ensures AllWithRel(ts + more, rel) == AllWithRel(ts, rel) + AllWithRel(more, rel)
    decreases |ts|
  {
    if |ts| > 0 {
      assert (ts + more)[1..] == ts[1..] + more;
      AllWithRelAppend(ts[1..], more, rel);
    } else {
      assert ts + more == more;
    }
  }

  /** The `Link` headers of a reply, parsed and resolved against the reply's URL. */
  function HeaderLinks(reply: Reply, parse: LinkParser, resolve: Resolver): (ts: seq<Tagged>)
    ensures |ts| == |reply.linkHeaders|
    ensures forall i :: 0 <= i < |ts| ==>
              ts[i] == Tagged(parse(reply.linkHeaders[i]).rel, resolve(reply.url, parse(reply.linkHeaders[i]).uri))
  {
    seq(|reply.linkHeaders|, i requires 0 <= i < |reply.linkHeaders| =>
      var l := parse(reply.linkHeaders[i]);
      Tagged(l.rel, resolve(reply.url, l.uri)))
  }

  /**
   * `checkHeaders`: the topic is the first `self` link, the hubs are all `hub` links in header
   * order.
   */
  function CheckHeaders(reply: Reply, parse: LinkParser, resolve: Resolver): (r: DiscoverResponse)
    ensures var ts := HeaderLinks(reply, parse, resolve);
            && (r.topicUrl.None? <==> forall i :: 0 <= i < |ts| ==> ts[i].rel != "self")
            && (r.topicUrl.Some? ==> exists i :: 0 <= i < |ts| && ts[i].rel == "self" && ts[i].url == r.topicUrl.value &&
                                                forall j :: 0 <= j < i ==> ts[j].rel != "self")
            && var ps := RelPositions(ts, "hub");
               |r.hubUrls| == |ps| && forall k :: 0 <= k < |ps| ==> r.hubUrls[k] == ts[ps[k]].url
  {
    var ts := HeaderLinks(reply, parse, resolve);
    AllWithRelAtPositions(ts, "hub");
    DiscoverResponse(FirstWithRel(ts, "self"), AllWithRel(ts, "hub"))
  }

  predicate Complete(r: DiscoverResponse) {
    r.topicUrl.Some? && |r.hubUrls| > 0
  }

  /** GET-derived values win field by field; a field the GET lacks keeps its HEAD value. */
  function Merge(head: DiscoverResponse, get: DiscoverResponse): (r: DiscoverResponse)
    ensures r.topicUrl == (if get.topicUrl.Some? then get.topicUrl else head.topicUrl)
    ensures r.hubUrls == (if |get.hubUrls| > 0 then get.hubUrls else head.hubUrls)
    ensures Complete(head) && Complete(get) ==> r == get
    ensures r.topicUrl.None? ==> head.topicUrl.None? && get.topicUrl.None?
    ensures |r.hubUrls| == 0 ==> |head.hubUrls| == 0 && |get.hubUrls| == 0
  {
    DiscoverResponse(
      if get.topicUrl.Some? then get.topicUrl else head.topicUrl,
      if |get.hubUrls| > 0 then get.hubUrls else head.hubUrls)
  }

  /** A `<link>` element as a tagged link: none unless it has both `href` and `rel`. */
  function AsTagged(l: LinkElement, docBase: string, resolve: Resolver): (ts: seq<Tagged>)
    ensures |ts| <= 1
  {
    if l.href.Some? && l.rel.Some? then [Tagged(l.rel.value, resolve(docBase, l.href.value))] else []
  }

  /** The document's links that have both `href` and `rel`, with `href` resolved, in order. */
  function DocumentLinks(links: seq<LinkElement>, docBase: string, resolve: Resolver): seq<Tagged> {
    if |links| == 0 then []
    else AsTagged(links[0], docBase, resolve) + DocumentLinks(links[1..], docBase, resolve)
  }

  /**
   * One pass of the `<link>` loop body: an element lacking `href` or `rel` is skipped; while the
   * topic is needed a `self` link sets it (and it is needed no more); while hubs are needed a
   * `hub` link is appended. Returns the result so far and whether the topic is still needed.
   */
  function Visit(acc: DiscoverResponse, needTopic: bool, needHubs: bool,
                 l: LinkElement, docBase: string, resolve: Resolver): (r: (DiscoverResponse, bool))
    ensures r.1 ==> needTopic
  {
    if l.href.None? || l.rel.None? then (acc, needTopic)
    else if needTopic && l.rel.value == "self" then
      (acc.(topicUrl := Some(resolve(docBase, l.href.value))), false)
    else if needHubs && l.rel.value == "hub" then
      (acc.(hubUrls := acc.hubUrls + [resolve(docBase, l.href.value)]), needTopic)
    else (acc, needTopic)
  }

  /** The `<link>` loop over the selected elements, in document order. */
  function ScanLinks(acc: DiscoverResponse, needTopic: bool, needHubs: bool,
                     links: seq<LinkElement>, docBase: string, resolve: Resolver): DiscoverResponse
    decreases |links|
  {
    if |links| == 0 then acc
    else
      var (acc', needTopic') := Visit(acc, needTopic, needHubs, links[0], docBase, resolve);
      ScanLinks(acc', needTopic', needHubs, links[1..], docBase, resolve)
  }

  lemma FirstWithRelCons(ts: seq<Tagged>, more: seq<Tagged>, rel: string)
    requires |ts| <= 1
    ensures FirstWithRel(ts + more, rel)
            == if |ts| == 1 && ts[0].rel == rel then Some(ts[0].url) else FirstWithRel(more, rel)
  {
    if |ts| == 1 {
      assert (ts + more)[1..] == more;
    } else {
      assert ts + more == more;
    }
  }

  /** What the `<link>` loop leaves as topic: the first complete `self` link, if still needed. */
  lemma {:induction false} ScanLinksTopic(acc: DiscoverResponse, needTopic: bool, needHubs: bool,
                                          links: seq<LinkElement>, docBase: string, resolve: Resolver)
    ensures var first := FirstWithRel(DocumentLinks(links, docBase, resolve), "self");
            ScanLinks(acc, needTopic, needHubs, links, docBase, resolve).topicUrl
              == (if needTopic && first.Some? then first else acc.topicUrl)
    decreases |links|
  {
    if |links| > 0 {
      var v := Visit(acc, needTopic, needHubs, links[0], docBase, resolve);
      assert ScanLinks(acc, needTopic, needHubs, links, docBase, resolve)
          == ScanLinks(v.0, v.1, needHubs, links[1..], docBase, resolve);
      ScanLinksTopic(v.0, v.1, needHubs, links[1..], docBase, resolve);
      FirstWithRelCons(AsTagged(links[0], docBase, resolve), DocumentLinks(links[1..], docBase, resolve), "self");
    }
  }

  /** One loop step appends the element's `hub` link, if it has one and hubs are needed. */
  lemma VisitHubs(acc: DiscoverResponse, needTopic: bool, needHubs: bool,
                  l: LinkElement, docBase: string, resolve: Resolver)
    ensures Visit(acc, needTopic, needHubs, l, docBase, resolve).0.hubUrls
            == if needHubs then acc.hubUrls + AllWithRel(AsTagged(l, docBase, resolve), "hub") else acc.hubUrls
  {
  }

  /** When hubs are not needed, the `<link>` loop leaves them alone. */
  lemma {:induction false} ScanLinksKeepsHubs(acc: DiscoverResponse, needTopic: bool,
                                              links: seq<LinkElement>, docBase: string, resolve: Resolver)
    ensures ScanLinks(acc, needTopic, false, links, docBase, resolve).hubUrls == acc.hubUrls
    decreases |links|
  {
    if |links| > 0 {
      var v := Visit(acc, needTopic, false, links[0], docBase, resolve);
      assert ScanLinks(acc, needTopic, false, links, docBase, resolve)
          == ScanLinks(v.0, v.1, false, links[1..], docBase, resolve);
      ScanLinksKeepsHubs(v.0, v.1, links[1..], docBase, resolve);
    }
  }

  /** When hubs are needed, the `<link>` loop appends every complete `hub` link, in order. */
  lemma {:induction false} ScanLinksAppendsHubs(acc: DiscoverResponse, needTopic: bool,
                                                links: seq<LinkElement>, docBase: string, resolve: Resolver)
    ensures ScanLinks(acc, needTopic, true, links, docBase, resolve).hubUrls
              == acc.hubUrls + AllWithRel(DocumentLinks(links, docBase, resolve), "hub")
    decreases |links|
  {
    if |links| > 0 {
      var v := Visit(acc, needTopic, true, links[0], docBase, resolve);
      var t := AsTagged(links[0], docBase, resolve);
      var tail := DocumentLinks(links[1..], docBase, resolve);
      var a := AllWithRel(t, "hub");
      var b := AllWithRel(tail, "hub");
      assert ScanLinks(acc, needTopic, true, links, docBase, resolve).hubUrls == v.0.hubUrls + b by {
        assert ScanLinks(acc, needTopic, true, links, docBase, resolve)
            == ScanLinks(v.0, v.1, true, links[1..], docBase, resolve);
        ScanLinksAppendsHubs(v.0, v.1, links[1..], docBase, resolve);
      }
      assert v.0.hubUrls == acc.hubUrls + a by {
        VisitHubs(acc, needTopic, true, links[0], docBase, resolve);
      }
      assert AllWithRel(DocumentLinks(links, docBase, resolve), "hub") == a + b by {
        assert DocumentLinks(links, docBase, resolve) == t + tail;
        AllWithRelAppend(t, tail, "hub");
      }
      assert (acc.hubUrls + a) + b == acc.hubUrls + (a + b);
    } else {
      assert acc.hubUrls + [] == acc.hubUrls;
    }
  }

  /** What the `<link>` loop leaves as hubs: every complete `hub` link appended, if needed. */
  lemma ScanLinksHubs(acc: DiscoverResponse, needTopic: bool, needHubs: bool,
                      links: seq<LinkElement>, docBase: string, resolve: Resolver)
    ensures ScanLinks(acc, needTopic, needHubs, links, docBase, resolve).hubUrls
              == (if needHubs then acc.hubUrls + AllWithRel(DocumentLinks(links, docBase, resolve), "hub") else acc.hubUrls)
  {
    if needHubs {
      ScanLinksAppendsHubs(acc, needTopic, links, docBase, resolve);
    } else {
      ScanLinksKeepsHubs(acc, needTopic, links, docBase, resolve);
    }
  }

  /**
   * What `discover` does once the headers are known: return them if complete; otherwise scan the
   * `<link>` elements of a `text/html` GET (the result may stay incomplete), and fail for any
   * other or a missing media type.
   */
  function Fallback(topicUrl: string, result: DiscoverResponse, get: Reply, resolve: Resolver)
    : (r: Result<DiscoverResponse, DiscoverError>)
    ensures Complete(result) ==> r == Success(result)
    ensures r == Failure(NoContentType) <==> !Complete(result) && get.mediaType.None?
    ensures r == Failure(NotUnderstood) <==>
              !Complete(result) && get.mediaType.Some? && get.mediaType.value != MediaType("text", "html")
    ensures r.Success? ==>
              && (result.topicUrl.Some? ==> r.value.topicUrl == result.topicUrl)
              && (|result.hubUrls| > 0 ==> r.value.hubUrls == result.hubUrls)
  {
    var needTopic := result.topicUrl.None?;
    var needHubs := |result.hubUrls| == 0;
    if !needTopic && !needHubs then Success(result)
    else
      match get.mediaType
      case None => Failure(NoContentType)
      case Some(mt) =>
        if mt.kind == "text" && mt.subType == "html" then
          ScanLinksTopic(result, needTopic, needHubs, get.links, topicUrl, resolve);
          ScanLinksHubs(result, needTopic, needHubs, get.links, topicUrl, resolve);
          Success(ScanLinks(result, needTopic, needHubs, get.links, topicUrl, resolve))
        else Failure(NotUnderstood)
  }

  /**
   * The HTML fallback in full: when the headers leave a field missing and the GET is
   * `text/html`, the missing topic comes from the first complete `self` link (if any) and the
   * missing hubs are all complete `hub` links in document order; a field the headers supplied
   * is kept, and there is no error even if a field is still missing.
   */
  lemma FallbackFromDocument(topicUrl: string, result: DiscoverResponse, get: Reply, resolve: Resolver)
    requires !Complete(result)
    requires get.mediaType == Some(MediaType("text", "html"))
    ensures var ts := DocumentLinks(get.links, topicUrl, resolve);
            Fallback(topicUrl, result, get, resolve) == Success(DiscoverResponse(
              if result.topicUrl.Some? then result.topicUrl else FirstWithRel(ts, "self"),
              if |result.hubUrls| > 0 then result.hubUrls else AllWithRel(ts, "hub")))
  {
    ScanLinksTopic(result, result.topicUrl.None?, |result.hubUrls| == 0, get.links, topicUrl, resolve);
    ScanLinksHubs(result, result.topicUrl.None?, |result.hubUrls| == 0, get.links, topicUrl, resolve);
    var scanned := ScanLinks(result, result.topicUrl.None?, |result.hubUrls| == 0, get.links, topicUrl, resolve);
    assert Fallback(topicUrl, result, get, resolve) == Success(scanned);
    if |result.hubUrls| == 0 {
      assert result.hubUrls + AllWithRel(DocumentLinks(get.links, topicUrl, resolve), "hub")
          == AllWithRel(DocumentLinks(get.links, topicUrl, resolve), "hub");
    }
  }

  /**
   * `discover(topicUrl)`, given the HEAD and GET replies: HEAD alone when it names both topic
   * and hubs; otherwise the GET's headers override field by field, and what they still leave
   * missing is looked for in a `text/html` document (any other or no media type is an error).
   */
  function Discover(topicUrl: string, head: Reply, get: Reply, parse: LinkParser, resolve: Resolver)
    : (r: Result<DiscoverResponse, DiscoverError>)
    ensures Complete(CheckHeaders(head, parse, resolve)) ==> r == Success(CheckHeaders(head, parse, resolve))
    ensures var first := CheckHeaders(head, parse, resolve);
            var merged := Merge(first, CheckHeaders(get, parse, resolve));
            !Complete(first) ==>
              && (Complete(merged) ==> r == Success(merged))
              && (r == Failure(NoContentType) <==> !Complete(merged) && get.mediaType.None?)
              && (r == Failure(NotUnderstood) <==>
                    !Complete(merged) && get.mediaType.Some? && get.mediaType.value != MediaType("text", "html"))
              && (r.Success? && merged.topicUrl.Some? ==> r.value.topicUrl == merged.topicUrl)
              && (r.Success? && |merged.hubUrls| > 0 ==> r.value.hubUrls == merged.hubUrls)
  {
    var first := CheckHeaders(head, parse, resolve);
    if Complete(first) then Success(first)
    else Fallback(topicUrl, Merge(first, CheckHeaders(get, parse, resolve)), get, resolve)
  }

  /**
   * `discover` when even the merged headers leave a field missing and the GET is `text/html`:
   * each field the headers supplied is kept, a missing topic is the document's first complete
   * `self` link, and missing hubs are all its complete `hub` links in document order.
   */
  lemma DiscoverFromDocument(topicUrl: string, head: Reply, get: Reply, parse: LinkParser, resolve: Resolver)
    requires !Complete(Merge(CheckHeaders(head, parse, resolve), CheckHeaders(get, parse, resolve)))
    requires get.mediaType == Some(MediaType("text", "html"))
    ensures var merged := Merge(CheckHeaders(head, parse, resolve), CheckHeaders(get, parse, resolve));
            var ts := DocumentLinks(get.links, topicUrl, resolve);
            Discover(topicUrl, head, get, parse, resolve) == Success(DiscoverResponse(
              if merged.topicUrl.Some? then merged.topicUrl else FirstWithRel(ts, "self"),
              if |merged.hubUrls| > 0 then merged.hubUrls else AllWithRel(ts, "hub")))
  {
    var first := CheckHeaders(head, parse, resolve);
    var merged := Merge(first, CheckHeaders(get, parse, resolve));
    assert !Complete(first);
    assert Discover(topicUrl, head, get, parse, resolve) == Fallback(topicUrl, merged, get, resolve);
    FallbackFromDocument(topicUrl, merged, get, resolve);
  }
}
