/** Whole protocol runs: subscribe, verification, notification, denial, redirects, discovery. */
module Scenarios {
  import opened Base
  import opened Constants
  import opened Decimal
  import opened Subscriptions
  import opened Registry
  import opened SubscriberState
  import opened Callbacks
  import opened Negotiator
  import opened Dispatcher
  import opened Discovery

  /** The verification request a hub sends for a subscription it accepted. */
  function SubscribeVerification(callbackUrl: string, topicUrl: string, challenge: string, lease: string): Request {
    Request("GET", callbackUrl,
            map[ModeParam := [SubscribeMode], TopicParam := [topicUrl],
                ChallengeParam := [challenge], LeaseSecondsParam := [lease]],
            "")
  }

  /**
   * After the hub acknowledges a subscription, its verification request to the callback URL it
   * was sent gets the challenge back verbatim, and the registry then holds the confirmed
   * subscription expiring `lease` seconds from now; the pending entry stays.
   */
  lemma VerificationRoundTrip(
    st: Subscriber, opts: Options, hub: Hub, universe: set<string>,
    hubUrl: string, topicUrl: string, callbackId: string,
    challenge: string, lease: Int32, now: int)
    requires RedirectsWithin(hub, universe)
    requires st.Valid() && '/' !in callbackId
    requires hub(hubUrl, FormBody(opts, PendingSubscription(SubscribeMode, hubUrl, topicUrl, callbackId, opts.leaseSeconds))).status == 202
    ensures var r := Subscribe(st, opts, hub, universe, hubUrl, topicUrl, callbackId);
            && r.Success?
            && var req := SubscribeVerification(CallbackUrl(opts.baseUrl, callbackId), topicUrl, challenge, ShowInt(lease));
               var h := HandleRequest(r.value, opts, req, now);
               && h.response == PlainText(challenge)
               && GetById(h.state.registry, callbackId) == Some(Subscription(callbackId, topicUrl, now + lease, Active))
               && h.state.pending == r.value.pending
               && h.hooks == [SubscriptionSuccess(Subscription(callbackId, topicUrl, now + lease, Active))]
  {
    var r := Subscribe(st, opts, hub, universe, hubUrl, topicUrl, callbackId);
    VerificationConfirms(r.value, opts, callbackId, challenge, lease, now);
  }

  /**
   * A subscribe verification for a pending id, naming the pending topic and carrying the lease
   * as `Integer.toString` writes it, confirms that pending entry with expiration now + lease.
   */
  lemma VerificationConfirms(st: Subscriber, opts: Options, callbackId: string, challenge: string, lease: Int32, now: int)
    requires callbackId in st.pending && '/' !in callbackId
    ensures var req := SubscribeVerification(CallbackUrl(opts.baseUrl, callbackId), st.pending[callbackId].topicUrl, challenge, ShowInt(lease));
            HandleRequest(st, opts, req, now) == Confirm(st, SubscribeMode, st.pending[callbackId], challenge, now + lease)
  {
    var req := SubscribeVerification(CallbackUrl(opts.baseUrl, callbackId), st.pending[callbackId].topicUrl, challenge, ShowInt(lease));
    assert Param(req, ChallengeParam) == Some(challenge);
    assert Param(req, LeaseSecondsParam) == Some(ShowInt(lease));
    assert VerificationError(st, SubscribeMode, req).None? by {
      IdOfCallbackUrl(opts.baseUrl, callbackId);
      assert Param(req, TopicParam) == Some(st.pending[callbackId].topicUrl);
    }
    assert ParseInt(ShowInt(lease)) == Some(lease as int) by {
      ParseShowRoundTrip(lease);
    }
    assert HandleRequest(st, opts, req, now) == HandleVerification(st, opts, SubscribeMode, req, now) by {
      assert Param(req, ModeParam) == Some(SubscribeMode);
    }
    IdOfCallbackUrl(opts.baseUrl, callbackId);
  }

  /**
   * A verification naming another topic is refused with 404 and consumes nothing: the pending
   * entry is still there for a later, correct verification.
   */
  lemma TopicMismatchKeepsPending(
    st: Subscriber, opts: Options, callbackId: string, other: string, challenge: string, lease: string, now: int)
    requires callbackId in st.pending && other != st.pending[callbackId].topicUrl && '/' !in callbackId
    ensures var req := SubscribeVerification(CallbackUrl(opts.baseUrl, callbackId), other, challenge, lease);
            HandleRequest(st, opts, req, now) == Handled(st, Error(404, TopicMismatch), [])
  {
    var req := SubscribeVerification(CallbackUrl(opts.baseUrl, callbackId), other, challenge, lease);
    IdOfCallbackUrl(opts.baseUrl, callbackId);
    assert Param(req, ModeParam) == Some(SubscribeMode);
    assert Param(req, TopicParam) == Some(other);
  }

  /**
   * Content distribution reaches confirmed subscriptions only: a POST for an id that is merely
   * pending is refused with 404 and runs no hook.
   */
  lemma NoNotificationWhilePending(st: Subscriber, opts: Options, callbackId: string, body: string, now: int)
    requires callbackId in st.pending && GetById(st.registry, callbackId).None? && '/' !in callbackId
    ensures var req := Request("POST", CallbackUrl(opts.baseUrl, callbackId), map[], body);
            HandleRequest(st, opts, req, now) == Handled(st, Error(404, NoSubscription), [])
  {
    IdOfCallbackUrl(opts.baseUrl, callbackId);
  }

  /** Once verified, a POST to the callback URL runs the notification hook once with the body. */
  lemma NotificationAfterVerification(
    st: Subscriber, opts: Options, hub: Hub, universe: set<string>,
    hubUrl: string, topicUrl: string, callbackId: string,
    challenge: string, lease: Int32, now: int, later: int, payload: string)
    requires RedirectsWithin(hub, universe)
    requires st.Valid() && '/' !in callbackId
    requires hub(hubUrl, FormBody(opts, PendingSubscription(SubscribeMode, hubUrl, topicUrl, callbackId, opts.leaseSeconds))).status == 202
    ensures var st1 := Subscribe(st, opts, hub, universe, hubUrl, topicUrl, callbackId).value;
            var url := CallbackUrl(opts.baseUrl, callbackId);
            var st2 := HandleRequest(st1, opts, SubscribeVerification(url, topicUrl, challenge, ShowInt(lease)), now).state;
            var h := HandleRequest(st2, opts, Request("POST", url, map[], payload), later);
            && h.state == st2
            && h.response == Ok
            && h.hooks == [Notification(Subscription(callbackId, topicUrl, now + lease, Active), payload)]
  {
    VerificationRoundTrip(st, opts, hub, universe, hubUrl, topicUrl, callbackId, challenge, lease, now);
    IdOfCallbackUrl(opts.baseUrl, callbackId);
  }

  function DenialRequest(callbackUrl: string, topicUrl: string): Request {
    Request("GET", callbackUrl, map[ModeParam := [DeniedMode], TopicParam := [topicUrl]], "")
  }

  /**
   * A hub denying a pending subscription, naming its topic at its callback URL, is answered 200:
   * the pending entry is gone, the registry has nothing for the id, and the rejection hook ran
   * once with the subscription marked rejected, expiring one retry interval from now.
   */
  lemma DenialOfPending(st: Subscriber, opts: Options, callbackId: string, now: int)
    requires st.Valid() && callbackId in st.pending && GetById(st.registry, callbackId).None? && '/' !in callbackId
    ensures var p := st.pending[callbackId];
            var h := HandleRequest(st, opts, DenialRequest(CallbackUrl(opts.baseUrl, callbackId), p.topicUrl), now);
            && h.response == Ok
            && callbackId !in h.state.pending
            && GetById(h.state.registry, callbackId).None?
            && h.hooks == [SubscriptionRejection(Subscription(callbackId, p.topicUrl, now + opts.baseRetryInterval, Rejected))]
  {
    var p := st.pending[callbackId];
    var req := DenialRequest(CallbackUrl(opts.baseUrl, callbackId), p.topicUrl);
    IdOfCallbackUrl(opts.baseUrl, callbackId);
    assert Param(req, ModeParam) == Some(DeniedMode);
    assert Param(req, TopicParam) == Some(p.topicUrl);
    assert DeniedSubscription(st, opts, callbackId, now) == Some(Subscription(callbackId, p.topicUrl, now + opts.baseRetryInterval, Active));
  }

  /**
   * A second identical denial is not a no-op: the first removed both the pending entry and
   * (through the rejection hook) the registry entry, so the second finds nothing and gets 404.
   */
  lemma SecondDenialNotFound(st: Subscriber, opts: Options, url: string, topicUrl: string, now: int, later: int)
    requires st.Valid()
    requires HandleRequest(st, opts, DenialRequest(url, topicUrl), now).response == Ok
    ensures var st1 := HandleRequest(st, opts, DenialRequest(url, topicUrl), now).state;
            HandleRequest(st1, opts, DenialRequest(url, topicUrl), later) == Handled(st1, Error(404, NoSubscription), [])
  {
  }

  /** A hub that sends `a` to `b` and `b` back to `a`. */
  function PingPong(url: string, body: map<string, string>): HubReply {
    if url == "a" then HubReply(307, Some("b")) else HubReply(307, Some("a"))
  }

  /**
   * The URL a negotiation starts from is not remembered, so a two-hub loop is only noticed on
   * the third POST (`a`, `b`, `a`), when `a` names `b` again: the starting URL is posted to twice.
   */
  lemma StartingUrlPostedTwice(opts: Options, sub: PendingSubscription, pending: map<string, PendingSubscription>)
    ensures RedirectsWithin(PingPong, {"a", "b"})
    ensures SendImpl(opts, PingPong, {"a", "b"}, "a", sub, [], pending) == Sent(Failure(RedirectLoop("b")), ["b", "a"])
  {
  }

  /** A HEAD response with `Link: <H>; rel="hub"` and `Link: <T>; rel="self"` settles discovery. */
  lemma HeaderDiscovery(topicUrl: string, head: Reply, get: Reply, parse: LinkParser, resolve: Resolver, hubRef: string, selfRef: string)
    requires |head.linkHeaders| == 2
    requires parse(head.linkHeaders[0]) == Link("hub", hubRef)
    requires parse(head.linkHeaders[1]) == Link("self", selfRef)
    ensures Discover(topicUrl, head, get, parse, resolve)
            == Success(DiscoverResponse(Some(resolve(head.url, selfRef)), [resolve(head.url, hubRef)]))
  {
    var ts := HeaderLinks(head, parse, resolve);
    assert ts == [Tagged("hub", resolve(head.url, hubRef)), Tagged("self", resolve(head.url, selfRef))];
    assert ts[1..] == [Tagged("self", resolve(head.url, selfRef))];
    assert ts[1..][1..] == [];
    assert AllWithRel(ts[1..], "hub") == [];
    assert AllWithRel(ts, "hub") == [resolve(head.url, hubRef)];
    assert FirstWithRel(ts[1..], "self") == Some(resolve(head.url, selfRef));
    assert CheckHeaders(head, parse, resolve) == DiscoverResponse(Some(resolve(head.url, selfRef)), [resolve(head.url, hubRef)]);
  }

  /** A reply without `Link` headers names neither topic nor hubs. */
  lemma NoLinkHeaders(reply: Reply, parse: LinkParser, resolve: Resolver)
    requires reply.linkHeaders == []
    ensures CheckHeaders(reply, parse, resolve) == DiscoverResponse(None, [])
  {
  }

  lemma HubThenSelfDocument(links: seq<LinkElement>, docBase: string, resolve: Resolver, hubRef: string, selfRef: string)
    requires links == [LinkElement(Some(hubRef), Some("hub")), LinkElement(Some(selfRef), Some("self"))]
    ensures var ts := DocumentLinks(links, docBase, resolve);
            && FirstWithRel(ts, "self") == Some(resolve(docBase, selfRef))
            && AllWithRel(ts, "hub") == [resolve(docBase, hubRef)]
  {
    var hub := Tagged("hub", resolve(docBase, hubRef));
    var self := Tagged("self", resolve(docBase, selfRef));
    assert links[1..][1..] == [];
    assert DocumentLinks(links[1..], docBase, resolve) == [self];
    var ts := DocumentLinks(links, docBase, resolve);
    assert ts == [hub, self];
    assert ts[1..] == [self];
    assert ts[1..][1..] == [];
    assert AllWithRel(ts[1..], "hub") == [];
  }

  /**
   * With no `Link` headers at all, an HTML document whose head links to a hub and to itself
   * supplies both, each resolved against the topic URL.
   */
  lemma HtmlDiscovery(topicUrl: string, head: Reply, get: Reply, parse: LinkParser, resolve: Resolver, hubRef: string, selfRef: string)
    requires head.linkHeaders == [] && get.linkHeaders == []
    requires get.mediaType == Some(MediaType("text", "html"))
    requires get.links == [LinkElement(Some(hubRef), Some("hub")), LinkElement(Some(selfRef), Some("self"))]
    ensures Discover(topicUrl, head, get, parse, resolve)
            == Success(DiscoverResponse(Some(resolve(topicUrl, selfRef)), [resolve(topicUrl, hubRef)]))
  {
    NoLinkHeaders(head, parse, resolve);
    NoLinkHeaders(get, parse, resolve);
    var none := DiscoverResponse(None, []);
    assert Merge(none, none) == none;
    HubThenSelfDocument(get.links, topicUrl, resolve, hubRef, selfRef);
    FallbackFromDocument(topicUrl, none, get, resolve);
  }
}
