/**
 * Outbound subscription requests to a hub (section 5.1 of the W3C WebSub Recommendation):
 * a form-encoded POST, following 307/308 redirects with loop detection, recording the
 * negotiation as pending once the hub answers 202 Accepted.
 */
module Negotiator {
  import opened Base
  import opened Constants
  import opened Decimal
  import opened Subscriptions
  import opened SubscriberState
  import opened Callbacks

  /** What the hub answers to one POST: a status code and, maybe, a `Location` header. */
  datatype HubReply = HubReply(status: int, location: Option<string>)

  /** The hub, seen from the subscriber: the reply to a POST of a form body to a URL. */
  type Hub = (string, map<string, string>) -> HubReply

  /** Why a negotiation failed. */
  datatype SendError =
    | MissingLocation          // WebSubException: a redirect without a Location header
    | RedirectLoop(url: string) // CommunicationException: a redirect to a URL seen before
    | BadStatus(status: int)    // CommunicationException: any other status

  /** The result of a negotiation: the new pending map or an error, and the redirect trail. */
  datatype Sent = Sent(outcome: Result<map<string, PendingSubscription>, SendError>, visited: seq<string>)

  /** Every redirect target the hub can name lies in the finite set `universe`. */
  ghost predicate RedirectsWithin(hub: Hub, universe: set<string>) {
    forall url, body :: hub(url, body).location.Some? ==> hub(url, body).location.value in universe
  }

  predicate IsRedirect(reply: HubReply) {
    reply.status == 307 || reply.status == 308
  }

  /**
   * The URL the last POST went to, given the trail before and after: the start when nothing was
   * added, else the last redirect target.
   */
  function LastUrl(start: string, before: seq<string>, after: seq<string>): string {
    if |after| <= |before| then start else after[|after| - 1]
  }

  /** `from` answers with a 307/308 whose Location is `to`. */
  ghost predicate RedirectsTo(hub: Hub, body: map<string, string>, from: string, to: string) {
    IsRedirect(hub(from, body)) && hub(from, body).location == Some(to)
  }

  /** Starting at `start`, each URL of `steps` is the redirect target the previous one named. */
  ghost predicate RedirectChain(hub: Hub, body: map<string, string>, start: string, steps: seq<string>) {
    && (|steps| > 0 ==> RedirectsTo(hub, body, start, steps[0]))
    && forall k :: 0 < k < |steps| ==> RedirectsTo(hub, body, steps[k - 1], steps[k])
  }

  /** The form body sent to the hub for a negotiation. */
  function FormBody(opts: Options, sub: PendingSubscription): (body: map<string, string>)
    ensures ModeParam in body && body[ModeParam] == sub.mode
    ensures TopicParam in body && body[TopicParam] == sub.topicUrl
    ensures CallbackParam in body && body[CallbackParam] == CallbackUrl(opts.baseUrl, sub.callbackId)
    ensures LeaseSecondsParam in body <==> sub.leaseSeconds != 0
    ensures LeaseSecondsParam in body ==> ParseInt(body[LeaseSecondsParam]) == Some(sub.leaseSeconds as int)
    ensures body.Keys <= {ModeParam, TopicParam, CallbackParam, LeaseSecondsParam}
  {
    var data := map[ModeParam := sub.mode, TopicParam := sub.topicUrl,
                    CallbackParam := CallbackUrl(opts.baseUrl, sub.callbackId)];
    if sub.leaseSeconds != 0 then
      ParseShowRoundTrip(sub.leaseSeconds);
      data[LeaseSecondsParam := ShowInt(sub.leaseSeconds)]
    else
      data
  }

  /** Appending a URL not yet in the trail keeps it duplicate-free and adds exactly that URL. */
  lemma Extend(visited: seq<string>, location: string)
    requires NoDuplicates(visited) && location !in visited
    ensures NoDuplicates(visited + [location])
    ensures (set u | u in visited + [location]) == (set u | u in visited) + {location}
    ensures (visited + [location])[..|visited|] == visited
  {
  }

  /**
   * POST the negotiation to `hubUrl`, following redirects. `visited` lists the redirect targets
   * seen so far; the URL the negotiation started from is not in it.
   */
  function SendImpl(
    opts: Options, hub: Hub, ghost universe: set<string>,
    hubUrl: string, sub: PendingSubscription, visited: seq<string>,
    pending: map<string, PendingSubscription>): (r: Sent)
    requires RedirectsWithin(hub, universe)
    requires NoDuplicates(visited)
    ensures NoDuplicates(r.visited)
    ensures |visited| <= |r.visited| && r.visited[..|visited|] == visited
    ensures r.outcome.Success? ==> r.outcome.value == pending[sub.callbackId := sub]
    decreases universe - set u | u in visited
  {
    var reply := hub(hubUrl, FormBody(opts, sub));
    if reply.status == 202 then
      Sent(Success(pending[sub.callbackId := sub]), visited)
    else if reply.status == 307 || reply.status == 308 then
      match reply.location
      case None => Sent(Failure(MissingLocation), visited)
      case Some(location) =>
        if location in visited then
          Sent(Failure(RedirectLoop(location)), visited)
        else
          var visited' := visited + [location];
          Extend(visited, location);
          SendImpl(opts, hub, universe, location, sub, visited', pending)
    else
      Sent(Failure(BadStatus(reply.status)), visited)
  }

  /** A redirect from `start` to `next` extends a chain starting at `next`. */
  lemma ChainStep(hub: Hub, body: map<string, string>, start: string, next: string, steps: seq<string>)
    requires RedirectsTo(hub, body, start, next)
    requires RedirectChain(hub, body, next, steps)
    ensures RedirectChain(hub, body, start, [next] + steps)
  {
  }

  /** The outcome of `SendImpl` agrees with what the hub answered to the last POST. */
  ghost predicate AgreesWithHub(outcome: Result<map<string, PendingSubscription>, SendError>, last: HubReply, visited: seq<string>) {
    match outcome
    case Success(_) => last.status == 202
    case Failure(MissingLocation) => IsRedirect(last) && last.location.None?
    case Failure(RedirectLoop(url)) => IsRedirect(last) && last.location == Some(url) && url in visited
    case Failure(BadStatus(code)) => last.status == code && code != 202 && !IsRedirect(last)
  }

  /**
   * One round of `SendImpl`: a redirect to a URL not yet in the trail is followed with that URL
   * appended; otherwise the trail is returned as it was and the outcome agrees with the reply.
   */
  lemma SendImplStep(
    opts: Options, hub: Hub, universe: set<string>,
    hubUrl: string, sub: PendingSubscription, visited: seq<string>,
    pending: map<string, PendingSubscription>)
    requires RedirectsWithin(hub, universe)
    requires NoDuplicates(visited)
    ensures var reply := hub(hubUrl, FormBody(opts, sub));
            var r := SendImpl(opts, hub, universe, hubUrl, sub, visited, pending);
            if reply.status != 202 && IsRedirect(reply) && reply.location.Some? && reply.location.value !in visited then
              && NoDuplicates(visited + [reply.location.value])
              && r == SendImpl(opts, hub, universe, reply.location.value, sub, visited + [reply.location.value], pending)
            else
              r.visited == visited && AgreesWithHub(r.outcome, reply, visited)
  {
  }

  /** A trail that extends `prefix + [x]` continues, after `prefix`, with `x`. */
  lemma TailAfter(trail: seq<string>, prefix: seq<string>, x: string)
    requires |prefix| + 1 <= |trail| && trail[..|prefix| + 1] == prefix + [x]
    ensures trail[|prefix|..] == [x] + trail[|prefix| + 1..]
  {
  }

  /** Every URL added to the trail is the target of a 307/308 from the URL before it. */
  lemma {:induction false} SendImplFollowsRedirects(
    opts: Options, hub: Hub, universe: set<string>,
    hubUrl: string, sub: PendingSubscription, visited: seq<string>,
    pending: map<string, PendingSubscription>)
    requires RedirectsWithin(hub, universe)
    requires NoDuplicates(visited)
    ensures var r := SendImpl(opts, hub, universe, hubUrl, sub, visited, pending);
            RedirectChain(hub, FormBody(opts, sub), hubUrl, r.visited[|visited|..])
    decreases universe - set u | u in visited
  {
    var body := FormBody(opts, sub);
    var reply := hub(hubUrl, body);
    var r := SendImpl(opts, hub, universe, hubUrl, sub, visited, pending);
    SendImplStep(opts, hub, universe, hubUrl, sub, visited, pending);
    if reply.status != 202 && IsRedirect(reply) && reply.location.Some? && reply.location.value !in visited {
      var location := reply.location.value;
      var visited' := visited + [location];
      Extend(visited, location);
      SendImplFollowsRedirects(opts, hub, universe, location, sub, visited', pending);
      var rest := r.visited[|visited'|..];
      ChainStep(hub, body, hubUrl, location, rest);
      TailAfter(r.visited, visited, location);
    } else {
      assert r.visited[|visited|..] == [];
    }
  }

  /**
   * The outcome is what the hub answered to the last URL posted to: 202 gives success, a
   * redirect without Location or to a URL already in the trail gives the matching error, and
   * any other status fails with that status.
   */
  lemma {:induction false} SendImplFollowsHub(
    opts: Options, hub: Hub, universe: set<string>,
    hubUrl: string, sub: PendingSubscription, visited: seq<string>,
    pending: map<string, PendingSubscription>)
    requires RedirectsWithin(hub, universe)
    requires NoDuplicates(visited)
    ensures var r := SendImpl(opts, hub, universe, hubUrl, sub, visited, pending);
            AgreesWithHub(r.outcome, hub(LastUrl(hubUrl, visited, r.visited), FormBody(opts, sub)), r.visited)
    decreases universe - set u | u in visited
  {
    var body := FormBody(opts, sub);
    var reply := hub(hubUrl, body);
    var r := SendImpl(opts, hub, universe, hubUrl, sub, visited, pending);
    SendImplStep(opts, hub, universe, hubUrl, sub, visited, pending);
    if reply.status != 202 && IsRedirect(reply) && reply.location.Some? && reply.location.value !in visited {
      var location := reply.location.value;
      var visited' := visited + [location];
      Extend(visited, location);
      SendImplFollowsHub(opts, hub, universe, location, sub, visited', pending);
      assert LastUrl(hubUrl, visited, r.visited) == LastUrl(location, visited', r.visited) by {
        assert r.visited[..|visited'|] == visited';
        assert r.visited[|visited|] == location;
      }
    }
  }

  /** `subscribe(hubUrl, topicUrl, callbackId)`: the outcome is the subscriber's new state. */
  function Subscribe(
    st: Subscriber, opts: Options, hub: Hub, ghost universe: set<string>,
    hubUrl: string, topicUrl: string, callbackId: string): (r: Result<Subscriber, SendError>)
    requires RedirectsWithin(hub, universe)
    ensures var sent := SendImpl(opts, hub, universe, hubUrl,
                                 PendingSubscription(SubscribeMode, hubUrl, topicUrl, callbackId, opts.leaseSeconds), [], st.pending);
            && (r.Success? <==> sent.outcome.Success?)
            && (r.Failure? ==> r.error == sent.outcome.error)
    ensures hub(hubUrl, FormBody(opts, PendingSubscription(SubscribeMode, hubUrl, topicUrl, callbackId, opts.leaseSeconds))).status == 202 ==>
              r.Success?
    ensures r.Success? ==>
              && r.value.registry == st.registry
              && r.value.pending == st.pending[callbackId :=
                   PendingSubscription(SubscribeMode, hubUrl, topicUrl, callbackId, opts.leaseSeconds)]
    ensures st.Valid() && r.Success? ==> r.value.Valid()
  {
    var sub := PendingSubscription(SubscribeMode, hubUrl, topicUrl, callbackId, opts.leaseSeconds);
    var sent := SendImpl(opts, hub, universe, hubUrl, sub, [], st.pending);
    match sent.outcome
    case Success(pending) => Success(st.(pending := pending))
    case Failure(e) => Failure(e)
  }

  /**
   * `subscribe` follows the hub: the URLs it visits form a redirect chain from `hubUrl`, it
   * succeeds exactly when the last URL posted to answers 202, and otherwise fails with the
   * error that last reply dictates.
   */
  lemma SubscribeFollowsHub(
    st: Subscriber, opts: Options, hub: Hub, universe: set<string>,
    hubUrl: string, topicUrl: string, callbackId: string)
    requires RedirectsWithin(hub, universe)
    ensures var sub := PendingSubscription(SubscribeMode, hubUrl, topicUrl, callbackId, opts.leaseSeconds);
            var sent := SendImpl(opts, hub, universe, hubUrl, sub, [], st.pending);
            var last := hub(LastUrl(hubUrl, [], sent.visited), FormBody(opts, sub));
            var r := Subscribe(st, opts, hub, universe, hubUrl, topicUrl, callbackId);
            && RedirectChain(hub, FormBody(opts, sub), hubUrl, sent.visited)
            && (r.Success? <==> last.status == 202)
            && (r.Failure? ==> AgreesWithHub(Failure(r.error), last, sent.visited))
  {
    var sub := PendingSubscription(SubscribeMode, hubUrl, topicUrl, callbackId, opts.leaseSeconds);
    var sent := SendImpl(opts, hub, universe, hubUrl, sub, [], st.pending);
    SendImplFollowsRedirects(opts, hub, universe, hubUrl, sub, [], st.pending);
    SendImplFollowsHub(opts, hub, universe, hubUrl, sub, [], st.pending);
    assert sent.visited[0..] == sent.visited;
  }

  /** `subscribe(hubUrl, topicUrl)`: as above with a freshly generated id, which is returned. */
  function SubscribeWithNewId(
    st: Subscriber, opts: Options, hub: Hub, ghost universe: set<string>,
    hubUrl: string, topicUrl: string, uuid: string): (r: (Result<Subscriber, SendError>, string))
    requires RedirectsWithin(hub, universe)
    ensures r.1 == uuid
    ensures r.0 == Subscribe(st, opts, hub, universe, hubUrl, topicUrl, uuid)
    ensures r.0.Success? ==>
              && r.0.value.registry == st.registry
              && r.0.value.pending == st.pending[uuid := PendingSubscription(SubscribeMode, hubUrl, topicUrl, uuid, opts.leaseSeconds)]
    ensures st.Valid() && r.0.Success? ==> r.0.value.Valid()
  {
    (Subscribe(st, opts, hub, universe, hubUrl, topicUrl, uuid), uuid)
  }

  /** `unsubscribe` is an empty stub: no request is sent and nothing changes. */
  function Unsubscribe(st: Subscriber, hubUrl: string, topicUrl: string, callbackId: string): (r: Subscriber)
    ensures r == st
  {
    st
  }
}
