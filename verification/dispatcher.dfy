/**
 * Inbound requests to a callback URL: verification of intent (section 5.3 of the W3C WebSub
 * Recommendation), denial (section 5.2) and content distribution (section 7).
 */
module Dispatcher {
  import opened Base
  import opened Constants
  import opened Decimal
  import opened Subscriptions
  import opened Registry
  import opened SubscriberState
  import opened Callbacks

  /** An inbound request: method, URL without query, query parameters (each possibly repeated), body. */
  datatype Request = Request(verb: string, url: string, params: map<string, seq<string>>, body: string)

  /** The response handed back to the web server. */
  datatype Response =
    | Error(status: int, message: string) // an HTTP error with a message
    | Ok                                  // 200 with an empty body
    | PlainText(text: string)             // 200, text/plain;charset=UTF-8
    | Unhandled                           // a NumberFormatException escaped the handler

  /** The lifecycle hooks invoked while handling a request, in order. */
  datatype Hook =
    | SubscriptionSuccess(sub: Subscription)
    | UnsubscriptionSuccess(sub: Subscription)
    | SubscriptionRejection(sub: Subscription)
    | Notification(sub: Subscription, body: string)

  /** The subscriber's new state, the response, and the hooks that ran. */
  datatype Handled = Handled(state: Subscriber, response: Response, hooks: seq<Hook>)

  /** A parameter counts only when it occurs exactly once. */
  function Param(req: Request, name: string): (v: Option<string>)
    ensures v.Some? <==> name in req.params && |req.params[name]| == 1
    ensures v.Some? ==> v.value == req.params[name][0]
  {
    if name in req.params && |req.params[name]| == 1 then Some(req.params[name][0]) else None
  }

  /** A refusal: the stores are left as they were and no hook runs. */
  function Refuse(st: Subscriber, status: int, message: string): (h: Handled)
    ensures h.state == st && h.response.Error? && h.response.status == status && h.hooks == []
  {
    Handled(st, Error(status, message), [])
  }

  /** The messages of the refusals, as the handlers word them. */
  const MethodNotAllowed: string := "Only GET/POST supported."
  const NoMode: string := "Request must have one 'hub.mode' parameter."
  const UnknownMode: string := "'hub.mode' value must be one of denied, subscribe, or unsubscribe."
  const NoTopic: string := "Request must have one 'hub.topic' parameter."
  const NoChallenge: string := "Request must have one 'hub.challenge' parameter."
  const NoLease: string := "Subscription requests must have one 'hub.lease_seconds' parameter."
  const NoSubscription: string := "No subscription found."
  const TopicMismatch: string := "Topic URL does not match expected."

  /** The base rejection hook: the rejected subscription leaves the registry. */
  function OnSubscriptionRejection(reg: Registry, sub: Subscription): (r: Registry)
    ensures GetById(r, sub.id).None?
    ensures forall id :: id != sub.id ==> GetById(r, id) == GetById(reg, id)
  {
    Remove(reg, sub.id).0
  }

  /** Entry point: POST is a notification, GET manages subscriptions, anything else is 405. */
  function HandleRequest(st: Subscriber, opts: Options, req: Request, now: int): (h: Handled)
    ensures req.verb != "GET" && req.verb != "POST" ==> h == Refuse(st, 405, MethodNotAllowed)
    ensures req.verb == "GET" && Param(req, ModeParam).None? ==> h.state == st && h.response == Error(400, NoMode)
    ensures req.verb == "GET" && Param(req, ModeParam).Some? &&
            Param(req, ModeParam).value !in {DeniedMode, SubscribeMode, UnsubscribeMode} ==>
              h.state == st && h.response.Error? && h.response.status == 400
    ensures req.verb == "POST" ==> h == HandlePost(st, req)
    ensures req.verb == "GET" ==> h == HandleGet(st, opts, req, now)
    ensures req.verb == "POST" ==> h.state == st
    ensures st.Valid() ==> h.state.Valid()
  {
    if req.verb == "POST" then HandlePost(st, req)
    else if req.verb == "GET" then HandleGet(st, opts, req, now)
    else Refuse(st, 405, MethodNotAllowed)
  }

  /** GET: dispatch on the single `hub.mode` parameter. */
  function HandleGet(st: Subscriber, opts: Options, req: Request, now: int): (h: Handled)
    ensures Param(req, ModeParam).None? ==> h == Refuse(st, 400, NoMode)
    ensures Param(req, ModeParam).Some? && Param(req, ModeParam).value !in {DeniedMode, SubscribeMode, UnsubscribeMode} ==>
              h == Refuse(st, 400, UnknownMode)
    ensures Param(req, ModeParam) == Some(DeniedMode) ==> h == HandleDenied(st, opts, req, now)
    ensures Param(req, ModeParam) == Some(SubscribeMode) ==> h == HandleVerification(st, opts, SubscribeMode, req, now)
    ensures Param(req, ModeParam) == Some(UnsubscribeMode) ==> h == HandleVerification(st, opts, UnsubscribeMode, req, now)
    ensures st.Valid() ==> h.state.Valid()
  {
    match Param(req, ModeParam)
    case None => Refuse(st, 400, NoMode)
    case Some(mode) =>
      if mode == DeniedMode then HandleDenied(st, opts, req, now)
      else if mode == SubscribeMode || mode == UnsubscribeMode then HandleVerification(st, opts, mode, req, now)
      else Refuse(st, 400, UnknownMode)
  }

  /**
   * The checks of a verification request, in the order they run: a pending entry for the id
   * (404), one `hub.topic` (400) equal to the pending topic (404), one `hub.challenge` (400),
   * and for subscribe one `hub.lease_seconds` (400). `None` when all pass.
   */
  function VerificationError(st: Subscriber, mode: string, req: Request): (e: Option<(int, string)>)
    ensures var id := IdOf(req.url);
      && (id !in st.pending ==> e == Some((404, NoSubscription)))
      && (id in st.pending && Param(req, TopicParam).None? ==>
            e == Some((400, NoTopic)))
      && (id in st.pending && Param(req, TopicParam).Some? && Param(req, TopicParam).value != st.pending[id].topicUrl ==>
            e == Some((404, TopicMismatch)))
      && (id in st.pending && Param(req, TopicParam) == Some(st.pending[id].topicUrl) && Param(req, ChallengeParam).None? ==>
            e == Some((400, NoChallenge)))
      && (id in st.pending && Param(req, TopicParam) == Some(st.pending[id].topicUrl) && Param(req, ChallengeParam).Some? &&
          mode == SubscribeMode && Param(req, LeaseSecondsParam).None? ==>
            e == Some((400, NoLease)))
    ensures e.None? <==>
      && IdOf(req.url) in st.pending
      && Param(req, TopicParam) == Some(st.pending[IdOf(req.url)].topicUrl)
      && Param(req, ChallengeParam).Some?
      && (mode == SubscribeMode ==> Param(req, LeaseSecondsParam).Some?)
  {
    var id := IdOf(req.url);
    if id !in st.pending then Some((404, NoSubscription))
    else if Param(req, TopicParam).None? then Some((400, NoTopic))
    else if Param(req, TopicParam).value != st.pending[id].topicUrl then Some((404, TopicMismatch))
    else if Param(req, ChallengeParam).None? then Some((400, NoChallenge))
    else if mode == SubscribeMode && Param(req, LeaseSecondsParam).None? then
      Some((400, NoLease))
    else None
  }

  /**
   * The effect of a verification that passed every check: the challenge is echoed; subscribe
   * stores the confirmed subscription and runs the success hook, unsubscribe drops its id from
   * the registry and runs the unsubscription hook. The pending entry stays.
   */
  function Confirm(st: Subscriber, mode: string, p: PendingSubscription, challenge: string, expiration: int): (h: Handled)
    requires mode == SubscribeMode || mode == UnsubscribeMode
    ensures h.response == PlainText(challenge) && h.state.pending == st.pending
    ensures var sub := Subscription(p.callbackId, p.topicUrl, expiration, Active);
      && (mode == SubscribeMode ==>
            && GetById(h.state.registry, p.callbackId) == Some(sub)
            && h.hooks == [SubscriptionSuccess(sub)])
      && (mode == UnsubscribeMode ==>
            && GetById(h.state.registry, p.callbackId).None?
            && h.hooks == [UnsubscriptionSuccess(sub)])
    ensures forall other :: other != p.callbackId ==> GetById(h.state.registry, other) == GetById(st.registry, other)
    ensures st.Valid() ==> h.state.Valid()
  {
    var sub := ToSubscription(p, expiration);
    if mode == SubscribeMode then
      Handled(st.(registry := Add(st.registry, sub)), PlainText(challenge), [SubscriptionSuccess(sub)])
    else
      Handled(st.(registry := Remove(st.registry, sub.id).0), PlainText(challenge), [UnsubscriptionSuccess(sub)])
  }

  /**
   * A verification that passed every check, for pending entry `p`. A lease that
   * `Integer.parseInt` rejects escapes as `Unhandled` and changes nothing; otherwise `p` is
   * confirmed, expiring after the lease (subscribe) or the retry interval (unsubscribe), and the
   * challenge is echoed. The pending entry's own mode is not compared with `hub.mode`.
   */
  function Verified(
    st: Subscriber, opts: Options, mode: string, p: PendingSubscription,
    challenge: string, lease: Option<string>, now: int): (h: Handled)
    requires mode == SubscribeMode || mode == UnsubscribeMode
    requires mode == SubscribeMode ==> lease.Some?
    ensures h.state.pending == st.pending
    ensures h.response.Unhandled? <==> mode == SubscribeMode && ParseInt(lease.value).None?
    ensures h.response.Unhandled? ==> h.state == st && h.hooks == []
    ensures !h.response.Unhandled? && mode == SubscribeMode ==>
              h == Confirm(st, mode, p, challenge, now + ParseInt(lease.value).value)
    ensures mode == UnsubscribeMode ==> h == Confirm(st, mode, p, challenge, now + opts.baseRetryInterval)
    ensures st.Valid() ==> h.state.Valid()
  {
    if mode == SubscribeMode then
      match ParseInt(lease.value)
      case None => Handled(st, Unhandled, [])
      case Some(seconds) => Confirm(st, mode, p, challenge, now + seconds)
    else
      Confirm(st, mode, p, challenge, now + opts.baseRetryInterval)
  }

  /**
   * Verification of intent: a failed check is refused with its status and message and changes
   * nothing; otherwise the pending entry for the id is handled as verified, with the request's
   * challenge and lease.
   */
  function HandleVerification(st: Subscriber, opts: Options, mode: string, req: Request, now: int): (h: Handled)
    requires mode == SubscribeMode || mode == UnsubscribeMode
    ensures VerificationError(st, mode, req).Some? ==>
              h == Refuse(st, VerificationError(st, mode, req).value.0, VerificationError(st, mode, req).value.1)
    ensures VerificationError(st, mode, req).None? ==>
              h == Verified(st, opts, mode, st.pending[IdOf(req.url)], Param(req, ChallengeParam).value,
                            Param(req, LeaseSecondsParam), now)
    ensures h.state.pending == st.pending
    ensures st.Valid() ==> h.state.Valid()
  {
    match VerificationError(st, mode, req)
    case Some((status, message)) => Refuse(st, status, message)
    case None =>
      Verified(st, opts, mode, st.pending[IdOf(req.url)], Param(req, ChallengeParam).value, Param(req, LeaseSecondsParam), now)
  }

  /**
   * The subscription a denial refers to: the registered one for the id, else the pending one
   * converted with an expiration one retry interval from now, else none.
   */
  function DeniedSubscription(st: Subscriber, opts: Options, id: string, now: int): (s: Option<Subscription>)
    ensures s.None? <==> GetById(st.registry, id).None? && id !in st.pending
    ensures GetById(st.registry, id).Some? ==> s == GetById(st.registry, id)
    ensures GetById(st.registry, id).None? && id in st.pending ==>
              s == Some(ToSubscription(st.pending[id], now + opts.baseRetryInterval))
    ensures st.Valid() && s.Some? ==> s.value.id == id
  {
    match GetById(st.registry, id)
    case Some(s) => Some(s)
    case None =>
      if id in st.pending then Some(ToSubscription(st.pending[id], now + opts.baseRetryInterval)) else None
  }

  /**
   * The effect of an accepted denial: the pending entry leaves, the subscription is stored as
   * rejected, and the rejection hook (which removes it again) runs once.
   */
  function Deny(st: Subscriber, sub: Subscription): (h: Handled)
    ensures h.response == Ok
    ensures h.state.pending == st.pending - {sub.id}
    ensures h.hooks == [SubscriptionRejection(sub.(state := Rejected))]
    ensures GetById(h.state.registry, sub.id).None?
    ensures forall other :: other != sub.id ==> GetById(h.state.registry, other) == GetById(st.registry, other)
    ensures st.Valid() ==> h.state.Valid()
  {
    var rejected := sub.(state := Rejected);
    Handled(Subscriber(st.pending - {sub.id}, OnSubscriptionRejection(Add(st.registry, rejected), rejected)),
            Ok, [SubscriptionRejection(rejected)])
  }

  /**
   * Denial: a missing subscription is 404, a missing `hub.topic` 400, a different topic 404;
   * otherwise the denial is accepted. On a valid state an accepted denial leaves no trace of the
   * id in either store.
   */
  function HandleDenied(st: Subscriber, opts: Options, req: Request, now: int): (h: Handled)
    ensures DeniedSubscription(st, opts, IdOf(req.url), now).None? ==> h == Refuse(st, 404, NoSubscription)
    ensures DeniedSubscription(st, opts, IdOf(req.url), now).Some? && Param(req, TopicParam).None? ==>
              h == Refuse(st, 400, NoTopic)
    ensures var found := DeniedSubscription(st, opts, IdOf(req.url), now);
            found.Some? && Param(req, TopicParam).Some? && Param(req, TopicParam).value != found.value.topicUrl ==>
              h == Refuse(st, 404, TopicMismatch)
    ensures h.response.Error? ==> h.state == st && h.hooks == []
    ensures h.response.Error? || h.response.Ok?
    ensures h.response.Ok? <==>
              var found := DeniedSubscription(st, opts, IdOf(req.url), now);
              found.Some? && Param(req, TopicParam) == Some(found.value.topicUrl)
    ensures h.response.Ok? ==> h == Deny(st, DeniedSubscription(st, opts, IdOf(req.url), now).value)
    ensures st.Valid() ==> h.state.Valid()
    ensures st.Valid() && h.response.Ok? ==>
              IdOf(req.url) !in h.state.pending && GetById(h.state.registry, IdOf(req.url)).None?
  {
    match DeniedSubscription(st, opts, IdOf(req.url), now)
    case None => Refuse(st, 404, NoSubscription)
    case Some(sub) =>
      match Param(req, TopicParam)
      case None => Refuse(st, 400, NoTopic)
      case Some(topic) =>
        if topic != sub.topicUrl then Refuse(st, 404, TopicMismatch)
        else Deny(st, sub)
  }

  /** Content distribution: only a confirmed subscription receives it; the stores never change. */
  function HandlePost(st: Subscriber, req: Request): (h: Handled)
    ensures h.state == st
    ensures GetById(st.registry, IdOf(req.url)).None? ==> h == Refuse(st, 404, NoSubscription)
    ensures GetById(st.registry, IdOf(req.url)).Some? ==>
              h.response == Ok && h.hooks == [Notification(GetById(st.registry, IdOf(req.url)).value, req.body)]
  {
    match GetById(st.registry, IdOf(req.url))
    case None => Refuse(st, 404, NoSubscription)
    case Some(sub) => Handled(st, Ok, [Notification(sub, req.body)])
  }
}
