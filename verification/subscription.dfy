/** Confirmed and in-flight subscriptions. Instants and durations are whole seconds. */
module Subscriptions {
  import opened Base

  datatype State = Active | Rejected | Failed

  /** A subscription known to the registry; a freshly built one is `Active`. */
  datatype Subscription = Subscription(id: string, topicUrl: string, expiration: int, state: State)

  /** A negotiation the hub has acknowledged (202) but not yet verified. */
  datatype PendingSubscription = PendingSubscription(
    mode: string,
    hubUrl: string,
    topicUrl: string,
    callbackId: string,
    leaseSeconds: Int32)

  /** The confirmed subscription a pending one turns into, expiring at `expiration`. */
  function ToSubscription(p: PendingSubscription, expiration: int): (s: Subscription)
    ensures s.id == p.callbackId && s.topicUrl == p.topicUrl
    ensures s.expiration == expiration && s.state == Active
  {
    Subscription(p.callbackId, p.topicUrl, expiration, Active)
  }
}
