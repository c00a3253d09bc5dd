/** The subscriber's configuration and its two stores. */
module SubscriberState {
  import opened Base
  import opened Subscriptions
  import opened Registry

  /**
   * `baseUrl` prefixes every callback URL; `leaseSeconds` is the lease to request (0: none);
   * `baseRetryInterval` is in seconds.
   */
  datatype Options = Options(baseUrl: string, leaseSeconds: Int32, baseRetryInterval: int)

  /** The defaults: no lease requested, a five-minute retry interval. */
  function DefaultOptions(baseUrl: string): (o: Options)
    ensures o.baseUrl == baseUrl && o.leaseSeconds == 0 && o.baseRetryInterval == 5 * 60
  {
    Options(baseUrl, 0, 300)
  }

  /** The pending map (callback id to in-flight negotiation) and the registry. */
  datatype Subscriber = Subscriber(pending: map<string, PendingSubscription>, registry: Registry) {

    /** Both stores are keyed by the id their entries carry. */
    predicate Valid() {
      && registry.Valid()
      && forall id :: id in pending ==> pending[id].callbackId == id
    }
  }
}
