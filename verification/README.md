# WebSub subscriber protocol engine, in Dafny

A model of the subscriber side of the W3C WebSub Recommendation as implemented by the Jenkins
WebSub trigger plugin (`WebSubSubscriber` and `WebSubSubscriptionRegistry`). HTTP is abstracted
away and everything is plain data:

- **Registry** (`registry.dfy`): confirmed subscriptions keyed by id (the unique index), with a
  range query on expiration. `Add` replaces whatever is stored under the id.
- **Subscriber state** (`subscriber_state.dfy`, `subscription.dfy`): the pending map from callback
  id to `PendingSubscription` plus the registry, and the `Options` (base URL, lease to request,
  retry interval in seconds).
- **Hub negotiator** (`negotiator.dfy`): the form body (`hub.mode`, `hub.topic`,
  `hub.callback = baseUrl + "/" + id`, `hub.lease_seconds` only for a non-zero lease), the POST to
  the hub with 307/308 redirects followed and loops detected, and the pending entry recorded on
  202. The hub is a function from (URL, form body) to (status, optional `Location`). Redirect
  targets lie in a finite set, and the number of targets not yet visited decreases on every hop,
  which proves that redirect following terminates.
- **Inbound dispatcher** (`dispatcher.dfy`, `callback_url.dfy`): a pure function from
  (state, options, request, now) to (new state, response, hooks run). It covers verification of
  intent (section 5.3 of WebSub), denial (section 5.2) and content distribution (section 7). The
  id is the text after the last `/` of the request URL, and a query parameter counts only when it
  occurs exactly once.
- **Discovery** (`discovery.dfy`): `Link` headers of the HEAD reply, overridden field by field by
  those of the GET reply, then the `<link>` elements of an HTML document. `Link.valueOf` and URI
  resolution (section 5.2 of RFC 3986) are function parameters. The document is the sequence of
  its `html > head > link` elements.
- **Decimal text** (`decimal.dfy`): `Integer.toString` and `Integer.parseInt` for the
  `hub.lease_seconds` value, with their round trip.
- **Scenarios** (`scenarios.dfy`): whole runs combining the pieces. These include the challenge
  round trip after a hub's 202, a topic mismatch that keeps the pending entry, notification only
  after confirmation, a repeated denial, a two-hub redirect loop, and header and HTML discovery.

`Instant.now()` and `UUID.randomUUID()` are parameters (`now`, `uuid`). Instants and durations are
whole seconds.

The code is followed where it differs from the protocol's prose:
- Verification does not consume the pending entry. Only a successful denial removes it.
- Verification does not compare `hub.mode` with the pending entry's mode.
- A missing `hub.topic` is 400, while a mismatched one is 404.
- The HTML scan returns its result even when a field is still missing.
- The URL a negotiation starts from is never added to the visited list. A loop through it is
  therefore noticed one round late (`Scenarios.StartingUrlPostedTwice`).
- A repeated denial is not an idempotent upsert. The base rejection hook removes the rejected
  subscription, so the second denial finds nothing and gets 404 (`Scenarios.SecondDenialNotFound`).

## Model

| member | source | states |
|---|---|---|
| `Subscriptions.ToSubscription` | src/main/java/io/jenkins/plugins/websub/subscriber/WebSubSubscriber.java:110-112 | a pending negotiation becomes an ACTIVE subscription with the callback id, the topic and the given expiration |
| `SubscriberState.DefaultOptions` | src/main/java/io/jenkins/plugins/websub/subscriber/WebSubSubscriber.java:115-131 | by default no lease is requested and the retry interval is five minutes |
| `Registry.GetById` | src/main/java/io/jenkins/plugins/websub/subscriber/WebSubSubscriptionRegistry.java:34-40 | zero or one result; in a valid registry the result is stored and carries the id asked for, and it is absent exactly when no stored subscription has that id |
| `Registry.UniqueIds` | src/main/java/io/jenkins/plugins/websub/subscriber/WebSubSubscriptionRegistry.java:30 | in a valid registry two stored subscriptions with the same id are the same subscription |
| `Registry.GetExpiresBefore` | src/main/java/io/jenkins/plugins/websub/subscriber/WebSubSubscriptionRegistry.java:42-46 | the list holds exactly the stored subscriptions expiring strictly before t, each once |
| `Registry.Add` | src/main/java/io/jenkins/plugins/websub/subscriber/WebSubSubscriptionRegistry.java:48-50 | afterwards the id finds the added subscription; every other id finds what it found before; validity is kept |
| `Registry.Remove` | src/main/java/io/jenkins/plugins/websub/subscriber/WebSubSubscriptionRegistry.java:52-55 | returns true iff the id was stored; afterwards the id finds nothing and other ids are unaffected; an absent id leaves the registry unchanged |
| `Decimal.ParseInt` | src/main/java/io/jenkins/plugins/websub/subscriber/WebSubSubscriber.java:328-329 | a lease text is accepted exactly when it is an optional sign then one or more ASCII digits whose signed value fits in 32 bits, and the result is that signed value |
| `Decimal.ParseIntExamples` | src/main/java/io/jenkins/plugins/websub/subscriber/WebSubSubscriber.java:328-329 | `45`, `+45` and `045` parse to 45, `-45` to -45, `-0` to 0; the empty text, a lone sign, a trailing letter and a leading space are rejected |
| `Decimal.ParseShowRoundTrip` | src/main/java/io/jenkins/plugins/websub/subscriber/WebSubSubscriber.java:228-229 | the lease text the subscriber sends parses back to the same int |
| `Callbacks.IdOf` | src/main/java/io/jenkins/plugins/websub/subscriber/WebSubSubscriber.java:384-388 | the id is the longest slash-free suffix of the request URL, preceded by a `/` unless it is the whole URL |
| `Callbacks.IdOfCallbackUrl` | src/main/java/io/jenkins/plugins/websub/subscriber/WebSubSubscriber.java:386-387 | reading the id back from `baseUrl + "/" + id` gives the id whenever it has no `/` |
| `Negotiator.FormBody` | src/main/java/io/jenkins/plugins/websub/subscriber/WebSubSubscriber.java:223-230 | the body carries mode, topic and the callback URL built from the base URL and id; `hub.lease_seconds` is present iff the lease is non-zero, and then it parses back to the lease |
| `Negotiator.SendImpl` | src/main/java/io/jenkins/plugins/websub/subscriber/WebSubSubscriber.java:219-263 | terminates; on success the only change is the pending entry for the callback id; the visited list only grows and never holds a duplicate |
| `Negotiator.SendImplStep` | src/main/java/io/jenkins/plugins/websub/subscriber/WebSubSubscriber.java:244-262 | one round either follows a 307/308 to a URL not yet visited, with that URL appended to the trail, or stops with the trail unchanged and an outcome that agrees with the reply |
| `Negotiator.SendImplFollowsRedirects` | src/main/java/io/jenkins/plugins/websub/subscriber/WebSubSubscriber.java:250-257 | each URL added to the visited list is the Location of a 307/308 answered to the URL posted before it |
| `Negotiator.SendImplFollowsHub` | src/main/java/io/jenkins/plugins/websub/subscriber/WebSubSubscriber.java:244-262 | the outcome is decided by the last reply: 202 succeeds, a redirect without Location is a protocol error, one to a visited URL is a loop, any other status fails with that status |
| `Negotiator.Subscribe` | src/main/java/io/jenkins/plugins/websub/subscriber/WebSubSubscriber.java:178-187 | succeeds exactly when the redirect-following POST succeeds and otherwise fails with its error; a 202 to the first POST succeeds; on success the registry is unchanged and the pending map gains the subscribe negotiation with the configured lease; validity is kept |
| `Negotiator.SubscribeFollowsHub` | src/main/java/io/jenkins/plugins/websub/subscriber/WebSubSubscriber.java:178-187 | the URLs `subscribe` visits form a 307/308 chain from the hub URL; it succeeds exactly when the last URL posted to answers 202, and otherwise fails with the error that reply dictates |
| `Negotiator.SubscribeWithNewId` | src/main/java/io/jenkins/plugins/websub/subscriber/WebSubSubscriber.java:199-204 | the generated id is returned and used as the callback id of `subscribe`: on success the pending map gains exactly the subscribe negotiation for the topic under that id, the registry is unchanged and validity is kept |
| `Negotiator.Unsubscribe` | src/main/java/io/jenkins/plugins/websub/subscriber/WebSubSubscriber.java:206-207 | the stub changes nothing |
| `Dispatcher.Param` | src/main/java/io/jenkins/plugins/websub/subscriber/WebSubSubscriber.java:398-403 | a parameter has a value exactly when it occurs once, and then it is that occurrence |
| `Dispatcher.HandleRequest` | src/main/java/io/jenkins/plugins/websub/subscriber/WebSubSubscriber.java:273-285 | POST is handled as a notification and GET by the mode dispatch; other methods get 405, a GET without a single valid `hub.mode` gets 400, none of these nor a POST changes either store, and store validity is kept |
| `Dispatcher.HandleGet` | src/main/java/io/jenkins/plugins/websub/subscriber/WebSubSubscriber.java:294-308 | `denied` goes to the denial handler, `subscribe` and `unsubscribe` to verification of intent with that mode; no single `hub.mode` is 400, a mode outside denied/subscribe/unsubscribe is 400, both leave the stores unchanged and run no hook |
| `Dispatcher.VerificationError` | src/main/java/io/jenkins/plugins/websub/subscriber/WebSubSubscriber.java:312-332 | verification checks run in order: no pending entry 404, no single topic 400, other topic 404, no challenge 400, subscribe without lease 400; none fails exactly when all inputs are present and the topic matches |
| `Dispatcher.Confirm` | src/main/java/io/jenkins/plugins/websub/subscriber/WebSubSubscriber.java:336-353 | a confirmation echoes the challenge and keeps the pending map; subscribe makes the id find (id, pending topic, expiration, ACTIVE) and runs the success hook; unsubscribe makes the id find nothing and runs the unsubscription hook; every other id is untouched and validity is kept |
| `Dispatcher.Verified` | src/main/java/io/jenkins/plugins/websub/subscriber/WebSubSubscriber.java:326-337 | after the checks pass, a lease `Integer.parseInt` rejects escapes unhandled and changes nothing; a parsed lease confirms with expiration now + lease; unsubscribe confirms with expiration now + retry interval |
| `Dispatcher.HandleVerification` | src/main/java/io/jenkins/plugins/websub/subscriber/WebSubSubscriber.java:310-354 | a failed check is refused with its status and message and changes nothing; otherwise the pending entry for the request's id is verified with the request's challenge and lease; the pending map never changes |
| `Dispatcher.DeniedSubscription` | src/main/java/io/jenkins/plugins/websub/subscriber/WebSubSubscriber.java:359-364 | a denial refers to the registered subscription for the id when there is one, else to the pending entry expiring one retry interval from now, and to nothing exactly when neither exists |
| `Dispatcher.Deny` | src/main/java/io/jenkins/plugins/websub/subscriber/WebSubSubscriber.java:372-377 | an accepted denial drops the pending entry, leaves no registry entry for the id, runs the rejection hook once with the subscription marked REJECTED, and leaves every other id alone |
| `Dispatcher.HandleDenied` | src/main/java/io/jenkins/plugins/websub/subscriber/WebSubSubscriber.java:356-378 | no subscription is 404, a found subscription with no single topic 400 and with another topic 404, all without change; the denial is accepted exactly when the topic matches, and then on a valid state no trace of the id remains in either store |
| `Dispatcher.OnSubscriptionRejection` | src/main/java/io/jenkins/plugins/websub/subscriber/WebSubSubscriber.java:527-530 | the base rejection hook leaves no entry for the rejected id and leaves every other id alone |
| `Dispatcher.HandlePost` | src/main/java/io/jenkins/plugins/websub/subscriber/WebSubSubscriber.java:410-415 | a registered id gets 200 and the notification hook once with the body, any other id 404 even if pending; the stores never change |
| `Discovery.FirstWithRel` | src/main/java/io/jenkins/plugins/websub/subscriber/WebSubSubscriber.java:504-508 | absent iff no link has the rel, otherwise the URL of the first link that has it |
| `Discovery.RelPositions` | src/main/java/io/jenkins/plugins/websub/subscriber/WebSubSubscriber.java:499-503 | exactly the positions of links with the rel, in increasing order |
| `Discovery.AllWithRelAtPositions` | src/main/java/io/jenkins/plugins/websub/subscriber/WebSubSubscriber.java:499-510 | grouping by rel keeps every link of that rel and their header order |
| `Discovery.CheckHeaders` | src/main/java/io/jenkins/plugins/websub/subscriber/WebSubSubscriber.java:489-512 | topic is the first `self` link, hubs are all `hub` links in header order, each resolved against the reply's URL |
| `Discovery.Merge` | src/main/java/io/jenkins/plugins/websub/subscriber/WebSubSubscriber.java:445-451 | a GET value replaces the HEAD value only where the GET supplies one |
| `Discovery.ScanLinksTopic` | src/main/java/io/jenkins/plugins/websub/subscriber/WebSubSubscriber.java:470-477 | the link loop sets a needed topic to the first `self` link that has both href and rel, and otherwise leaves it |
| `Discovery.ScanLinksHubs` | src/main/java/io/jenkins/plugins/websub/subscriber/WebSubSubscriber.java:470-480 | the link loop appends every `hub` link that has both href and rel, in document order, only when hubs are needed |
| `Discovery.Fallback` | src/main/java/io/jenkins/plugins/websub/subscriber/WebSubSubscriber.java:453-485 | complete headers are returned as they are; otherwise a missing media type and any type other than text/html are errors, and text/html never fails and keeps the fields the headers supplied |
| `Discovery.FallbackFromDocument` | src/main/java/io/jenkins/plugins/websub/subscriber/WebSubSubscriber.java:459-482 | an HTML fallback yields the header fields where present, else the first `self` link and all `hub` links of the document, even if still incomplete |
| `Discovery.Discover` | src/main/java/io/jenkins/plugins/websub/subscriber/WebSubSubscriber.java:429-485 | complete HEAD headers are returned unchanged; otherwise GET headers override HEAD field by field, a complete merge is returned, a missing media type or one other than text/html is an error, and a document scan keeps every field the merge supplied |
| `Discovery.DiscoverFromDocument` | src/main/java/io/jenkins/plugins/websub/subscriber/WebSubSubscriber.java:459-482 | when even the merged headers are incomplete and the GET is text/html, `discover` keeps the header fields and fills a missing topic with the first complete `self` link and missing hubs with all complete `hub` links of the document |
| `Scenarios.VerificationRoundTrip` | src/test/java/io/jenkins/plugins/websub/subscriber/TestWebSubSubscriber.java:240-309 | after a hub's 202, the verification GET to the callback URL returns the challenge and the registry then holds (id, topic, now + lease) |
| `Scenarios.VerificationConfirms` | src/main/java/io/jenkins/plugins/websub/subscriber/WebSubSubscriber.java:310-354 | a subscribe verification for a pending id with its topic and a lease written by `Integer.toString` confirms that entry with expiration now + lease |
| `Scenarios.TopicMismatchKeepsPending` | src/test/java/io/jenkins/plugins/websub/subscriber/TestWebSubSubscriber.java:319-353 | a verification with another topic gets 404 and changes no store |
| `Scenarios.NoNotificationWhilePending` | src/main/java/io/jenkins/plugins/websub/subscriber/WebSubSubscriber.java:394-396 | a POST for an id that is only pending gets 404 and runs no hook |
| `Scenarios.NotificationAfterVerification` | src/main/java/io/jenkins/plugins/websub/subscriber/WebSubSubscriber.java:410-415 | once verified, a POST runs the notification hook once with its body and gets 200 |
| `Scenarios.DenialOfPending` | src/main/java/io/jenkins/plugins/websub/subscriber/WebSubSubscriber.java:356-378 | a denial naming the pending topic at the callback URL gets 200, drops the pending entry, leaves no registry entry, and runs the rejection hook once with the subscription rejected and expiring one retry interval from now |
| `Scenarios.SecondDenialNotFound` | src/main/java/io/jenkins/plugins/websub/subscriber/WebSubSubscriber.java:372-377 | after a successful denial the same denial gets 404 and changes nothing |
| `Scenarios.StartingUrlPostedTwice` | src/main/java/io/jenkins/plugins/websub/subscriber/WebSubSubscriber.java:186 | with hubs a and b redirecting to each other, the loop is reported only after a is posted to a second time |
| `Scenarios.HeaderDiscovery` | src/test/java/io/jenkins/plugins/websub/subscriber/TestWebSubSubscriber.java:105-124 | `Link` headers for hub and self on the HEAD reply give that topic and that single hub |
| `Scenarios.HtmlDiscovery` | src/test/java/io/jenkins/plugins/websub/subscriber/TestWebSubSubscriber.java:150-170 | with no `Link` headers, an HTML head linking hub and self gives that topic and that single hub |

## Left out

- HTTP transport: building and executing requests, reading bodies and charsets, `IOException`s, and the status of discovery replies (which the code ignores too). Replies are data and the hub is a function.
- Parsing libraries: `Link.valueOf` and `URI.resolve`/`absUrl` are function parameters. A `Link` header without `rel` is not modelled (its null key would make `groupingBy` throw). The jsoup HTML parse and the `html > head > link` selection are replaced by the list of selected elements.
- Media types are compared as the exact strings `text` and `html`; the HTTP library's own normalisation is not modelled.
- `Decimal.ParseInt` accepts only ASCII digits; `Integer.parseInt` also accepts other Unicode decimal digits.
- A lease that `Integer.parseInt` rejects makes the handler throw. It is the distinct response `Unhandled`, and its HTTP status depends on the web server.
- The registry's duplicate-id behaviour on `add` is the collection library's own, which is not part of this model. `Registry.Add` replaces by id, as the denial path's caller intends.
- Sub-second precision of `Instant` and `Duration` is not modelled, and neither is the overflow of `Instant.plus`.
- Hooks other than the base rejection hook only log, so they are recorded as events without effect. `handleSubscriptionFailed`, `handleUnsubscriptionFailed` and `handleSubscriptionRefresh` are never called by the engine and are not modelled.
- Logging, the response writer, `setTransport`, the constructors, and the Jenkins integration (triggers, listeners, request routing, UI) are out of scope.
- Dispatcher.Param: an absent parameter has no value, exactly like a repeated one, so the handlers answer it with their 400 refusal. In the source `getParameterValues` returns null for an absent name and the length test throws a `NullPointerException`, so such a request fails unhandled.
- Discovery.DocumentLinks: `<link>` elements are resolved against the topic URL. jsoup's `absUrl` would honour a `<base href>` element in the document head, which is not modelled.
- Negotiator.SendImpl: termination assumes every `Location` the hub can return comes from a finite set of URLs. A hub that names ever-new URLs would make the source recurse without bound, and the model does not cover that run.
