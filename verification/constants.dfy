/** The WebSub `hub.mode` values and the `hub.*` parameter names the subscriber uses. */
module Constants {

  // Values of hub.mode.
  const SubscribeMode: string := "subscribe"
  const UnsubscribeMode: string := "unsubscribe"
  const DeniedMode: string := "denied"

  // Names of the hub.* parameters.
  const CallbackParam: string := "hub.callback"
  const ChallengeParam: string := "hub.challenge"
  const LeaseSecondsParam: string := "hub.lease_seconds"
  const ModeParam: string := "hub.mode"
  const ReasonParam: string := "hub.reason"
  const SecretParam: string := "hub.secret"
  const TopicParam: string := "hub.topic"
}
