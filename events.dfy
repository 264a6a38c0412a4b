/**
 * The three conference lifecycle callbacks of the JitsiMeet SDK and the names
 * under which the bridge forwards them: as a method-channel call in the
 * simple variant, or as an `"event"` tag added to the payload in the
 * full-screen variant.
 */
module Events {
  import opened Wrappers
  import opened Values

  const ON_JOINED: string := "on_joined"
  const ON_WILL_JOIN: string := "on_will_join"
  const ON_TERMINATED: string := "on_terminated"

  /** The payload key the full-screen variant adds. */
  const EVENT_KEY: Value := Str("event")

  datatype LifecycleEvent = WillJoin | Joined | Terminated

  /** The outbound channel method of the simple variant. */
  function ChannelMethod(e: LifecycleEvent): (r: string) {
    match e
    case WillJoin => ON_WILL_JOIN
    case Joined => ON_JOINED
    case Terminated => ON_TERMINATED
  }

  /** The `"event"` value of the full-screen variant. */
  function EventTag(e: LifecycleEvent): (r: string) {
    match e
    case WillJoin => "onConferenceWillJoin"
    case Joined => "onConferenceJoined"
    case Terminated => "onConferenceTerminated"
  }

  /** Both naming schemes tell the three events apart. */
  lemma NamesDistinguishEvents(e1: LifecycleEvent, e2: LifecycleEvent)
    requires e1 != e2
    ensures ChannelMethod(e1) != ChannelMethod(e2)
    ensures EventTag(e1) != EventTag(e2)
  {
  }

  /**
   * `var mutatedData = data; mutatedData?.updateValue(tag, forKey: "event")`:
   * a copy of the payload (nil stays nil) in which `"event"` is `tag` and
   * every other key keeps its value.
   */
  function Tagged(data: Option<Payload>, tag: string): (r: Option<Payload>)
    ensures r.Some? <==> data.Some?
    ensures r.Some? ==> r.value.Keys == data.value.Keys + {EVENT_KEY}
    ensures r.Some? ==> r.value[EVENT_KEY] == Str(tag)
    ensures r.Some? ==> forall k :: k in data.value && k != EVENT_KEY ==> r.value[k] == data.value[k]
  {
    match data
    case None => None
    case Some(m) => Some(m[EVENT_KEY := Str(tag)])
  }

  /** Removing the tag gives back the payload without any `"event"` it had. */
  lemma UntagRecoversPayload(data: Payload, tag: string)
    ensures Tagged(Some(data), tag).value - {EVENT_KEY} == data - {EVENT_KEY}
  {
  }
}
