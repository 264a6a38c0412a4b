/**
 * `JitsiViewController`, the full-screen variant of the bridge: a screen that
 * holds the session parameters, builds the conference options when it
 * appears, and forwards the SDK's lifecycle callbacks to the application's
 * event sink with an `"event"` tag.
 */
module FullScreen {
  import opened Wrappers
  import opened Values
  import opened Options
  import opened Events
  import opened HexColor

  class JitsiViewController {
    /** Whether `eventSink` is set; the sink itself is outside the model. */
    var hasEventSink: bool
    /** The payloads the event sink has received, oldest first. */
    var delivered: seq<Option<Payload>>
    var roomName: Option<string>
    var serverUrl: Option<Url>
    var subject: Option<string>
    var audioOnly: Option<bool>
    var audioMuted: Option<bool>
    var videoMuted: Option<bool>
    var token: Option<string>
    var featureFlags: Option<map<string, bool>>
    var appBarColor: Option<Rgba>
    var userInfo: UserInfo

    /**
     * The property initialisers: no sink, no room, server, subject or token,
     * the three media flags false, an empty flag dictionary, an empty
     * identity and the bar colour `#00000000` (`scan` reads its digits).
     */
    constructor (scan: string -> Option<nat>)
      ensures !hasEventSink && delivered == []
      ensures roomName == None && serverUrl == None && subject == None && token == None
      ensures audioOnly == Some(false) && audioMuted == Some(false) && videoMuted == Some(false)
      ensures featureFlags == Some(map[]) && userInfo == EMPTY_USER_INFO
      ensures appBarColor == ParseHexColor("#00000000", scan)
    {
      hasEventSink := false;
      delivered := [];
      roomName := None;
      serverUrl := None;
      subject := None;
      audioOnly := Some(false);
      audioMuted := Some(false);
      videoMuted := Some(false);
      token := None;
      featureFlags := Some(map[]);
      appBarColor := ParseHexColor("#00000000", scan);
      userInfo := EMPTY_USER_INFO;
    }

    /**
     * The options `openJitsiMeet` joins with: the welcome page on, the stored
     * room, server, subject, token and identity, each media flag the stored
     * value or false when nil, and every stored flag over the SDK's flags.
     */
    method OpenJitsiMeet(defaults: ConferenceOptions) returns (builder: ConferenceOptions)
      ensures builder.welcomePageEnabled
      ensures builder.room == roomName && builder.serverURL == serverUrl
      ensures builder.subject == subject && builder.token == token
      ensures builder.userInfo == Some(userInfo)
      ensures builder.audioOnly == audioOnly.GetOr(false)
      ensures builder.audioMuted == audioMuted.GetOr(false)
      ensures builder.videoMuted == videoMuted.GetOr(false)
      ensures featureFlags.None? ==> builder.featureFlags == defaults.featureFlags
      ensures featureFlags.Some? ==> builder.featureFlags.Keys == defaults.featureFlags.Keys + featureFlags.value.Keys
      ensures featureFlags.Some? ==> forall k :: k in featureFlags.value ==> builder.featureFlags[k] == featureFlags.value[k]
      ensures forall k :: k in defaults.featureFlags && (featureFlags.None? || k !in featureFlags.value) ==>
        builder.featureFlags[k] == defaults.featureFlags[k]
    {
      builder := defaults;
      builder := builder.(welcomePageEnabled := true);
      builder := builder.(room := roomName);
      builder := builder.(serverURL := serverUrl);
      builder := builder.(subject := subject);
      builder := builder.(userInfo := Some(userInfo));
      builder := builder.(audioOnly := audioOnly.GetOr(false));
      builder := builder.(audioMuted := audioMuted.GetOr(false));
      builder := builder.(videoMuted := videoMuted.GetOr(false));
      builder := builder.(token := token);
      if featureFlags.Some? {
        ghost var writes;
        builder, writes := WriteFlags(builder, featureFlags.value);
      }
    }

    /** Hands a payload to the event sink, when one is set (`self.eventSink?(...)`). */
    method Deliver(data: Option<Payload>)
      modifies this`delivered
      ensures delivered == old(delivered) + (if hasEventSink then [data] else [])
    {
      if hasEventSink {
        delivered := delivered + [data];
      }
    }

    /** `conferenceWillJoin`: the payload tagged `onConferenceWillJoin`. */
    method ConferenceWillJoin(data: Option<Payload>)
      modifies this`delivered
      ensures delivered == old(delivered) + (if hasEventSink then [Tagged(data, EventTag(WillJoin))] else [])
    {
      var mutatedData := Tagged(data, "onConferenceWillJoin");
      Deliver(mutatedData);
    }

    /** `conferenceJoined`: the payload tagged `onConferenceJoined`. */
    method ConferenceJoined(data: Option<Payload>)
      modifies this`delivered
      ensures delivered == old(delivered) + (if hasEventSink then [Tagged(data, EventTag(Joined))] else [])
    {
      var mutatedData := Tagged(data, "onConferenceJoined");
      Deliver(mutatedData);
    }

    /**
     * `conferenceTerminated`: the payload tagged `onConferenceTerminated`
     * (the hiding and dismissal it then schedules are outside the model).
     */
    method ConferenceTerminated(data: Option<Payload>)
      modifies this`delivered
      ensures delivered == old(delivered) + (if hasEventSink then [Tagged(data, EventTag(Terminated))] else [])
    {
      var mutatedData := Tagged(data, "onConferenceTerminated");
      Deliver(mutatedData);
    }
  }
}
