/**
 * `JitsiMeetController2`, the simple variant of the bridge: it answers the
 * application's method calls, keeps the feature flags and (optionally) the
 * user identity across joins, builds the conference options at join time and
 * forwards the SDK's lifecycle callbacks over the method channel.
 */
module Bridge {
  import opened Wrappers
  import opened Values
  import opened Options
  import opened Events

  // Inbound method names.
  const JOIN_ROOM: string := "join_room"
  const LEAVE_ROOM: string := "leave_room"
  const SET_USER: string := "set_user"
  const SET_FEATURE_FLAG: string := "set_feature_flag"

  // Parameter keys.
  const ROOM: string := "room"
  const AUDIO_MUTED: string := "audioMuted"
  const VIDEO_MUTED: string := "videoMuted"
  const AUDIO_ONLY: string := "audioOnly"
  const USERNAME: string := "displayName"
  const EMAIL: string := "email"
  const AVATAR_URL: string := "avatarURL"
  const FLAG: string := "flag"
  const FLAG_VALUE: string := "flag_value"

  /** The conferencing server every join goes to. */
  const SERVER_URL: Url := "https://tele.spotcare.in/"

  /** The flags the join path writes to false before the stored flags. */
  const PROTECTED_FLAGS: map<string, bool> :=
    map["pip.enabled" := false, "chat.enabled" := false, "meeting-password.enabled" := false]

  /** The flag writes of the join path before the stored flags, in order (lines 88 and 101-105). */
  const PROTECTED_WRITES: seq<(string, bool)> :=
    [("pip.enabled", false), ("pip.enabled", false), ("chat.enabled", false), ("meeting-password.enabled", false)]

  /** The commands `handle` recognises. */
  datatype Command = JoinRoomCall | LeaveRoomCall | SetUserCall | SetFeatureFlagCall

  function MethodName(c: Command): (r: string) {
    match c
    case JoinRoomCall => JOIN_ROOM
    case LeaveRoomCall => LEAVE_ROOM
    case SetUserCall => SET_USER
    case SetFeatureFlagCall => SET_FEATURE_FLAG
  }

  /** The `switch call.name` of `handle`: the command a method name selects, if any. */
  function Route(name: string): (r: Option<Command>)
    ensures r.Some? <==> name in {JOIN_ROOM, LEAVE_ROOM, SET_USER, SET_FEATURE_FLAG}
    ensures r.Some? ==> MethodName(r.value) == name
  {
    if name == JOIN_ROOM then Some(JoinRoomCall)
    else if name == LEAVE_ROOM then Some(LeaveRoomCall)
    else if name == SET_USER then Some(SetUserCall)
    else if name == SET_FEATURE_FLAG then Some(SetFeatureFlagCall)
    else None
  }

  /** Every command is reached by its own method name. */
  lemma RouteInvertsMethodName(c: Command)
    ensures Route(MethodName(c)) == Some(c)
  {
  }

  /** `result(nil)` or `result(FlutterMethodNotImplemented)`. */
  datatype Reply = Ack | NotImplemented

  /** A forced cast (`as!`) that fails, which stops the program. */
  datatype Fault = ArgumentsNotDictionary | RoomNotString

  /** How a call to `handle` ends: with a reply, or trapped in a handler before replying. */
  datatype Outcome = Replied(reply: Reply) | Trapped(fault: Fault)

  /** The call into the SDK's `JitsiMeetView` that a command makes, if any. */
  datatype SdkCall = NoCall | Join(options: ConferenceOptions) | Leave

  /** A `FlutterMethodCall`. */
  datatype MethodCall = MethodCall(name: string, arguments: Arguments)

  /** A call the bridge makes on its method channel: `invokeMethod(name, arguments:)`. */
  datatype Invocation = Invocation(name: string, arguments: Option<Payload>)

  /** The fields `joinRoom` reads from its arguments. */
  datatype JoinRequest = JoinRequest(room: string, audioMuted: Option<bool>, videoMuted: Option<bool>, audioOnly: Option<bool>)

  /**
   * The casts at the start of `joinRoom`: the arguments must be a dictionary
   * and `room` a string (both are `as!`); the three media flags are kept only
   * when they are booleans.
   */
  function DecodeJoin(arguments: Arguments): (r: Result<JoinRequest, Fault>)
    ensures arguments.NotDictionary? ==> r == Failure(ArgumentsNotDictionary)
    ensures arguments.Dictionary? ==>
      (r.Success? <==> ROOM in arguments.params && arguments.params[ROOM].Str?)
    ensures arguments.Dictionary? && r.Failure? ==> r.error == RoomNotString
    ensures r.Success? ==>
      && arguments.Dictionary?
      && arguments.params[ROOM] == Str(r.value.room)
      && r.value.audioMuted == AsBool(arguments.params, AUDIO_MUTED)
      && r.value.videoMuted == AsBool(arguments.params, VIDEO_MUTED)
      && r.value.audioOnly == AsBool(arguments.params, AUDIO_ONLY)
  {
    match arguments
    case NotDictionary => Failure(ArgumentsNotDictionary)
    case Dictionary(params) =>
      match AsString(params, ROOM)
      case None => Failure(RoomNotString)
      case Some(room) =>
        Success(JoinRequest(room, AsBool(params, AUDIO_MUTED), AsBool(params, VIDEO_MUTED), AsBool(params, AUDIO_ONLY)))
  }

  /**
   * The options `joinRoom` hands to the SDK: the room, the fixed server's
   * address as `URL(string:)` parses it, no
   * welcome page, the stored identity, each media flag given in the call
   * (or else the SDK's), and the flags: the SDK's, then the protected ones
   * at false, then the stored ones, each later write winning.
   */
  ghost function JoinedOptions(req: JoinRequest, defaults: ConferenceOptions, user: Option<UserInfo>, features: map<string, bool>, parseUrl: string -> Option<Url>): (r: ConferenceOptions)
    ensures r.subject == defaults.subject && r.token == defaults.token
    ensures r.featureFlags.Keys == defaults.featureFlags.Keys + PROTECTED_FLAGS.Keys + features.Keys
    ensures forall k :: k in features ==> r.featureFlags[k] == features[k]
  {
    defaults.(
      room := Some(req.room),
      serverURL := parseUrl(SERVER_URL),
      welcomePageEnabled := false,
      userInfo := user,
      audioMuted := req.audioMuted.GetOr(defaults.audioMuted),
      videoMuted := req.videoMuted.GetOr(defaults.videoMuted),
      audioOnly := req.audioOnly.GetOr(defaults.audioOnly),
      featureFlags := defaults.featureFlags + PROTECTED_FLAGS + features)
  }

  /**
   * The flags at join: a stored flag always has the stored value; a protected
   * flag is false exactly when it is not stored as true; any other flag the
   * SDK had keeps its value; no other flag appears.
   */
  lemma JoinedFlags(req: JoinRequest, defaults: ConferenceOptions, user: Option<UserInfo>, features: map<string, bool>, parseUrl: string -> Option<Url>)
    ensures var flags := JoinedOptions(req, defaults, user, features, parseUrl).featureFlags;
      && flags.Keys == defaults.featureFlags.Keys + PROTECTED_FLAGS.Keys + features.Keys
      && (forall k :: k in features ==> flags[k] == features[k])
      && (forall k :: k in PROTECTED_FLAGS ==> (flags[k] == false <==> k !in features || !features[k]))
      && (forall k :: k in defaults.featureFlags && k !in PROTECTED_FLAGS && k !in features ==> flags[k] == defaults.featureFlags[k])
  {
  }

  /**
   * Because the protected flags are written before the stored ones, a stored
   * `chat.enabled: true` turns chat back on, although the comments beside
   * those writes say they disable it.
   */
  lemma StoredFlagOverridesProtected(req: JoinRequest, defaults: ConferenceOptions, user: Option<UserInfo>, features: map<string, bool>, parseUrl: string -> Option<Url>)
    requires "chat.enabled" in features && features["chat.enabled"]
    ensures JoinedOptions(req, defaults, user, features, parseUrl).featureFlags["chat.enabled"]
  {
  }

  /** Joining with only a room leaves the media flags at the SDK's values and turns the protected flags off. */
  lemma JoinWithRoomOnly(defaults: ConferenceOptions, parseUrl: string -> Option<Url>)
    ensures DecodeJoin(Dictionary(map[ROOM := Str("abc")])) == Success(JoinRequest("abc", None, None, None))
    ensures var o := JoinedOptions(JoinRequest("abc", None, None, None), defaults, None, map[], parseUrl);
      && o.room == Some("abc") && o.serverURL == parseUrl(SERVER_URL) && !o.welcomePageEnabled
      && o.audioMuted == defaults.audioMuted && o.videoMuted == defaults.videoMuted && o.audioOnly == defaults.audioOnly
      && o.featureFlags["pip.enabled"] == false && o.featureFlags["chat.enabled"] == false
      && o.featureFlags["meeting-password.enabled"] == false
  {
  }

  /** A stored `e2ee.enabled: true` reaches the options beside the three protected flags. */
  lemma JoinWithStoredFlag(req: JoinRequest, defaults: ConferenceOptions, user: Option<UserInfo>, parseUrl: string -> Option<Url>)
    ensures var flags := JoinedOptions(req, defaults, user, map["e2ee.enabled" := true], parseUrl).featureFlags;
      && flags["e2ee.enabled"]
      && !flags["pip.enabled"] && !flags["chat.enabled"] && !flags["meeting-password.enabled"]
  {
  }

  /**
   * The casts of `setFeatureFlag`: the flag update to make, present only when
   * `flag` is a string and `flag_value` a boolean.
   */
  function FlagArgument(p: Params): (r: Option<(string, bool)>)
    ensures r.Some? <==> FLAG in p && p[FLAG].Str? && FLAG_VALUE in p && p[FLAG_VALUE].Boolean?
    ensures r.Some? ==> p[FLAG] == Str(r.value.0) && p[FLAG_VALUE] == Boolean(r.value.1)
  {
    var flag := AsString(p, FLAG);
    var value := AsBool(p, FLAG_VALUE);
    if flag.Some? && value.Some? then Some((flag.value, value.value)) else None
  }

  /** The features after `setFeatureFlag` with parameters `p`. */
  function FlagsAfter(features: map<string, bool>, p: Params): (r: map<string, bool>)
    ensures FlagArgument(p).None? ==> r == features
    ensures FlagArgument(p).Some? ==>
      var (flag, value) := FlagArgument(p).value;
      flag in r && r[flag] == value && r - {flag} == features - {flag}
  {
    match FlagArgument(p)
    case Some((flag, value)) => features[flag := value]
    case None => features
  }

  /**
   * The flags `joinRoom` evidently means to send: the comments beside the
   * protected writes say they disable those features, so the protected
   * flags would be written after the stored ones.
   */
  ghost function IntendedJoinFlags(defaults: ConferenceOptions, features: map<string, bool>): (r: map<string, bool>)
    ensures r.Keys == defaults.featureFlags.Keys + features.Keys + PROTECTED_FLAGS.Keys
    ensures forall k :: k in PROTECTED_FLAGS ==> r[k] == false
    ensures forall k :: k in r && k !in PROTECTED_FLAGS ==>
      r[k] == (if k in features then features[k] else defaults.featureFlags[k])
  {
    defaults.featureFlags + features + PROTECTED_FLAGS
  }

  /**
   * With that order every protected flag is off whatever is stored, every
   * other stored flag keeps its stored value and every other flag of the
   * SDK keeps the SDK's.
   */
  lemma IntendedProtectedForced(defaults: ConferenceOptions, features: map<string, bool>)
    ensures var flags := IntendedJoinFlags(defaults, features);
      && flags.Keys == defaults.featureFlags.Keys + features.Keys + PROTECTED_FLAGS.Keys
      && (forall k :: k in PROTECTED_FLAGS ==> flags[k] == false)
      && (forall k :: k in features && k !in PROTECTED_FLAGS ==> flags[k] == features[k])
      && (forall k :: k in defaults.featureFlags && k !in features && k !in PROTECTED_FLAGS ==> flags[k] == defaults.featureFlags[k])
  {
  }

  /**
   * The flags sent and the flags intended differ exactly when some
   * protected flag is stored as true.
   */
  lemma JoinedDiffersFromIntended(req: JoinRequest, defaults: ConferenceOptions, user: Option<UserInfo>, features: map<string, bool>, parseUrl: string -> Option<Url>)
    ensures IntendedJoinFlags(defaults, features) != JoinedOptions(req, defaults, user, features, parseUrl).featureFlags
            <==> exists k :: k in PROTECTED_FLAGS && k in features && features[k]
  {
  }

  /** Setting the same flag twice is setting it once. */
  lemma SetFeatureFlagIdempotent(features: map<string, bool>, p: Params)
    ensures FlagsAfter(FlagsAfter(features, p), p) == FlagsAfter(features, p)
  {
    if FlagArgument(p).Some? {
      var (flag, value) := FlagArgument(p).value;
      assert features[flag := value][flag := value] == features[flag := value];
    }
  }

  /** Setting two different flags gives the same result in either order. */
  lemma SetFeatureFlagsCommute(features: map<string, bool>, p1: Params, p2: Params)
    requires FlagArgument(p1).Some? && FlagArgument(p2).Some? ==> FlagArgument(p1).value.0 != FlagArgument(p2).value.0
    ensures FlagsAfter(FlagsAfter(features, p1), p2) == FlagsAfter(FlagsAfter(features, p2), p1)
  {
    if FlagArgument(p1).Some? && FlagArgument(p2).Some? {
      var (f1, v1) := FlagArgument(p1).value;
      var (f2, v2) := FlagArgument(p2).value;
      assert features[f1 := v1][f2 := v2] == features[f2 := v2][f1 := v1];
    }
  }

  /**
   * The writes of `setUser` on an identity that exists: `displayName` and
   * `email` take the values in the call, becoming nil when absent;
   * `avatar` is replaced by the parsed URL (nil when it does not parse) only
   * when `avatarURL` is a string.
   */
  function UpdatedUser(u: UserInfo, p: Params, parseUrl: string -> Option<Url>): (r: UserInfo)
    ensures r.displayName == AsString(p, USERNAME) && r.email == AsString(p, EMAIL)
    ensures AsString(p, AVATAR_URL).None? ==> r.avatar == u.avatar
    ensures AsString(p, AVATAR_URL).Some? ==> r.avatar == parseUrl(AsString(p, AVATAR_URL).value)
  {
    var named := u.(displayName := AsString(p, USERNAME));
    var mailed := named.(email := AsString(p, EMAIL));
    match AsString(p, AVATAR_URL)
    case Some(url) => mailed.(avatar := parseUrl(url))
    case None => mailed
  }

  /** Repeating the same `setUser` call changes nothing more. */
  lemma SetUserIdempotent(u: UserInfo, p: Params, parseUrl: string -> Option<Url>)
    ensures UpdatedUser(UpdatedUser(u, p, parseUrl), p, parseUrl) == UpdatedUser(u, p, parseUrl)
  {
  }

  /**
   * A call with only an email clears a display name set before: absent
   * fields are not left alone but overwritten with nil.
   */
  lemma SetUserClearsOmittedName(u: UserInfo, email: string, parseUrl: string -> Option<Url>)
    requires u.displayName.Some?
    ensures UpdatedUser(u, map[EMAIL := Str(email)], parseUrl).displayName == None
    ensures UpdatedUser(u, map[EMAIL := Str(email)], parseUrl).email == Some(email)
    ensures UpdatedUser(u, map[EMAIL := Str(email)], parseUrl).avatar == u.avatar
  {
  }

  /** An `avatarURL` that does not parse erases the avatar set before. */
  lemma SetUserStoresUnparsedAvatarAsNil(u: UserInfo, url: string, parseUrl: string -> Option<Url>)
    requires parseUrl(url).None?
    ensures UpdatedUser(u, map[AVATAR_URL := Str(url)], parseUrl).avatar == None
  {
  }

  /**
   * The update `setUser` evidently means: a field the call does not give
   * (or, for the avatar, gives as a string that is not a URL) is left as it
   * was rather than cleared.
   */
  function PatchedUser(u: UserInfo, p: Params, parseUrl: string -> Option<Url>): (r: UserInfo)
    ensures AsString(p, USERNAME).Some? ==> r.displayName == AsString(p, USERNAME)
    ensures AsString(p, USERNAME).None? ==> r.displayName == u.displayName
    ensures AsString(p, EMAIL).Some? ==> r.email == AsString(p, EMAIL)
    ensures AsString(p, EMAIL).None? ==> r.email == u.email
    ensures AsString(p, AVATAR_URL).Some? && parseUrl(AsString(p, AVATAR_URL).value).Some? ==>
      r.avatar == parseUrl(AsString(p, AVATAR_URL).value)
    ensures AsString(p, AVATAR_URL).None? || parseUrl(AsString(p, AVATAR_URL).value).None? ==>
      r.avatar == u.avatar
  {
    var named := if AsString(p, USERNAME).Some? then u.(displayName := AsString(p, USERNAME)) else u;
    var mailed := if AsString(p, EMAIL).Some? then named.(email := AsString(p, EMAIL)) else named;
    match AsString(p, AVATAR_URL)
    case Some(url) => if parseUrl(url).Some? then mailed.(avatar := parseUrl(url)) else mailed
    case None => mailed
  }

  /** When the call gives all three fields, and the avatar parses, the two updates agree. */
  lemma PatchedAgreesWhenComplete(u: UserInfo, p: Params, parseUrl: string -> Option<Url>)
    requires AsString(p, USERNAME).Some? && AsString(p, EMAIL).Some? && AsString(p, AVATAR_URL).Some?
    requires parseUrl(AsString(p, AVATAR_URL).value).Some?
    ensures PatchedUser(u, p, parseUrl) == UpdatedUser(u, p, parseUrl)
  {
  }

  /** The three protected writes of `joinRoom`, `pip.enabled` twice, leave the protected flags false. */
  lemma ProtectedWrites(m: map<string, bool>)
    ensures m["pip.enabled" := false]["pip.enabled" := false]["chat.enabled" := false]["meeting-password.enabled" := false]
            == m + PROTECTED_FLAGS
    ensures ApplyWrites(m, PROTECTED_WRITES) == m + PROTECTED_FLAGS
  {
    assert PROTECTED_WRITES[1..][1..][1..][1..] == [];
  }

  class JitsiMeetController2 {
    /** `userInfo: JitsiMeetUserInfo?`, which nothing ever assigns. */
    var userInfo: Option<UserInfo>
    /** `features: [String: Bool]`, the flags stored by `set_feature_flag`. */
    var features: map<string, bool>
    /** The calls made so far on the method channel, oldest first. */
    var outbound: seq<Invocation>

    /** `init`: no identity, no stored flags, nothing sent yet. */
    constructor ()
      ensures userInfo == None && features == map[] && outbound == []
    {
      userInfo := None;
      features := map[];
      outbound := [];
    }

    /**
     * `handle`: the four known methods run their handler and answer
     * `nil` unless the handler traps on its arguments; any other method is
     * answered "not implemented" with no handler run, so nothing changes.
     */
    method Handle(call: MethodCall, defaults: ConferenceOptions, parseUrl: string -> Option<Url>) returns (outcome: Outcome, sdk: SdkCall)
      modifies this`userInfo, this`features
      ensures Route(call.name).None? ==>
        outcome == Replied(NotImplemented) && sdk == NoCall
        && userInfo == old(userInfo) && features == old(features)
      ensures Route(call.name).Some? ==> outcome != Replied(NotImplemented)
      ensures outcome.Trapped? ==> sdk == NoCall && userInfo == old(userInfo) && features == old(features)
      ensures call.name == JOIN_ROOM ==>
        userInfo == old(userInfo) && features == old(features)
        && match DecodeJoin(call.arguments)
           case Failure(fault) => outcome == Trapped(fault)
           case Success(req) => outcome == Replied(Ack) && sdk == Join(JoinedOptions(req, defaults, old(userInfo), old(features), parseUrl))
      ensures call.name == LEAVE_ROOM ==>
        outcome == Replied(Ack) && sdk == Leave && userInfo == old(userInfo) && features == old(features)
      ensures call.name == SET_USER ==>
        sdk == NoCall && features == old(features)
        && match call.arguments
           case NotDictionary => outcome == Trapped(ArgumentsNotDictionary)
           case Dictionary(p) =>
             outcome == Replied(Ack)
             && userInfo == (if old(userInfo).Some? then Some(UpdatedUser(old(userInfo).value, p, parseUrl)) else None)
      ensures call.name == SET_FEATURE_FLAG ==>
        sdk == NoCall && userInfo == old(userInfo)
        && match call.arguments
           case NotDictionary => outcome == Trapped(ArgumentsNotDictionary)
           case Dictionary(p) => outcome == Replied(Ack) && features == FlagsAfter(old(features), p)
      ensures old(userInfo).None? ==> userInfo.None?
    {
      match Route(call.name)
      case Some(JoinRoomCall) =>
        var joined := JoinRoom(call.arguments, defaults, parseUrl);
        match joined {
          case Failure(fault) =>
            outcome, sdk := Trapped(fault), NoCall;
          case Success(options) =>
            outcome, sdk := Replied(Ack), Join(options);
        }
      case Some(LeaveRoomCall) =>
        outcome, sdk := Replied(Ack), Leave;
      case Some(SetUserCall) =>
        var done := SetUser(call.arguments, parseUrl);
        outcome := if done.Failure? then Trapped(done.error) else Replied(Ack);
        sdk := NoCall;
      case Some(SetFeatureFlagCall) =>
        var done := SetFeatureFlag(call.arguments);
        outcome := if done.Failure? then Trapped(done.error) else Replied(Ack);
        sdk := NoCall;
      case None =>
        outcome, sdk := Replied(NotImplemented), NoCall;
    }

    /** `joinRoom`: decode the arguments, trapping as its forced casts do, then build the options. */
    method JoinRoom(arguments: Arguments, defaults: ConferenceOptions, parseUrl: string -> Option<Url>) returns (r: Result<ConferenceOptions, Fault>)
      ensures DecodeJoin(arguments).Failure? ==> r == Failure(DecodeJoin(arguments).error)
      ensures DecodeJoin(arguments).Success? ==>
        r == Success(JoinedOptions(DecodeJoin(arguments).value, defaults, userInfo, features, parseUrl))
    {
      var decoded := DecodeJoin(arguments);
      if decoded.Failure? {
        return Failure(decoded.error);
      }
      var options := BuildJoinOptions(decoded.value, defaults, parseUrl);
      r := Success(options);
    }

    /**
     * The `fromBuilder` closure of `joinRoom`: the builder, starting from the
     * SDK's initial state, is written in the source's order (room, server,
     * `pip.enabled`, welcome page, identity, the media flags given, the three
     * protected flags, then every stored flag).
     */
    method BuildJoinOptions(req: JoinRequest, defaults: ConferenceOptions, parseUrl: string -> Option<Url>) returns (builder: ConferenceOptions)
      ensures builder == JoinedOptions(req, defaults, userInfo, features, parseUrl)
    {
      builder := defaults;
      builder := builder.(room := Some(req.room));
      var fileUrl := parseUrl(SERVER_URL);
      builder := builder.(serverURL := fileUrl);
      builder := WithFeatureFlag(builder, "pip.enabled", false);
      assert builder == defaults.(room := Some(req.room), serverURL := fileUrl, featureFlags := defaults.featureFlags["pip.enabled" := false]);
      builder := builder.(welcomePageEnabled := false);
      builder := builder.(userInfo := userInfo);
      // Each `if let` writes the given media flag and leaves the builder's value otherwise.
      builder := builder.(audioMuted := req.audioMuted.GetOr(builder.audioMuted));
      builder := builder.(videoMuted := req.videoMuted.GetOr(builder.videoMuted));
      builder := builder.(audioOnly := req.audioOnly.GetOr(builder.audioOnly));
      ghost var joined := JoinedOptions(req, defaults, userInfo, features, parseUrl);
      assert builder == joined.(featureFlags := defaults.featureFlags["pip.enabled" := false]);
      ghost var unprotected := builder;
      builder := WithFeatureFlag(builder, "pip.enabled", false);
      builder := WithFeatureFlag(builder, "chat.enabled", false);
      builder := WithFeatureFlag(builder, "meeting-password.enabled", false);
      assert builder == unprotected.(featureFlags := builder.featureFlags);
      assert builder.featureFlags == defaults.featureFlags + PROTECTED_FLAGS by {
        ProtectedWrites(defaults.featureFlags);
      }
      ghost var protected := builder;
      ghost var writes;
      builder, writes := WriteFlags(builder, features);
      assert builder == protected.(featureFlags := protected.featureFlags + features);
    }

    /** `setUser`: the optional-chained writes, which do nothing while `userInfo` is nil. */
    method SetUser(arguments: Arguments, parseUrl: string -> Option<Url>) returns (r: Result<(), Fault>)
      modifies this`userInfo
      ensures arguments.NotDictionary? ==> r == Failure(ArgumentsNotDictionary) && userInfo == old(userInfo)
      ensures arguments.Dictionary? ==>
        && r == Success(())
        && userInfo == (if old(userInfo).Some? then Some(UpdatedUser(old(userInfo).value, arguments.params, parseUrl)) else None)
    {
      if arguments.NotDictionary? {
        return Failure(ArgumentsNotDictionary);
      }
      var params := arguments.params;
      if userInfo.Some? {
        userInfo := Some(userInfo.value.(displayName := AsString(params, USERNAME)));
      }
      if userInfo.Some? {
        userInfo := Some(userInfo.value.(email := AsString(params, EMAIL)));
      }
      var avatarUrl := AsString(params, AVATAR_URL);
      if avatarUrl.Some? && userInfo.Some? {
        userInfo := Some(userInfo.value.(avatar := parseUrl(avatarUrl.value)));
      }
      r := Success(());
    }

    /**
     * `setFeatureFlag`: stores `flag -> flag_value` when both are well typed,
     * leaving every other flag as it was; otherwise nothing changes.
     */
    method SetFeatureFlag(arguments: Arguments) returns (r: Result<(), Fault>)
      modifies this`features
      ensures arguments.NotDictionary? ==> r == Failure(ArgumentsNotDictionary) && features == old(features)
      ensures arguments.Dictionary? ==> r == Success(())
      ensures arguments.Dictionary? && FlagArgument(arguments.params).Some? ==>
        var (flag, value) := FlagArgument(arguments.params).value;
        && flag in features && features[flag] == value
        && features.Keys == old(features).Keys + {flag}
        && forall k :: k in old(features) && k != flag ==> features[k] == old(features)[k]
      ensures arguments.Dictionary? && FlagArgument(arguments.params).None? ==> features == old(features)
      ensures arguments.Dictionary? ==> features == FlagsAfter(old(features), arguments.params)
    {
      if arguments.NotDictionary? {
        return Failure(ArgumentsNotDictionary);
      }
      var params := arguments.params;
      var flag := AsString(params, FLAG);
      var value := AsBool(params, FLAG_VALUE);
      if flag.Some? && value.Some? {
        features := features[flag.value := value.value];
      }
      r := Success(());
    }

    /** `conferenceTerminated`: forwards the payload unchanged as `on_terminated`. */
    method ConferenceTerminated(data: Option<Payload>)
      modifies this`outbound
      ensures outbound == old(outbound) + [Invocation(ChannelMethod(Terminated), data)]
    {
      outbound := outbound + [Invocation(ON_TERMINATED, data)];
    }

    /** `conferenceJoined`: forwards the payload unchanged as `on_joined`. */
    method ConferenceJoined(data: Option<Payload>)
      modifies this`outbound
      ensures outbound == old(outbound) + [Invocation(ChannelMethod(Joined), data)]
    {
      outbound := outbound + [Invocation(ON_JOINED, data)];
    }

    /** `conferenceWillJoin`: forwards the payload unchanged as `on_will_join`. */
    method ConferenceWillJoin(data: Option<Payload>)
      modifies this`outbound
      ensures outbound == old(outbound) + [Invocation(ChannelMethod(WillJoin), data)]
    {
      outbound := outbound + [Invocation(ON_WILL_JOIN, data)];
    }
  }

  /**
   * A view's whole life: a fresh `JitsiMeetController2` answering any
   * sequence of calls. Since nothing assigns `userInfo`, it is still nil at
   * the end, and every conference the SDK is asked to join carries no
   * identity, whatever `set_user` calls came before.
   */
  method SessionKeepsNoIdentity(calls: seq<MethodCall>, defaults: ConferenceOptions, parseUrl: string -> Option<Url>)
    returns (user: Option<UserInfo>, sent: seq<SdkCall>)
    ensures user == None
    ensures |sent| == |calls|
    ensures forall i :: 0 <= i < |sent| && sent[i].Join? ==> sent[i].options.userInfo == None
  {
    var c := new JitsiMeetController2();
    sent := [];
    var i := 0;
    while i < |calls|
      invariant 0 <= i <= |calls| && |sent| == i
      invariant c.userInfo.None?
      invariant forall j :: 0 <= j < i && sent[j].Join? ==> sent[j].options.userInfo == None
    {
      var outcome, sdk := c.Handle(calls[i], defaults, parseUrl);
      sent := sent + [sdk];
      i := i + 1;
    }
    assert c.userInfo.None?;
    user := c.userInfo;
  }
}
