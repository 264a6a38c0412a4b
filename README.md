# JitsiMeet bridge for iOS, modelled in Dafny

This project models the behaviour of `ios/Classes/JitsiViewController.swift`.
That file is a bridge between a Flutter application and the native JitsiMeet
conferencing SDK. Its two controllers have these parts:

- **Command dispatch** (`JitsiMeetController2.handle`). Four method names
  (`join_room`, `leave_room`, `set_user`, `set_feature_flag`) run a handler
  and answer `nil`. Any other name answers `FlutterMethodNotImplemented`.
- **Feature-flag store** (`setFeatureFlag`). It writes into a
  `[String: Bool]` dictionary in place. The write happens only when `flag` is
  a string and `flag_value` is a boolean.
- **Option assembly** (`joinRoom`, `openJitsiMeet`). The SDK builder gets a
  sequence of property and flag writes. Each write overwrites the previous
  one ("last write wins"). A `forEach` loop copies the stored flags.
- **Partial user update** (`setUser`). It makes optional-chained writes into
  `userInfo: JitsiMeetUserInfo?`. Nothing ever assigns that property.
- **Event forwarding**. The simple variant forwards each SDK lifecycle
  callback over the method channel (`on_will_join`, `on_joined`,
  `on_terminated`). The full-screen variant copies the payload, adds an
  `"event"` key and hands the copy to the event sink.
- **Hex colour parsing** (`UIColor(hex:)`). The input must be `#` plus exactly
  eight characters. The 32-bit number is split into red, green, blue and alpha
  bytes, most significant byte first.

Modules and files:

| file | module | models |
|---|---|---|
| `wrappers.dfy` | `Wrappers` | `Option` (Swift's `T?`) and `Result` |
| `values.dfy` | `Values` | the loosely typed channel values and the `as? String` / `as? Bool` casts |
| `options.dfy` | `Options` | `JitsiMeetConferenceOptions`, `JitsiMeetUserInfo`, the builder's flag writes and the `forEach` over a flag dictionary |
| `events.dfy` | `Events` | the lifecycle event names and the `"event"` tagging |
| `bridge.dfy` | `Bridge` | `JitsiMeetController2`: dispatch, join, set user, set flag, callbacks |
| `full_screen.dfy` | `FullScreen` | `JitsiViewController`: stored parameters, `openJitsiMeet` option assembly, tagged callbacks |
| `hex_color.dfy` | `HexColor` | `UIColor.init?(hex:)` down to integer channels |

How the model handles what it cannot see:

- **Forced casts.** A failing `as!` (arguments that are not a dictionary, or a
  `room` that is not a string) stops the Swift program. The model returns a
  `Fault` instead (`Trapped` in `Handle`). State does not change in that case,
  and no SDK call is made.
- **SDK calls.** `Handle` returns the SDK call it makes: `Join(options)`,
  `Leave` or `NoCall`.
- **SDK builder.** The builder's initial state is not visible, so it is a
  parameter, `defaults`. A field that the bridge does not write keeps the
  value from `defaults`.
- **Foundation functions.** `Scanner.scanHexInt64` and `URL(string:)` come
  from Foundation. They are the parameters `scan` and `parseUrl`. `parseUrl`
  parses both the avatar string of `set_user` and the fixed server address
  of `join_room`, so the server URL a join carries is `parseUrl` of that
  address.

## Behaviour as written

The model follows the code. Three places where the code departs from its
evident intent are listed under "## Findings". Two more points:

- **`set_user` has no effect.** `userInfo` is never assigned, so every
  optional-chained write is skipped. `set_user` changes nothing, and every
  join passes a nil identity. The model keeps `userInfo` as an `Option`.
  Every method preserves `userInfo == None`, and
  `Bridge.SessionKeepsNoIdentity` shows this for a whole session.
- **Malformed hex digits.** Whether a string with non-hex characters yields
  a colour is decided by `Scanner.scanHexInt64`, not by this code. The model
  covers only strings made entirely of hex digits.

## Model

| member | source | states |
|---|---|---|
| `Values.AsString` | ios/Classes/JitsiViewController.swift:120-123 | `params[key] as? String` is the stored string exactly when the key holds a string, else nil |
| `Values.AsBool` | ios/Classes/JitsiViewController.swift:80-82 | `params[key] as? Bool` is the stored boolean exactly when the key holds a boolean, else nil |
| `Bridge.Route` | ios/Classes/JitsiViewController.swift:53-68 | a name selects a handler iff it is one of `join_room`, `leave_room`, `set_user`, `set_feature_flag`, and the handler chosen is the one for that name |
| `Bridge.RouteInvertsMethodName` | ios/Classes/JitsiViewController.swift:7-13 | each command's method name routes back to that command |
| `Bridge.JitsiMeetController2.Handle` | ios/Classes/JitsiViewController.swift:52-69 | unknown names answer "not implemented" with no SDK call and no state change; known names answer `nil` unless the handler traps; the per-command effect on flags, identity and the SDK; `userInfo` stays nil |
| `Bridge.DecodeJoin` | ios/Classes/JitsiViewController.swift:78-82 | traps unless the arguments are a dictionary whose `room` is a string; each media flag is kept only if it is a boolean |
| `Bridge.JitsiMeetController2.JoinRoom` | ios/Classes/JitsiViewController.swift:77-114 | traps exactly as the casts do; otherwise yields `JoinedOptions`, the closed form of the options, for the decoded request, the stored identity and the stored flags |
| `Bridge.JitsiMeetController2.BuildJoinOptions` | ios/Classes/JitsiViewController.swift:84-111 | the builder writes, in source order, produce `JoinedOptions`: room = given, server = the fixed address as `parseUrl` parses it, no welcome page, the media flags given or else the SDK's, and flags = SDK's, then protected at false, then stored |
| `Bridge.JoinedOptions` | ios/Classes/JitsiViewController.swift:84-110 | the closed form of the join options: subject and token stay the SDK's; the flag keys are the SDK's, the protected ones and the stored ones; every stored flag has its stored value |
| `Bridge.ProtectedWrites` | ios/Classes/JitsiViewController.swift:88-106 | the four protected-flag writes, `pip.enabled` twice, amount to overlaying the three flags at false, both as the builder's chain of writes and as `ApplyWrites` of the write sequence |
| `Bridge.JoinedFlags` | ios/Classes/JitsiViewController.swift:102-110 | a stored flag always has its stored value; a protected flag is false iff it is not stored as true; other SDK flags keep their value; no other key appears |
| `Bridge.StoredFlagOverridesProtected` | ios/Classes/JitsiViewController.swift:101-110 | a stored `chat.enabled: true` re-enables chat despite the protected write |
| `Bridge.JoinWithRoomOnly` | ios/Classes/JitsiViewController.swift:78-106 | `{room: "abc"}` decodes; the server is `parseUrl` of the fixed address; the media flags stay at the SDK's values and the three protected flags are false |
| `Bridge.JoinWithStoredFlag` | ios/Classes/JitsiViewController.swift:102-110 | a stored `e2ee.enabled: true` appears beside the three false protected flags |
| `Bridge.IntendedJoinFlags` | ios/Classes/JitsiViewController.swift:100-110 | the intended flags: the same keys as sent, every protected flag false, every other flag the stored value or else the SDK's |
| `Bridge.IntendedProtectedForced` | ios/Classes/JitsiViewController.swift:100-105 | with the protected writes last, as their comments intend, the three flags are false whatever is stored, and every other flag keeps its stored or SDK value |
| `Bridge.JoinedDiffersFromIntended` | ios/Classes/JitsiViewController.swift:100-110 | the flags sent differ from the intended ones exactly when some protected flag is stored as true |
| `Bridge.FlagArgument` | ios/Classes/JitsiViewController.swift:133-136 | an update is made iff `flag` is a string and `flag_value` a boolean, and it carries exactly those values |
| `Bridge.FlagsAfter` | ios/Classes/JitsiViewController.swift:130-139 | a well-typed pair sets that flag to that value and keeps every other key and value; otherwise the flags are unchanged |
| `Bridge.JitsiMeetController2.SetFeatureFlag` | ios/Classes/JitsiViewController.swift:130-139 | traps on non-dictionary arguments; a well-typed pair sets that flag and keeps every other key and value; anything else leaves the flags unchanged |
| `Bridge.SetFeatureFlagIdempotent` | ios/Classes/JitsiViewController.swift:136-138 | the same `set_feature_flag` twice equals once |
| `Bridge.SetFeatureFlagsCommute` | ios/Classes/JitsiViewController.swift:136-138 | updates of two different flags commute |
| `Bridge.UpdatedUser` | ios/Classes/JitsiViewController.swift:120-126 | on an existing identity `displayName` and `email` take the call's strings or nil; `avatar` changes, to the parsed URL, only when `avatarURL` is a string |
| `Bridge.JitsiMeetController2.SetUser` | ios/Classes/JitsiViewController.swift:117-127 | traps on non-dictionary arguments; a nil `userInfo` stays nil; a present one becomes `UpdatedUser` of it |
| `Bridge.SetUserIdempotent` | ios/Classes/JitsiViewController.swift:117-127 | repeating the same `set_user` call changes nothing more |
| `Bridge.SetUserClearsOmittedName` | ios/Classes/JitsiViewController.swift:120-121 | a call carrying only an email clears a display name set before and keeps the avatar |
| `Bridge.SetUserStoresUnparsedAvatarAsNil` | ios/Classes/JitsiViewController.swift:123-126 | an `avatarURL` string that does not parse replaces the avatar with nil |
| `Bridge.PatchedUser` | ios/Classes/JitsiViewController.swift:117-127 | the intended update: each field the call gives is written, an omitted field and an avatar string that does not parse leave the old value |
| `Bridge.PatchedAgreesWhenComplete` | ios/Classes/JitsiViewController.swift:117-127 | when the call gives all three fields and the avatar parses, the intended update and the code's update agree |
| `Bridge.SessionKeepsNoIdentity` | ios/Classes/JitsiViewController.swift:33-46 | over any sequence of calls to a new controller, `userInfo` stays nil and every join carries no identity |
| `Bridge.JitsiMeetController2.constructor` | ios/Classes/JitsiViewController.swift:33-46 | a new controller has no identity and no stored flags, and has sent nothing |
| `Bridge.JitsiMeetController2.ConferenceTerminated` | ios/Classes/JitsiViewController.swift:143-145 | sends the payload unchanged as `on_terminated` |
| `Bridge.JitsiMeetController2.ConferenceJoined` | ios/Classes/JitsiViewController.swift:147-149 | sends the payload unchanged as `on_joined` |
| `Bridge.JitsiMeetController2.ConferenceWillJoin` | ios/Classes/JitsiViewController.swift:151-153 | sends the payload unchanged as `on_will_join` |
| `Options.WithFeatureFlag` | ios/Classes/JitsiViewController.swift:88-109 | `setFeatureFlag` on the builder: the named flag has the value, every other flag and every other field is unchanged |
| `Options.WriteFlags` | ios/Classes/JitsiViewController.swift:108-110 | the `forEach` writes every entry once, in any order, and the result overlays the whole dictionary on the builder's flags, other fields untouched; the calls made form an enumeration of the dictionary whose `ApplyWrites` is the builder's final flags |
| `Options.ApplyEnumeration` | ios/Classes/JitsiViewController.swift:108-110 | any sequence of writes that visits each dictionary entry exactly once overlays the dictionary |
| `Options.ForEachOrderIrrelevant` | ios/Classes/JitsiViewController.swift:229-231 | two visiting orders of the same dictionary give the same flags, because its keys are distinct |
| `Options.ApplyWritesLastWins` | ios/Classes/JitsiViewController.swift:88-110 | for any sequence of flag writes, repeated keys included, a flag ends with its last written value, and a flag never written keeps its starting value or stays absent |
| `Events.Tagged` | ios/Classes/JitsiViewController.swift:261-262 | the copy is nil iff the payload is; it has the payload's keys plus `"event"`, `"event"` holds the tag, every other key keeps its value |
| `Events.UntagRecoversPayload` | ios/Classes/JitsiViewController.swift:261-262 | removing `"event"` from the tagged copy gives the payload without `"event"` |
| `Events.NamesDistinguishEvents` | ios/Classes/JitsiViewController.swift:259-277 | different lifecycle events get different channel names and different tags |
| `FullScreen.JitsiViewController.constructor` | ios/Classes/JitsiViewController.swift:164-175 | the initial parameters: no sink, media flags false, empty flag dictionary, empty identity, bar colour `#00000000` |
| `FullScreen.JitsiViewController.OpenJitsiMeet` | ios/Classes/JitsiViewController.swift:218-233 | welcome page on; room, server, subject, token and identity as stored; each media flag stored or false when nil; every stored flag appears with its value, other SDK flags kept |
| `FullScreen.JitsiViewController.Deliver` | ios/Classes/JitsiViewController.swift:263 | the sink receives the payload only when it is set |
| `FullScreen.JitsiViewController.ConferenceWillJoin` | ios/Classes/JitsiViewController.swift:259-264 | the sink, if set, receives the payload tagged `onConferenceWillJoin` |
| `FullScreen.JitsiViewController.ConferenceJoined` | ios/Classes/JitsiViewController.swift:266-271 | the sink, if set, receives the payload tagged `onConferenceJoined` |
| `FullScreen.JitsiViewController.ConferenceTerminated` | ios/Classes/JitsiViewController.swift:273-277 | the sink, if set, receives the payload tagged `onConferenceTerminated` |
| `HexColor.ParseHexColor` | ios/Classes/JitsiViewController.swift:298-322 | a colour results iff the string is `#` plus exactly eight characters the scanner accepts; its channels are bytes, the scanned number's |
| `HexColor.Channels` | ios/Classes/JitsiViewController.swift:310-313 | the four masked and shifted channels are each 0..255 and recombine to the low 32 bits of the number |
| `HexColor.DivChain` | ios/Classes/JitsiViewController.swift:310-313 | shifting by 16 or 24 bits is shifting by 8 two or three times, and the four bytes recombine to the number mod 2^32 |
| `HexColor.HexValue` | ios/Classes/JitsiViewController.swift:306-309 | a string of k hex digits denotes a number below 16^k |
| `HexColor.HexChannels` | ios/Classes/JitsiViewController.swift:301-315 | for `#` and eight hex digits read correctly, the channels are the digit pairs 1-2, 3-4, 5-6, 7-8 in order red, green, blue, alpha |
| `HexColor.ByteDigits` | ios/Classes/JitsiViewController.swift:310-313 | a number written with four base-256 digits has them, in order, as its channels |
| `HexColor.TransparentBlack` | ios/Classes/JitsiViewController.swift:173 | the default bar colour `#00000000` is (0, 0, 0, 0) |

## Findings

| source | as written | input that shows it | evidently intended | confidence | as-written member | corrected member |
|---|---|---|---|---|---|---|
| ios/Classes/JitsiViewController.swift:100-110 | the three protected flags are written before the stored flags are copied, so a stored flag of the same name wins | `set_feature_flag {flag: "chat.enabled", flag_value: true}`, then `join_room` | the comments say the writes disable those features, so they would be forced off whatever is stored | not executed; medium | `Bridge.StoredFlagOverridesProtected` | `Bridge.IntendedJoinFlags` |
| ios/Classes/JitsiViewController.swift:120-121 | `displayName` and `email` are assigned `as? String` unconditionally, so an omitted field becomes nil | on an identity with a display name, `set_user {email: "a@b.c"}` | a field the call does not give is left as it was | not executed; low | `Bridge.SetUserClearsOmittedName` | `Bridge.PatchedUser` |
| ios/Classes/JitsiViewController.swift:123-126 | an `avatarURL` string that `URL(string:)` rejects stores nil as the avatar | `set_user {avatarURL: "not a url"}` where the URL does not parse | an avatar that is not a URL is ignored, as an absent one is | not executed; low | `Bridge.SetUserStoresUnparsedAvatarAsNil` | `Bridge.PatchedUser` |

The code as written is what the rest of the model uses. `Bridge.JoinedDiffersFromIntended` and `Bridge.PatchedAgreesWhenComplete` relate each corrected member to the code's behaviour.

## Left out

- Flutter method channels, the event sink and messenger registration (lines 36-45, 164) are foreign I/O. The model keeps only the calls sent (`outbound`) and the payloads the sink receives (`delivered`).
- The JitsiMeet SDK itself (`join`, `leave`, the view, lines 73, 113, 235) is library code that is not visible here. In `Bridge`, a join or leave (lines 73, 113) appears only as the `SdkCall` that `Handle` returns. The full-screen join (line 235) appears as the options that `FullScreen.JitsiViewController.OpenJitsiMeet` returns.
- The builder's internals and initial state are not visible. The initial state is the parameter `defaults`, and the builder is reduced to "each write overwrites".
- The builder is modelled as a local record rather than a reference object, because nothing else holds it while it is written.
- `JitsiMeetUserInfo` is a reference type in Swift. The model stores it as a value, so aliasing between the controller's `userInfo` and an identity already passed to the SDK is not modelled. Nothing assigns `userInfo` anyway.
- UIKit lifecycle code is left out: `loadView`, `viewDidLoad`, `viewDidAppear`, `viewWillTransition` and the button handlers (lines 177-208).
- The `PiPViewCoordinator`, `cleanUp`, `dismiss` and `enterPicture` (lines 240-254, 279-292) are left out. They are UI work scheduled with `DispatchQueue.main.async`.
- `view()` (lines 48-50) returns a UI object and is left out.
- The `CGFloat` division by 255 (lines 310-313) is floating point. The model stops at the integer byte values.
- HexColor.ParseHexColor: takes `Scanner.scanHexInt64` as the parameter `scan`. Foundation's handling of whitespace, a `0x` prefix and partially hex input is not visible here, so channel values are proved only for eight hex digits that the scanner reads correctly (`HexChannels`).
- `URL(string:)` is the parameter `parseUrl`. URL syntax is not modelled.
- Swift counts grapheme clusters in `hexColor.count`. The model counts characters.
- Swift compares `String`s, and hashes dictionary keys, by Unicode canonical equivalence. In the model, string equality is code-point equality. So `set_feature_flag` with `flag` "caf\u{e9}" and then with "cafe\u{301}" leaves one key in Swift's `features` (line 137) but two in `Bridge.FlagsAfter` and `SetFeatureFlag`. The method and parameter names are plain ASCII, and no other character sequence is canonically equivalent to them, so `Route` and the parameter lookups are unaffected.
- An `NSNumber` holding 0 or 1 can be cast with `as? Bool` in Swift. The model treats only boolean values as booleans.
