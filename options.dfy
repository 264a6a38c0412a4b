/**
 * The conference options the JitsiMeet SDK is handed at join time. The
 * `JitsiMeetConferenceOptionsBuilder` that the `fromBuilder` closure writes
 * is modelled as a local `ConferenceOptions` value updated in place: every
 * property write overwrites the previous one and `setFeatureFlag`
 * overwrites the flag of that name ("last write wins").
 */
module Options {
  import opened Wrappers

  /** A URL, kept as its text. */
  type Url = string

  /** `JitsiMeetUserInfo`: the identity shown in the conference. */
  datatype UserInfo = UserInfo(displayName: Option<string>, email: Option<string>, avatar: Option<Url>)

  /** `JitsiMeetUserInfo()`: every field nil. */
  const EMPTY_USER_INFO: UserInfo := UserInfo(None, None, None)

  /** `JitsiMeetConferenceOptions`: what `fromBuilder` returns. */
  datatype ConferenceOptions = ConferenceOptions(
    room: Option<string>,
    serverURL: Option<Url>,
    subject: Option<string>,
    token: Option<string>,
    welcomePageEnabled: bool,
    audioMuted: bool,
    videoMuted: bool,
    audioOnly: bool,
    userInfo: Option<UserInfo>,
    featureFlags: map<string, bool>)

  /**
   * `builder.setFeatureFlag(name, withValue: value)` on a builder whose
   * current state is `o`: the flag `name` now has `value`, last write winning.
   */
  function WithFeatureFlag(o: ConferenceOptions, name: string, value: bool): (r: ConferenceOptions)
    ensures name in r.featureFlags && r.featureFlags[name] == value
    ensures r.featureFlags - {name} == o.featureFlags - {name}
    ensures r.(featureFlags := o.featureFlags) == o
  {
    o.(featureFlags := o.featureFlags[name := value])
  }

  /**
   * `flags.forEach { builder.setFeatureFlag($0, withValue: $1) }`: each entry
   * is written once, in an order the dictionary does not fix, and whatever
   * the order the result overlays all of `flags` on the builder's flags.
   * `writes` records the calls made, in the order made.
   */
  method WriteFlags(start: ConferenceOptions, flags: map<string, bool>) returns (builder: ConferenceOptions, ghost writes: seq<(string, bool)>)
    ensures builder == start.(featureFlags := start.featureFlags + flags)
    ensures Enumerates(writes, flags) && builder.featureFlags == ApplyWrites(start.featureFlags, writes)
  {
    builder := start;
    writes := [];
    var pending := flags.Keys;
    while pending != {}
      invariant pending <= flags.Keys
      invariant builder == start.(featureFlags := start.featureFlags + (flags - pending))
      invariant Enumerates(writes, flags - pending)
      invariant builder.featureFlags == ApplyWrites(start.featureFlags, writes)
      decreases pending
    {
      var key :| key in pending;
      OverlayStep(start.featureFlags, flags, pending, key);
      EnumeratesSnoc(writes, flags, pending, key);
      ApplyWritesSnoc(start.featureFlags, writes, (key, flags[key]));
      builder := WithFeatureFlag(builder, key, flags[key]);
      writes := writes + [(key, flags[key])];
      pending := pending - {key};
    }
    assert flags - {} == flags;
  }

  /** Writing one more pending entry of `f` extends the overlay by that entry. */
  lemma OverlayStep(base: map<string, bool>, f: map<string, bool>, pending: set<string>, key: string)
    requires key in pending && pending <= f.Keys
    ensures (base + (f - pending))[key := f[key]] == base + (f - (pending - {key}))
  {
  }

  /** The flags after `setFeatureFlag` is called once per write, in order. */
  function ApplyWrites(flags: map<string, bool>, writes: seq<(string, bool)>): (r: map<string, bool>)
    decreases |writes|
  {
    if writes == [] then flags
    else ApplyWrites(flags[writes[0].0 := writes[0].1], writes[1..])
  }

  /** One more write at the end applies after all the earlier ones. */
  lemma {:induction false} ApplyWritesSnoc(flags: map<string, bool>, writes: seq<(string, bool)>, last: (string, bool))
    ensures ApplyWrites(flags, writes + [last]) == ApplyWrites(flags, writes)[last.0 := last.1]
    decreases |writes|
  {
    if writes == [] {
      assert [] + [last] == [last];
      assert [last][1..] == [];
    } else {
      assert (writes + [last])[1..] == writes[1..] + [last];
      ApplyWritesSnoc(flags[writes[0].0 := writes[0].1], writes[1..], last);
    }
  }

  /**
   * `writes` visits every entry of `m` exactly once, in some order: what a
   * Swift `forEach` over a dictionary does, in an order Swift does not fix.
   */
  ghost predicate Enumerates(writes: seq<(string, bool)>, m: map<string, bool>)
  {
    && (forall i, j :: 0 <= i < j < |writes| ==> writes[i].0 != writes[j].0)
    && (forall i :: 0 <= i < |writes| ==> writes[i].0 in m && m[writes[i].0] == writes[i].1)
    && (forall k :: k in m ==> exists i :: 0 <= i < |writes| && writes[i].0 == k)
  }

  /** Writing one more pending entry of `f` extends an enumeration of the entries written so far. */
  lemma EnumeratesSnoc(writes: seq<(string, bool)>, f: map<string, bool>, pending: set<string>, key: string)
    requires key in pending && pending <= f.Keys
    requires Enumerates(writes, f - pending)
    ensures Enumerates(writes + [(key, f[key])], f - (pending - {key}))
  {
    var w := writes + [(key, f[key])];
    var m := f - (pending - {key});
    forall k | k in m
      ensures exists i :: 0 <= i < |w| && w[i].0 == k
    {
      if k == key {
        assert w[|writes|].0 == k;
      } else {
        assert k in f - pending;
        var i :| 0 <= i < |writes| && writes[i].0 == k;
        assert w[i].0 == k;
      }
    }
  }

  /** Dropping the first write of an enumeration of `m` leaves an enumeration of the rest of `m`. */
  lemma EnumeratesTail(writes: seq<(string, bool)>, m: map<string, bool>)
    requires writes != [] && Enumerates(writes, m)
    ensures writes[0].0 in m && m[writes[0].0] == writes[0].1
    ensures Enumerates(writes[1..], m - {writes[0].0})
  {
  }

  /** Writing every entry of `m` once, in any order, overlays `m` on the flags. */
  lemma {:induction false} ApplyEnumeration(flags: map<string, bool>, writes: seq<(string, bool)>, m: map<string, bool>)
    requires Enumerates(writes, m)
    ensures ApplyWrites(flags, writes) == flags + m
    decreases |writes|
  {
    if writes == [] {
      assert m.Keys == {};
    } else {
      var (k, v) := writes[0];
      EnumeratesTail(writes, m);
      ApplyEnumeration(flags[k := v], writes[1..], m - {k});
      assert flags[k := v] + (m - {k}) == flags + m;
    }
  }

  /** The order in which a dictionary's entries are written does not matter, because its keys are distinct. */
  lemma ForEachOrderIrrelevant(flags: map<string, bool>, w1: seq<(string, bool)>, w2: seq<(string, bool)>, m: map<string, bool>)
    requires Enumerates(w1, m) && Enumerates(w2, m)
    ensures ApplyWrites(flags, w1) == ApplyWrites(flags, w2)
  {
    ApplyEnumeration(flags, w1, m);
    ApplyEnumeration(flags, w2, m);
  }

  /** The value of the last write of `k` in `writes`, if any. */
  function LastWrite(writes: seq<(string, bool)>, k: string): (r: Option<bool>)
    decreases |writes|
  {
    if writes == [] then None
    else match LastWrite(writes[1..], k)
      case Some(v) => Some(v)
      case None => if writes[0].0 == k then Some(writes[0].1) else None
  }

  /**
   * Last write wins, for any sequence of writes, repeated keys included: a
   * flag ends with the value of its last write, and a flag never written
   * keeps its starting value (or stays absent).
   */
  lemma {:induction false} ApplyWritesLastWins(flags: map<string, bool>, writes: seq<(string, bool)>, k: string)
    ensures LastWrite(writes, k).Some? ==>
      k in ApplyWrites(flags, writes) && ApplyWrites(flags, writes)[k] == LastWrite(writes, k).value
    ensures LastWrite(writes, k).None? ==>
      (k in ApplyWrites(flags, writes) <==> k in flags)
      && (k in flags ==> ApplyWrites(flags, writes)[k] == flags[k])
    decreases |writes|
  {
    if writes != [] {
      ApplyWritesLastWins(flags[writes[0].0 := writes[0].1], writes[1..], k);
    }
  }
}
