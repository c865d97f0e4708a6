/**
 The startup fence: five APP_START probes and a DEVICE_QUERY separate the replies of this
 connection from whatever the companion still had queued for the one before.
 */
module Startup {
  import opened Wire
  import opened Protocol

  const FENCE: nat := 5
  const KEY_OFFSET: nat := 4
  const KEY_SIZE: nat := 32
  const SELF_INFO_SIZE: nat := 58
  const MIN_LEVEL: Byte := 13

  // ----- One frame at a time -----

  datatype Sync = Sync(selfRun: nat, selfKey: Option<Bytes>, info: Option<Bytes>, awaiting: bool, ready: bool)

  datatype Outcome = Next(state: Sync, command: Option<Bytes>) | Fault

  const BEGIN: Sync := Sync(0, None, None, false, false)

  predicate ValidSelfInfo(p: Bytes) {
    |p| >= SELF_INFO_SIZE && p[0] == RESP_SELF_INFO
  }

  function KeyOf(p: Bytes): Bytes
    requires ValidSelfInfo(p)
  {
    p[KEY_OFFSET..KEY_OFFSET + KEY_SIZE]
  }

  predicate ValidDeviceInfo(p: Bytes) {
    DEVICE_INFO_SIZE <= |p| <= MAX_PAYLOAD && p[0] == RESP_DEVICE_INFO && p[1] >= MIN_LEVEL
  }

  function Receive(s: Sync, p: Bytes): Outcome {
    if p == [] then Fault
    else if IsPush(p) then Next(s, None)
    else if s.ready then Fault
    else if s.awaiting then if p == OK then Next(s.(ready := true), None) else Fault
    else if p[0] == RESP_SELF_INFO then
      if ValidSelfInfo(p) then Next(s.(selfKey := Some(KeyOf(p)), selfRun := s.selfRun + 1), None) else Fault
    else if p[0] == RESP_DEVICE_INFO && s.selfRun >= FENCE then
      if ValidDeviceInfo(p) then Next(s.(info := Some(p), awaiting := true), Some(DEFAULT_SCOPE)) else Fault
    else Next(s.(selfRun := 0, selfKey := None), None)
  }

  // ----- What the companion may send -----

  /** Frames of a new connection, and where they come from. */
  datatype Frame =
    | Stale(p: Bytes)       // queued for the connection before
    | Contact(p: Bytes)     // of a contacts stream the connection before had asked for
    | Async(p: Bytes)       // a push
    | OwnSelfInfo(p: Bytes) // the reply to one of our probes
    | OwnDeviceInfo(p: Bytes)

  predicate Own(f: Frame) {
    f.OwnSelfInfo? || f.OwnDeviceInfo?
  }

  ghost predicate FrameOk(f: Frame, key: Bytes, info: Bytes) {
    match f
    case Stale(p) => p != [] && !IsPush(p)
    case Contact(p) => p != [] && p[0] in {RESP_CONTACTS_START, RESP_CONTACT, RESP_END_OF_CONTACTS}
    case Async(p) => IsPush(p)
    case OwnSelfInfo(p) => ValidSelfInfo(p) && KeyOf(p) == key
    case OwnDeviceInfo(p) => p == info && Opcode(p) == RESP_DEVICE_INFO
  }

  ghost function StaleCount(fs: seq<Frame>): nat {
    if fs == [] then 0 else StaleCount(fs[..|fs| - 1]) + (if fs[|fs| - 1].Stale? then 1 else 0)
  }

  /** Any stale frames first; then our own replies, any of them missing, our DEVICE_INFO last. Contacts
      frames and pushes may come at any time. */
  ghost predicate Plausible(fs: seq<Frame>, key: Bytes, info: Bytes) {
    && (forall i | 0 <= i < |fs| :: FrameOk(fs[i], key, info))
    && (forall i, j | 0 <= i < j < |fs| && Own(fs[i]) :: Own(fs[j]) || fs[j].Async? || fs[j].Contact?)
    && (forall i, j | 0 <= i < j < |fs| && fs[i].OwnDeviceInfo? :: fs[j].Async? || fs[j].Contact?)
  }

  /** The state after those frames, unless one of them was an error. */
  ghost function After(fs: seq<Frame>): Outcome {
    if fs == [] then Next(BEGIN, None)
    else
      var before := After(fs[..|fs| - 1]);
      if before.Fault? then Fault else Receive(before.state, fs[|fs| - 1].p)
  }

  // ----- The fence holds -----

  ghost predicate HasOwnSelfInfo(fs: seq<Frame>) {
    exists i | 0 <= i < |fs| :: fs[i].OwnSelfInfo?
  }

  lemma PlausiblePrefix(fs: seq<Frame>, key: Bytes, info: Bytes)
    requires fs != [] && Plausible(fs, key, info)
    ensures Plausible(fs[..|fs| - 1], key, info)
  {
  }

  lemma OwnSelfInfoGrows(fs: seq<Frame>)
    requires fs != []
    ensures HasOwnSelfInfo(fs) <==> HasOwnSelfInfo(fs[..|fs| - 1]) || fs[|fs| - 1].OwnSelfInfo?
  {
    var before := fs[..|fs| - 1];
    if HasOwnSelfInfo(before) {
      var i :| 0 <= i < |before| && before[i].OwnSelfInfo?;
      assert fs[i].OwnSelfInfo?;
    }
    if i :| 0 <= i < |fs| && fs[i].OwnSelfInfo? {
      assert i < |before| ==> before[i].OwnSelfInfo?;
    }
  }

  /** With at most four stale frames a run of five SELF_INFO replies ends with one of our own. */
  lemma {:induction false} FenceInvariant(fs: seq<Frame>, key: Bytes, info: Bytes)
    requires Plausible(fs, key, info) && StaleCount(fs) < FENCE && After(fs).Next?
    ensures var s := After(fs).state;
            && !s.ready
            && (s.awaiting ==> s.info == Some(info) && s.selfKey == Some(key))
            && (!s.awaiting ==>
                  && s.info.None?
                  && (!HasOwnSelfInfo(fs) ==> s.selfRun <= StaleCount(fs))
                  && (HasOwnSelfInfo(fs) && s.selfRun > 0 ==> s.selfKey == Some(key)))
            && (s.awaiting ==> exists i | 0 <= i < |fs| :: fs[i].OwnDeviceInfo?)
    decreases |fs|
  {
    if fs != [] {
      var n := |fs| - 1;
      var before := fs[..n];
      PlausiblePrefix(fs, key, info);
      FenceInvariant(before, key, info);
      var f := fs[n];
      assert FrameOk(f, key, info);
      OwnSelfInfoGrows(fs);
      if HasOwnSelfInfo(before) {
        var i :| 0 <= i < |before| && before[i].OwnSelfInfo?;
        assert Own(fs[i]);
      }
      if After(before).state.awaiting {
        var i :| 0 <= i < |before| && before[i].OwnDeviceInfo?;
        assert fs[i].OwnDeviceInfo?;
      }
      if f.OwnDeviceInfo? {
        assert fs[n].OwnDeviceInfo?;
      }
    }
  }

  /** Whatever the retained frames, the contacts still streaming and the pushes are, and whichever of our
      replies are lost: startup reports an error, waits, or has taken exactly our DEVICE_INFO and
      our public key. The scope reply that follows makes it ready with them. */
  lemma StaleRepliesCannotPass(fs: seq<Frame>, key: Bytes, info: Bytes, reply: Bytes)
    requires Plausible(fs, key, info) && StaleCount(fs) <= 4
    ensures After(fs).Next? && After(fs).state.awaiting ==>
              After(fs).state.info == Some(info) && After(fs).state.selfKey == Some(key)
    ensures After(fs).Next? ==> !After(fs).state.ready
    ensures After(fs).Next? && Receive(After(fs).state, reply).Next? && Receive(After(fs).state, reply).state.ready ==>
              var s := Receive(After(fs).state, reply).state;
              reply == OK && s.info == Some(info) && s.selfKey == Some(key)
  {
    if After(fs).Next? {
      FenceInvariant(fs, key, info);
    }
  }

  /** The frames that end an undisturbed startup. */
  ghost predicate Undisturbed(fs: seq<Frame>) {
    && |fs| == 6 && (forall i | 0 <= i < 5 :: fs[i].OwnSelfInfo?) && fs[5].OwnDeviceInfo?
  }

  lemma {:induction false} AfterSplits(a: seq<Frame>, b: seq<Frame>)
    requires b != []
    ensures var before := After(a + b[..|b| - 1]);
            After(a + b) == if before.Fault? then Fault else Receive(before.state, b[|b| - 1].p)
  {
    assert (a + b)[..|a + b| - 1] == a + b[..|b| - 1];
  }

  lemma {:induction false} OwnRunGrows(fs: seq<Frame>, own: seq<Frame>, key: Bytes, info: Bytes)
    requires After(fs).Next? && !After(fs).state.awaiting && !After(fs).state.ready
    requires forall i | 0 <= i < |own| :: own[i].OwnSelfInfo? && FrameOk(own[i], key, info)
    ensures var r := After(fs + own);
            && r.Next? && !r.state.awaiting && !r.state.ready && r.state.selfRun == After(fs).state.selfRun + |own|
            && (own != [] ==> r.state.selfKey == Some(key))
    decreases |own|
  {
    if own == [] {
      assert fs + own == fs;
    } else {
      OwnRunGrows(fs, own[..|own| - 1], key, info);
      AfterSplits(fs, own);
      assert FrameOk(own[|own| - 1], key, info);
    }
  }

  /** When none of our replies is lost, and nothing stale was an error, startup always gets through. */
  lemma StartupGetsThrough(fs: seq<Frame>, own: seq<Frame>, key: Bytes, info: Bytes)
    requires Plausible(fs + own, key, info) && StaleCount(fs) <= 4 && After(fs).Next? && Undisturbed(own)
    requires ValidDeviceInfo(info)
    requires forall i | 0 <= i < |fs| :: !Own(fs[i])
    ensures var r := After(fs + own);
            && r.Next? && r.state.awaiting && r.command == Some(DEFAULT_SCOPE)
            && r.state.info == Some(info) && r.state.selfKey == Some(key)
            && Receive(r.state, OK) == Next(r.state.(ready := true), None)
  {
    assert forall i | 0 <= i < |own| :: own[i] == (fs + own)[|fs| + i];
    assert forall i | 0 <= i < |fs| :: fs[i] == (fs + own)[i];
    assert Plausible(fs, key, info);
    FenceInvariant(fs, key, info);
    OwnRunGrows(fs, own[..5], key, info);
    AfterSplits(fs, own);
    assert FrameOk(own[5], key, info);
  }

  // ----- Four is the limit -----

  /** Up to `n` stale frames never make startup take a stale record or a stale key. */
  ghost predicate Protects(n: nat) {
    forall fs, key, info | Plausible(fs, key, info) && StaleCount(fs) <= n ::
      After(fs).Next? && After(fs).state.awaiting ==>
        After(fs).state.info == Some(info) && After(fs).state.selfKey == Some(key)
  }

  function FakeSelfInfo(b: Byte): (p: Bytes)
    ensures ValidSelfInfo(p) && KeyOf(p)[0] == b
  {
    [RESP_SELF_INFO, 0, 0, 0, b] + seq(53, i => 0)
  }

  ghost function Repeated(p: Bytes, n: nat): seq<Frame> {
    if n == 0 then [] else Repeated(p, n - 1) + [Stale(p)]
  }

  lemma SelfInfoCounts(s: Sync, p: Bytes)
    requires ValidSelfInfo(p) && !s.ready && !s.awaiting
    ensures Receive(s, p) == Next(s.(selfKey := Some(KeyOf(p)), selfRun := s.selfRun + 1), None)
  {
  }

  /** Stale SELF_INFO replies add up. */
  lemma {:induction false} RepeatedRun(p: Bytes, n: nat)
    requires ValidSelfInfo(p)
    ensures |Repeated(p, n)| == StaleCount(Repeated(p, n)) == n && forall f | f in Repeated(p, n) :: f == Stale(p)
    ensures After(Repeated(p, n)) ==
            Next(BEGIN.(selfRun := n, selfKey := if n == 0 then None else Some(KeyOf(p))), None)
  {
    hide Receive, KeyOf, ValidSelfInfo;
    if n > 0 {
      RepeatedRun(p, n - 1);
      SelfInfoCounts(After(Repeated(p, n - 1)).state, p);
      assert Repeated(p, n)[..n - 1] == Repeated(p, n - 1);
    }
  }

  /** A fifth stale SELF_INFO is enough for a stale key, when our own ones are lost. */
  lemma FiveStaleRepliesPass(stale: Bytes, key: Bytes, info: Bytes)
    requires ValidSelfInfo(stale) && KeyOf(stale) != key && ValidDeviceInfo(info)
    ensures var fs := Repeated(stale, 5) + [OwnDeviceInfo(info)];
            && Plausible(fs, key, info) && StaleCount(fs) == 5
            && After(fs).Next? && After(fs).state.awaiting && After(fs).state.selfKey == Some(KeyOf(stale)) != Some(key)
  {
    hide KeyOf, ValidSelfInfo, Repeated;
    var before := Repeated(stale, 5);
    var fs := before + [OwnDeviceInfo(info)];
    RepeatedRun(stale, 5);
    assert fs[..5] == before;
    assert forall i | 0 <= i < 5 :: fs[i] == before[i] && before[i] in before;
    SelfInfoIsReply(stale);
  }

  lemma SelfInfoIsReply(p: Bytes)
    requires ValidSelfInfo(p)
    ensures p != [] && !IsPush(p)
  {
  }

  /** A sixth can be a stale device record: startup ends up ready with neither the genuine record nor
      the genuine key. */
  lemma SixStaleRepliesPass(stale: Bytes, record: Bytes, key: Bytes, info: Bytes)
    requires ValidSelfInfo(stale) && KeyOf(stale) != key && ValidDeviceInfo(record) && record != info
    ensures var fs := Repeated(stale, 5) + [Stale(record)];
            && Plausible(fs, key, info) && StaleCount(fs) == 6
            && After(fs).Next? && After(fs).state.awaiting
            && var r := Receive(After(fs).state, OK);
               && r.Next? && r.state.ready && r.state.info == Some(record) != Some(info)
               && r.state.selfKey == Some(KeyOf(stale)) != Some(key)
  {
    hide KeyOf, ValidSelfInfo, Repeated;
    var before := Repeated(stale, 5);
    var fs := before + [Stale(record)];
    RepeatedRun(stale, 5);
    assert fs[..5] == before;
    assert forall i | 0 <= i < 5 :: fs[i] == before[i] && before[i] in before;
    SelfInfoIsReply(stale);
  }

  /** Four stale frames are the exact limit of the fence. */
  lemma FourIsTheLimit(n: nat)
    ensures Protects(n) <==> n <= 4
  {
    hide After, StaleCount, Plausible, KeyOf, ValidSelfInfo;
    if n <= 4 {
      forall fs, key, info | Plausible(fs, key, info) && StaleCount(fs) <= n
        ensures After(fs).Next? && After(fs).state.awaiting ==>
                  After(fs).state.info == Some(info) && After(fs).state.selfKey == Some(key)
      {
        StaleRepliesCannotPass(fs, key, info, OK);
      }
    } else {
      var stale, info, key := FakeSelfInfo(1), AnyDeviceInfo(), KeyOf(FakeSelfInfo(2));
      FiveStaleRepliesPass(stale, key, info);
      assert !Protects(n) by {
        assert Plausible(Repeated(stale, 5) + [OwnDeviceInfo(info)], key, info);
      }
    }
  }

  function AnyDeviceInfo(): (p: Bytes)
    ensures ValidDeviceInfo(p)
  {
    [RESP_DEVICE_INFO, MIN_LEVEL] + seq(DEVICE_INFO_SIZE - 2, i => 0)
  }

  // ----- The object -----

  class Handshake {
    var selfKey: Option<Bytes>
    var deviceInfo: Option<Bytes>
    var upstreamLevel: Option<Byte>
    var exposedLevel: Option<Byte>
    var downstreamInfo: Option<Bytes>
    const deadline: Time
    var selfRun: nat
    var awaitingScope: bool
    var ready: bool

    ghost function View(): Sync
      reads this
    {
      Sync(selfRun, selfKey, deviceInfo, awaitingScope, ready)
    }

    /** What clients are told of the companion is the capped record it was identified by. */
    ghost predicate Valid()
      reads this
    {
      && (awaitingScope <==> deviceInfo.Some?) && (ready ==> awaitingScope)
      && (deviceInfo.Some? ==>
            && ValidDeviceInfo(deviceInfo.value)
            && upstreamLevel == Some(deviceInfo.value[1])
            && downstreamInfo == Some(Visible(deviceInfo.value))
            && exposedLevel == Some(if deviceInfo.value[1] < MAX_EXPOSED_PROTOCOL_LEVEL then deviceInfo.value[1]
                                    else MAX_EXPOSED_PROTOCOL_LEVEL))
    }

    constructor (now: Time, timeout: Time)
      ensures Valid() && View() == BEGIN && deadline == now + timeout
    {
      selfKey, deviceInfo, upstreamLevel, exposedLevel, downstreamInfo := None, None, None, None, None;
      deadline := now + timeout;
      selfRun, awaitingScope, ready := 0, false, false;
    }

    predicate Late(now: Time)
      reads this
    {
      !ready && now >= deadline
    }

    /** `ok` is false where the source raises. */
    method Accept(payload: Bytes, now: Time) returns (command: Option<Bytes>, ok: bool)
      requires Valid()
      modifies this
      ensures ok <==> !old(Late(now)) && Receive(old(View()), payload).Next?
      ensures ok ==> Valid() && Receive(old(View()), payload) == Next(View(), command)
    {
      command := None;
      ok := true;
      if Late(now) || payload == [] {
        return None, false;
      }
      if IsPush(payload) {
        return;
      }
      if ready {
        return None, false;
      }
      if awaitingScope {
        if payload != OK {
          return None, false;
        }
        ready := true;
      } else if payload[0] == RESP_SELF_INFO {
        if !ValidSelfInfo(payload) {
          return None, false;
        }
        selfKey := Some(KeyOf(payload));
        selfRun := selfRun + 1;
      } else if payload[0] == RESP_DEVICE_INFO && selfRun >= FENCE {
        if !ValidDeviceInfo(payload) {
          return None, false;
        }
        upstreamLevel := Some(payload[1]);
        var visible := Visible(payload);
        downstreamInfo := Some(visible);
        exposedLevel := Some(visible[1]);
        deviceInfo := Some(payload);
        awaitingScope := true;
        command := Some(DEFAULT_SCOPE);
      } else {
        selfRun := 0;
        selfKey := None;
      }
    }
  }
}
