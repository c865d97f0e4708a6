/** The client side of the broker keeps the invariant: output, leaving, and failing. */
module BrokerClients {
  import opened Wire
  import opened Protocol
  import opened Leases
  import opened Slots
  import opened Broker
  import opened BrokerInvariant
  import AckRing

  lemma WireDebt(t: Table, up: Upstream)
    requires WireOk(t, up)
    ensures Disciplined(t, up.wire) && DebtOk(t, Awaited(up.active), up.wire)
  {
    hide Disciplined, Owed, PhysicalScope;
  }

  /** The parts of the invariant, for proofs that keep the whole out of sight. */
  lemma CoreParts(s: State, loose: bool, behind: seq<int>)
    requires Core(s, loose, behind)
    ensures ConfigOk(s.cfg) && !s.fault && (s.failed ==> s.sessions == map[] && s.up.active.None?)
    ensures s.debt.Some? ==> s.failed
    ensures RosterOk(s.sessions.Keys, s.ids, s.order)
    ensures TxnsOk(s.cfg, s.up.active, s.debt)
    ensures !s.failed ==> WireOk(s.cfg.table, s.up)
    ensures Disciplined(s.cfg.table, s.up.wire)
    ensures DebtOk(s.cfg.table, if s.failed then s.debt else Awaited(s.up.active), s.up.wire)
    ensures ClientsOk(s.cfg, s.sessions, s.up.active)
    ensures OutsOk(s.cfg.table, s.sessions, s.up.wire)
    ensures InboxesOk(s.cfg.table, s.sessions, s.pops, behind)
    ensures SlotsOk(s.cfg, s.slots, s.sessions)
    ensures SyncsOk(s.sessions, s.slots, s.drain, s.up, loose)
    ensures OrphanOk(s.cfg.table, s.orphan, s.sessions, s.up.active, s.debt)
    ensures RemoteOk(s.radio.remote, s.sessions, s.up.active)
    ensures !s.failed ==> SigningOk(s.signing, s.up.active)
    ensures AirOk(s.cfg.uncertaintyTimeout, s.radio.air, s.radio.log, s.up.active, s.now)
    ensures ScopeTied(s.sessions, s.up.active) && Exclusive(s.sessions, s.up.active)
  {
    if !s.failed {
      WireDebt(s.cfg.table, s.up);
    }
    hide Disciplined, DebtOk, Awaited, ConfigOk, RosterOk, TxnsOk, WireOk,
         ClientsOk, OutsOk, InboxesOk, SlotsOk, SyncsOk, OrphanOk, RemoteOk, SigningOk, AirOk,
         ScopeTied, Exclusive;
  }

  // ----- One session replaced -----

  /** What a changed session must satisfy for everything else to stay as it was. */
  ghost predicate SwapOk(s: State, id: int, c: Session, loose: bool, lag: nat) {
    && id in s.sessions
    && ClientOk(s.cfg, c, Current(s.up.active, id), Owns(s.up.active, id))
    && SentOk(s.cfg.table, s.up.wire, c.log.sent, id)
    && InboxOk(s.cfg.table, c, s.pops, lag)
    && SyncOk(c, s.slots, s.drain, s.up, loose)
    && c.slot == s.sessions[id].slot
    && (Owns(s.up.active, id) ==> c.scope == s.sessions[id].scope)
    && s.sessions[id].log.sent <= c.log.sent
  }

  lemma AcceptedGrows(sent: seq<Out>, n: nat, more: seq<Out>, m: nat, c: Bytes, tag: nat)
    requires n <= |sent| && n <= m && sent <= more && Accepted(sent, n, c, tag)
    ensures Accepted(more, m, c, tag)
  {
    var j :| 0 <= j < n && AcceptedAt(sent, j, c, tag);
    assert AcceptedAt(more, j, c, tag);
  }

  lemma SwapRemote(r: Remote, sessions: map<int, Session>, active: Option<Txn>, id: int, c: Session)
    requires RemoteOk(r, sessions, active) && id in sessions && sessions[id].log.sent <= c.log.sent
    ensures RemoteOk(r, sessions[id := c], active)
  {
    if r.Held? && !r.tentative && r.owner == Some(id) {
      AcceptedGrows(sessions[id].log.sent, |sessions[id].log.sent|, c.log.sent, |c.log.sent|, r.command, r.tag);
    }
  }

  lemma SwapSlots(cfg: Config, slots: map<int, Slot>, sessions: map<int, Session>, id: int, c: Session)
    requires SlotsOk(cfg, slots, sessions) && id in sessions && c.slot == sessions[id].slot
    ensures SlotsOk(cfg, slots, sessions[id := c])
  {
  }

  /** Replacing one session by one in order keeps the invariant. */
  lemma SwapKeeps(s: State, id: int, c: Session, s': State, loose: bool, behind: seq<int>, behind': seq<int>)
    requires Core(s, loose, behind)
    requires SwapOk(s, id, c, loose, if id in behind' then 1 else 0)
    requires forall x | x in s.sessions && x != id :: x in behind <==> x in behind'
    requires s' == Put(s, id, c).(nextWrite := s'.nextWrite, actions := s'.actions)
    ensures Core(s', loose, behind')
  {
    hide SentOk, ClientOk, InboxOk, SyncOk, TxnsOk, WireOk, SigningOk, AirOk, SlotsOk, RemoteOk, ConfigOk, RosterOk,
         Current, IsItem;
    assert s'.sessions.Keys == s.sessions.Keys;
    SwapRemote(s.radio.remote, s.sessions, s.up.active, id, c);
    SwapSlots(s.cfg, s.slots, s.sessions, id, c);
  }

  // ----- Leaving -----

  lemma {:induction false} WithoutKeepsDistinct(q: seq<int>, id: int)
    requires Distinct(q)
    ensures Distinct(Without(q, id))
  {
    if q != [] {
      WithoutKeepsDistinct(q[1..], id);
      var rest := Without(q[1..], id);
      assert q[0] !in rest;
      assert forall j | 0 <= j < |rest| :: rest[j] in rest;
    }
  }

  lemma DetachRoster(keys: set<int>, ids: seq<int>, order: seq<int>, id: int)
    requires RosterOk(keys, ids, order) && id in keys
    ensures RosterOk(keys - {id}, Without(ids, id), Without(order, id))
  {
    WithoutKeepsDistinct(ids, id);
    WithoutKeepsDistinct(order, id);
  }

  lemma DetachSlots(cfg: Config, slots: map<int, Slot>, sessions: map<int, Session>, id: int)
    requires SlotsOk(cfg, slots, sessions) && id in sessions
    ensures SlotsOk(cfg, DetachSlot(slots, sessions[id].slot, id), sessions - {id})
  {
    hide ItemsOk, SlotOk;
    UnattachedSlotsOk(slots);
  }

  lemma UnattachedSlotsOk(slots: map<int, Slot>)
    ensures forall d | d in slots && SlotOk(slots[d]) :: SlotOk(slots[d].(attached := None))
  {
    hide Sub;
  }

  lemma DetachSigning(g: Signing, active: Option<Txn>, id: int)
    requires SigningOk(g, active)
    ensures SigningOk(if Owns(active, id) then g else SigningOwnerGone(g, id), active)
  {
  }

  lemma DetachSyncs(s: State, id: int, loose: bool)
    requires id in s.sessions && SyncsOk(s.sessions, s.slots, s.drain, s.up, loose)
    ensures SyncsOk(Detach(s, id).sessions, Detach(s, id).slots, Detach(s, id).drain, s.up, loose)
  {
  }

  lemma DetachRemote(r: Remote, sessions: map<int, Session>, active: Option<Txn>, id: int)
    requires RemoteOk(r, sessions, active)
    ensures RemoteOk(RemoteOwnerGone(r, id), sessions - {id}, active)
  {
    hide Accepted;
  }

  lemma DetachKeeps(s: State, id: int, loose: bool, behind: seq<int>)
    requires Core(s, loose, behind) && id in s.sessions
    ensures Core(Detach(s, id), loose, behind)
  {
    hide SentOk, ClientOk, InboxOk, SyncOk, SyncsOk, TxnOk, WireOk, SigningOk, AirOk, SlotsOk, RosterOk, ConfigOk,
         RemoteOk, Aside, Only, Without;
    assert Detach(s, id).sessions.Keys == s.sessions.Keys - {id};
    DetachRoster(s.sessions.Keys, s.ids, s.order, id);
    DetachSlots(s.cfg, s.slots, s.sessions, id);
    DetachSigning(s.signing, s.up.active, id);
    DetachSyncs(s, id, loose);
    DetachRemote(s.radio.remote, s.sessions, s.up.active, id);
  }

  // ----- Failing -----

  lemma {:induction false} DetachAllFrame(s: State, ids: seq<int>)
    ensures var r := DetachAll(s, ids);
            && r == s.(sessions := r.sessions, ids := r.ids, order := r.order, slots := r.slots, signing := r.signing,
                       radio := s.radio.(remote := r.radio.remote), drain := r.drain, actions := r.actions)
            && r.drain.popSeq == s.drain.popSeq
            && (forall x :: x in r.sessions <==> x in s.sessions && x !in ids)
            && (s.radio.remote.Vacant? ==> r.radio.remote.Vacant?)
            && (s.radio.remote.Held? ==>
                  r.radio.remote.Held? && r.radio.remote == s.radio.remote.(owner := r.radio.remote.owner))
    decreases |ids|
  {
    if ids != [] {
      DetachAllFrame(if ids[0] in s.sessions then Detach(s, ids[0]) else s, ids[1..]);
    }
  }

  lemma {:induction false} DetachAllKeeps(s: State, ids: seq<int>)
    requires RosterOk(s.sessions.Keys, s.ids, s.order) && SlotsOk(s.cfg, s.slots, s.sessions)
    requires s.radio.remote.Held? && s.radio.remote.owner.Some? ==> s.radio.remote.owner.value in s.sessions
    ensures var r := DetachAll(s, ids);
            && RosterOk(r.sessions.Keys, r.ids, r.order) && SlotsOk(s.cfg, r.slots, r.sessions)
            && (r.radio.remote.Held? && r.radio.remote.owner.Some? ==> r.radio.remote.owner.value in r.sessions)
    decreases |ids|
  {
    hide RosterOk, SlotsOk;
    if ids != [] {
      var id := ids[0];
      if id in s.sessions {
        assert Detach(s, id).sessions.Keys == s.sessions.Keys - {id};
        DetachRoster(s.sessions.Keys, s.ids, s.order, id);
        DetachSlots(s.cfg, s.slots, s.sessions, id);
        DetachAllKeeps(Detach(s, id), ids[1..]);
      } else {
        DetachAllKeeps(s, ids[1..]);
      }
    }
  }

  /** After a failure only radio bookkeeping, queues, the orphan and the debt are left. */
  lemma FailKeeps(s: State, loose: bool, behind: seq<int>, loose': bool, behind': seq<int>)
    requires Core(s, loose, behind) && !s.failed
    ensures Core(FailEpoch(s), loose', behind')
  {
    FailedDebtKeeps(s, loose, behind, loose', behind', None);
  }

  /** The remote lease after a failure is settled: owned by a session, or by nobody. */
  lemma LossSettlesRemote(r: RadioState, sessions: map<int, Session>, active: Option<Txn>, now: Time, timeout: Time)
    requires RemoteOk(r.remote, sessions, active)
    ensures var k := AfterLoss(r, active, now, timeout).remote;
            && (k.Held? ==> !k.tentative && k.deadline.Some? && Stems(k))
            && (k.Held? && k.owner.Some? ==> k.owner.value in sessions)
  {
  }

  lemma LossKeepsAir(cfg: Config, r: RadioState, active: Option<Txn>, now: Time)
    requires TableOk(cfg.table) && (active.Some? ==> TxnOk(cfg, active.value))
    requires AirOk(cfg.uncertaintyTimeout, r.air, r.log, active, now)
    ensures var k := AfterLoss(r, active, now, cfg.uncertaintyTimeout);
            AirOk(cfg.uncertaintyTimeout, k.air, k.log, None, now)
  {
    hide AckRing.LogOk, AckRing.Replay, AckRing.InFlight;
    if active.Some? {
      var t := active.value;
      var dm := PlainDm(t.command);
      if t.step.Setup? && dm {
        AckRing.CallExtends(r.log, AckRing.Refused, cfg.uncertaintyTimeout);
      } else if t.step.Command? && (dm || t.desc.remoteLease) {
        AckRing.CallExtends(r.log, AckRing.Lost(now, dm), cfg.uncertaintyTimeout);
      }
    }
  }

  /** What a failure does to the state, whatever it was. */
  lemma FailShape(s: State)
    requires !s.failed && RosterOk(s.sessions.Keys, s.ids, s.order)
    ensures var r := FailEpoch(s);
            var k := AfterLoss(s.radio, s.up.active, s.now, s.cfg.uncertaintyTimeout);
            && r.sessions == map[] && r.failed
            && r == s.(sessions := map[], failed := true, ids := r.ids, order := r.order, slots := r.slots,
                       signing := r.signing, radio := k.(remote := r.radio.remote), drain := r.drain,
                       up := Upstream(None, map[], s.up.wire), debt := DebtAfter(s.debt, s.up.active),
                       actions := r.actions)
            && r.drain.popSeq == s.drain.popSeq
            && (k.remote.Vacant? ==> r.radio.remote.Vacant?)
            && (k.remote.Held? ==> r.radio.remote.Held? && r.radio.remote == k.remote.(owner := r.radio.remote.owner))
  {
    RosterListsAll(s.sessions, s.ids, s.order);
    hide DetachAll, RosterOk, AfterLoss, SigningOwnerGone, DebtAfter;
    var marked := s.(failed := true, debt := DebtAfter(s.debt, s.up.active),
                     radio := AfterLoss(s.radio, s.up.active, s.now, s.cfg.uncertaintyTimeout));
    DetachAllFrame(marked, marked.ids);
    var left := DetachAll(marked, marked.ids).sessions;
    assert forall x :: x !in left;
    assert left.Keys == {};
    assert left == map[];
  }

  lemma FailLists(s: State)
    requires !s.failed && RosterOk(s.sessions.Keys, s.ids, s.order) && SlotsOk(s.cfg, s.slots, s.sessions)
    requires RemoteOk(s.radio.remote, s.sessions, s.up.active)
    ensures var r := FailEpoch(s);
            RosterOk({}, r.ids, r.order) && SlotsOk(s.cfg, r.slots, map[]) && RemoteOk(r.radio.remote, map[], None)
  {
    hide DetachAll, RosterOk, SlotsOk, AfterLoss, SigningOwnerGone, DebtAfter, Near, Aside, Accepted;
    LossSettlesRemote(s.radio, s.sessions, s.up.active, s.now, s.cfg.uncertaintyTimeout);
    FailShape(s);
    var marked := s.(failed := true, debt := DebtAfter(s.debt, s.up.active),
                     radio := AfterLoss(s.radio, s.up.active, s.now, s.cfg.uncertaintyTimeout));
    DetachAllKeeps(marked, marked.ids);
    assert FailEpoch(s).sessions.Keys == {};
  }

  /** All a failure relies on. */
  ghost predicate FailReady(s: State) {
    && Disciplined(s.cfg.table, s.up.wire)
    && DebtOk(s.cfg.table, Awaited(s.up.active), s.up.wire) && (s.debt.Some? ==> AwaitsReply(s.up.active))
    && ConfigOk(s.cfg) && !s.fault && !s.failed
    && RosterOk(s.sessions.Keys, s.ids, s.order)
    && TxnsOk(s.cfg, s.up.active, s.debt)
    && SlotsOk(s.cfg, s.slots, s.sessions)
    && (s.debt.None? || s.debt == s.up.active)
    && OrphanOk(s.cfg.table, s.orphan, s.sessions, s.up.active, s.debt)
    && RemoteOk(s.radio.remote, s.sessions, s.up.active)
    && AirOk(s.cfg.uncertaintyTimeout, s.radio.air, s.radio.log, s.up.active, s.now)
  }

  lemma FailFrom(s: State, loose: bool, behind: seq<int>)
    requires FailReady(s)
    ensures Core(FailEpoch(s), loose, behind)
  {
    LossKeepsAir(s.cfg, s.radio, s.up.active, s.now);
    FailShape(s);
    FailLists(s);
    hide SentOk, ClientsOk, WireOk, SigningOk, SlotsOk, OutsOk, RosterOk, AirOk, InboxesOk, SyncsOk, AfterLoss,
         RemoteOk, TxnOk, FailEpoch, ConfigOk, Disciplined, DebtOk;
    var r := FailEpoch(s);
    EmptySessionsOk(r, loose, behind);
    assert r.sessions.Keys == {};
  }

  lemma FailedDebtKeeps(s: State, loose: bool, behind: seq<int>, loose': bool, behind': seq<int>, debt: Option<Txn>)
    requires Core(s, loose, behind) && !s.failed && (debt.None? || (debt == s.up.active && AwaitsReply(debt)))
    ensures Core(FailEpoch(s.(debt := debt)), loose', behind')
  {
    hide WireOk, RemoteOk, SigningOk, SlotsOk, SyncsOk, OutsOk, InboxesOk, ClientsOk, TxnOk, ConfigOk, RosterOk, AirOk,
         FailEpoch, Disciplined, DebtOk;
    CoreParts(s, loose, behind);
    FailFrom(s.(debt := debt), loose', behind');
  }

  lemma RosterListsAll(sessions: map<int, Session>, ids: seq<int>, order: seq<int>)
    requires RosterOk(sessions.Keys, ids, order)
    ensures forall x | x in sessions :: x in ids
  {
  }

  lemma EmptySessionsOk(r: State, loose: bool, behind: seq<int>)
    requires r.sessions == map[] && r.up.active.None?
    ensures ClientsOk(r.cfg, r.sessions, r.up.active)
    ensures OutsOk(r.cfg.table, r.sessions, r.up.wire)
    ensures InboxesOk(r.cfg.table, r.sessions, r.pops, behind)
    ensures SyncsOk(r.sessions, r.slots, r.drain, r.up, loose)
  {
  }

  /** Releasing a delivered maintenance result leaves nothing upstream. */
  lemma ReleaseResultKeeps(s: State, loose: bool, behind: seq<int>)
    requires Core(s, loose, behind) && s.up.active.Some? && s.up.active.value.step.MaintenanceResult?
    ensures Core(s.(up := s.up.(active := None)), true, behind)
  {
    hide SentOk, InboxesOk, SlotsOk, OutsOk, RosterOk, InboxOk;
    var s' := s.(up := s.up.(active := None));
    forall id | id in s.sessions
      ensures ClientOk(s.cfg, s.sessions[id], Current(None, id), Owns(None, id))
    {
      assert ClientOk(s.cfg, s.sessions[id], Current(s.up.active, id), Owns(s.up.active, id));
    }
  }

  lemma SigningChangeKeeps(s: State, g: Signing, loose: bool, behind: seq<int>)
    requires Core(s, loose, behind) && (!s.failed ==> SigningOk(g, s.up.active))
    ensures Core(s.(signing := g), loose, behind)
  {
  }

  lemma RemoveKeeps(s: State, id: int, loose: bool, behind: seq<int>)
    requires Core(s, loose, behind)
    ensures Core(Remove(s, id), loose, behind)
  {
    hide SentOk, ClientOk, InboxOk, SyncOk, TxnOk, WireOk, SigningOk, AirOk, SlotsOk, RosterOk, FailEpoch, Detach,
         ClientsOk, OutsOk, InboxesOk, SyncsOk, RemoteOk;
    if id in s.sessions {
      DetachKeeps(s, id, loose, behind);
      var gone := Detach(s, id);
      if AwaitingResultWrite(gone, id) {
        var t := gone.up.active.value;
        ReleaseResultKeeps(gone, loose, behind);
        var free := gone.(up := gone.up.(active := None));
        assert SigningOk(SigningOwnerGone(free.signing, t.owner), None) by {
          DetachSigning(free.signing, None, t.owner);
        }
        SigningChangeKeeps(free, SigningOwnerGone(free.signing, t.owner), true, behind);
        assert free.signing == gone.signing;
        var released := gone.(up := gone.up.(active := None),
                              signing := if t.owner in gone.sessions then gone.signing
                                         else SigningOwnerGone(gone.signing, t.owner));
        FailKeeps(released, true, behind, loose, behind);
      }
    }
  }

  // ----- Output -----

  lemma BehindSame(s: State, loose: bool, behind: seq<int>, behind': seq<int>)
    requires Core(s, loose, behind)
    requires forall x | x in s.sessions :: x in behind <==> x in behind'
    ensures Core(s, loose, behind')
  {
    hide SentOk, ClientOk, InboxOk, SyncOk, TxnOk, WireOk, SigningOk, AirOk, SlotsOk, RosterOk, RemoteOk;
  }

  /** Removing a session does not depend on what is queued in it. */
  lemma RemovePut(s: State, id: int, c: Session)
    requires id in s.sessions && c.slot == s.sessions[id].slot
    ensures Remove(Put(s, id, c), id) == Remove(s, id)
  {
    hide Finish;
    assert s.sessions[id := c] - {id} == s.sessions - {id};
    assert Detach(Put(s, id, c), id) == Detach(s, id);
  }

  lemma RemoveLoses(s: State, id: int)
    requires RosterOk(s.sessions.Keys, s.ids, s.order)
    ensures forall x | x in Remove(s, id).sessions :: x in s.sessions && x != id
  {
    if id in s.sessions {
      var gone := Detach(s, id);
      if AwaitingResultWrite(gone, id) {
        assert gone.sessions.Keys == s.sessions.Keys - {id};
        DetachRoster(s.sessions.Keys, s.ids, s.order, id);
        hide RosterOk, FailEpoch, Detach;
        var t := gone.up.active.value;
        var released := gone.(up := gone.up.(active := None),
                              signing := if t.owner in gone.sessions then gone.signing
                                         else SigningOwnerGone(gone.signing, t.owner));
        if !released.failed {
          FailShape(released);
        }
      }
    }
  }

  ghost function Sending(s: State, c: Session, o: Out): Session {
    Written(c, s.nextWrite + 1, s.now + s.cfg.writeTimeout, o)
  }

  /** A session `c0` taken out of order by an internal step is put in order by the frame sent to it,
      or has no room for the frame and leaves. */
  lemma EmitSwapKeeps(s: State, id: int, c0: Session, o: Out, loose: bool, behind: seq<int>, behind': seq<int>)
    requires Core(s, loose, behind) && id in s.sessions && c0.slot == s.sessions[id].slot
    requires |c0.writes| < s.cfg.outputFrames ==>
               SwapOk(s, id, Sending(s, c0, o), loose, if id in behind' then 1 else 0)
    requires forall x | x in s.sessions && x != id :: x in behind <==> x in behind'
    ensures Core(Emit(Put(s, id, c0), id, o), loose, behind')
  {
    hide SentOk, ClientOk, InboxOk, SyncOk, TxnOk, WireOk, SigningOk, AirOk, SlotsOk, RosterOk, RemoteOk, ClientsOk,
         OutsOk, InboxesOk, SyncsOk, Remove, SwapOk, TxnsOk, OrphanOk, StatusOk;
    var s0 := Put(s, id, c0);
    if |c0.writes| < s.cfg.outputFrames {
      var s' := Write(s0, id, o);
      assert s'.sessions == s.sessions[id := Sending(s, c0, o)];
      SwapKeeps(s, id, Sending(s, c0, o), s', loose, behind, behind');
    } else {
      RemovePut(s, id, c0);
      RemoveKeeps(s, id, loose, behind);
      RemoveLoses(s, id);
      BehindSame(Remove(s, id), loose, behind, behind');
    }
  }

  lemma AnsweredGrows(sent: seq<Out>, o: Out)
    ensures Answered(sent + [o]) == Answered(sent) + (if o.role.Answer? then [o.role.command] else [])
  {
    assert (sent + [o])[..|sent|] == sent;
  }

  lemma RelaysGrow(sent: seq<Out>, o: Out)
    ensures Relays(sent + [o]) == Relays(sent) + (if IsRelay(o) then [o.role.cause.k] else [])
  {
    assert (sent + [o])[..|sent|] == sent;
  }

  lemma OutStays(t: Table, w: seq<WireEvent>, sent: seq<Out>, i: nat, id: int, o: Out)
    requires i < |sent| && OutOk(t, w, sent, i, id)
    ensures OutOk(t, w, sent + [o], i, id)
  {
    hide ReplyTo, EmptySeen, ResultOf;
    assert (sent + [o])[..i] == sent[..i];
    if sent[i].role.Result? {
      AcceptedGrows(sent, i, sent + [o], i, sent[i].role.command, sent[i].role.tag);
    }
  }

  lemma SentGrows(t: Table, w: seq<WireEvent>, sent: seq<Out>, id: int, o: Out)
    requires SentOk(t, w, sent, id) && OutOk(t, w, sent + [o], |sent|, id) && !IsRelay(o)
    ensures SentOk(t, w, sent + [o], id)
  {
    hide OutOk, Relays, Due, IsRelay;
    RelaysGrow(sent, o);
    forall i | 0 <= i < |sent + [o]|
      ensures OutOk(t, w, sent + [o], i, id)
    {
      if i < |sent| {
        OutStays(t, w, sent, i, id, o);
      }
    }
  }

  /** The view of a client after one more frame. */
  lemma ViewGrows(c: Session, c': Session, o: Out)
    requires ViewOk(c) && c'.log.sent == c.log.sent + [o]
    requires c'.target == NextTarget(c.target, o) && c'.scope == NextScope(c.scope, o)
    requires c'.log.taken == c.log.taken + ItemIn(o)
    ensures ViewOk(c')
  {
    assert (c.log.sent + [o])[..|c.log.sent|] == c.log.sent;
  }

  /** A frame that answers nothing: pushes, hints, and late results. */
  lemma NotifyKeeps(s: State, id: int, o: Out, loose: bool, behind: seq<int>)
    requires Core(s, loose, behind)
    requires o.role.Notice? || (id in s.sessions && ResultDue(s.sessions[id].log.sent, |s.sessions[id].log.sent|, o))
    requires IsPush(o.payload)
    ensures Core(Emit(s, id, o), loose, behind)
  {
    if id !in s.sessions {
      return;
    }
    var c := s.sessions[id];
    NotifySwap(s, id, c, o, loose, if id in behind then 1 else 0, behind);
    hide *;
    assert Put(s, id, c) == s by { PutSame(s, id); }
    EmitSwapKeeps(s, id, c, o, loose, behind, behind);
  }

  lemma PutSame(s: State, id: int)
    requires id in s.sessions
    ensures Put(s, id, s.sessions[id]) == s
  {
    assert s.sessions[id := s.sessions[id]] == s.sessions;
  }

  /** A frame that answers nothing. */
  lemma FifoPart(c: Session, c': Session, o: Out, current: seq<Bytes>)
    requires Fifo(c, current) && !o.role.Answer? && c'.log.sent == c.log.sent + [o] && c'.commands == c.commands
    requires c'.sync == c.sync && c'.log.submitted == c.log.submitted
    ensures Fifo(c', current)
  {
    AnsweredGrows(c.log.sent, o);
  }

  lemma NotifySwap(s: State, id: int, c: Session, o: Out, loose: bool, lag: nat, behind: seq<int>)
    requires Core(s, loose, behind) && id in s.sessions && c == s.sessions[id] && lag == (if id in behind then 1 else 0)
    requires o.role.Notice? || ResultDue(c.log.sent, |c.log.sent|, o)
    requires IsPush(o.payload)
    ensures |c.writes| < s.cfg.outputFrames ==> SwapOk(s, id, Sending(s, c, o), loose, lag)
  {
    hide Core, InboxOk, OutOk, SentOk, ViewOk, ResultOf, Accepted, Fifo, WireOk, RemoteOk, SigningOk, SlotsOk, TxnsOk,
         ConfigOk, RosterOk, AirOk, OrphanOk;
    CoreParts(s, loose, behind);
    var c' := Sending(s, c, o);
    assert InboxOk(s.cfg.table, c, s.pops, lag);
    assert InboxOk(s.cfg.table, c', s.pops, lag) by {
      assert ViewOk(c) by { InboxView(s.cfg.table, c, s.pops, lag); }
      ViewGrows(c, c', o);
      InboxSame(s.cfg.table, c, c', s.pops, lag);
    }
    assert ClientOk(s.cfg, c, Current(s.up.active, id), Owns(s.up.active, id));
    FifoPart(c, c', o, Current(s.up.active, id));
    assert SentOk(s.cfg.table, s.up.wire, c.log.sent, id);
    assert OutOk(s.cfg.table, s.up.wire, c.log.sent + [o], |c.log.sent|, id) by {
      ResultOutOk(s.cfg.table, s.up.wire, c.log.sent, id, o);
    }
    SentGrows(s.cfg.table, s.up.wire, c.log.sent, id, o);
    assert SyncOk(c, s.slots, s.drain, s.up, loose);
  }

  lemma InboxView(t: Table, c: Session, pops: seq<Bytes>, lag: nat)
    requires InboxOk(t, c, pops, lag)
    ensures ViewOk(c)
  {
  }

  lemma InboxSame(t: Table, c: Session, c': Session, pops: seq<Bytes>, lag: nat)
    requires InboxOk(t, c, pops, lag) && ViewOk(c')
    requires c'.inbox == c.inbox && c'.slot == c.slot && c'.log.joined == c.log.joined
    requires c'.log.taken == c.log.taken && c'.log.handed == c.log.handed
    ensures InboxOk(t, c', pops, lag)
  {
  }

  lemma ResultOutOk(t: Table, w: seq<WireEvent>, sent: seq<Out>, id: int, o: Out)
    requires o.role.Notice? || ResultDue(sent, |sent|, o)
    requires IsPush(o.payload)
    ensures OutOk(t, w, sent + [o], |sent|, id)
  {
    hide ResultOf;
    if o.role.Result? {
      AcceptedGrows(sent, |sent|, sent + [o], |sent|, o.role.command, o.role.tag);
    }
  }
}
