/** Every event keeps the invariant. */
module BrokerEvents {
  import opened Wire
  import opened Protocol
  import opened Leases
  import opened Slots
  import opened Broker
  import opened BrokerInvariant
  import opened BrokerClients
  import opened BrokerInbox
  import opened BrokerPops
  import opened BrokerWire
  import opened BrokerSchedule
  import opened BrokerReplies
  import opened BrokerScopes
  import AckRing

  // ----- Pushes -----

  lemma SettleFrees(r: AckRing.Ring, token: nat, now: Time)
    requires AckRing.FreeSlot(r, now)
    ensures AckRing.FreeSlot(AckRing.Settle(r, token), now)
  {
  }

  lemma ConfirmKeeps(s: State, token: nat)
    requires Inv(s)
    ensures Inv(s.(radio := s.radio.(air := s.radio.air.(ring := AckRing.Settle(s.radio.air.ring, token)),
                                     log := s.radio.log + [AckRing.Confirmed(token)])))
  {
    hide AckRing.LogOk, AckRing.Replay, AckRing.InFlight, AckRing.FreeSlot, AckRing.Settle;
    AckRing.CallExtends(s.radio.log, AckRing.Confirmed(token), s.cfg.uncertaintyTimeout);
    if DmUpstream(s.up.active) {
      SettleFrees(s.radio.air.ring, token, s.now);
    }
    hide WireOk, RemoteOk, SigningOk, SlotsOk, OutsOk, InboxesOk, ClientsOk, ConfigOk, RosterOk, TxnsOk, OrphanOk,
         SyncsOk;
  }

  lemma ShapeIsReadable(t: Table, kind: Kind, p: Bytes)
    requires ShapesOk(t) && t.responseShape(p)
    ensures Readable(kind, p)
  {
  }

  lemma MatchKeepsRemote(r: Remote, sessions: map<int, Session>, active: Option<Txn>, t: Table, p: Bytes, now: Time)
    requires RemoteOk(r, sessions, active) && ShapesOk(t) && t.responseShape(p)
    ensures var m := MatchPush(r, p, now);
            && RemoteOk(m.0, sessions, active) && !m.1.Unreadable?
            && (m.1.Matched? && m.1.owner.Some? ==>
                  && m.1.owner.value in sessions
                  && var sent := sessions[m.1.owner.value].log.sent;
                     ResultDue(sent, |sent|, Out(p, Result(m.1.command, m.1.tag))))
  {
    if r.Held? {
      ShapeIsReadable(t, r.kind, p);
    }
    hide ShapesOk, Accepted;
  }

  lemma RemoteChangeKeeps(s: State, r: Remote)
    requires Inv(s) && RemoteOk(r, s.sessions, s.up.active)
    ensures Inv(s.(radio := s.radio.(remote := r)))
  {
    hide WireOk, RemoteOk, SigningOk, SlotsOk, OutsOk, InboxesOk, ClientsOk, ConfigOk, RosterOk, TxnsOk, OrphanOk,
         SyncsOk, AirOk;
  }

  lemma RemoteResultKeeps(s: State, p: Bytes, now: Time)
    requires Inv(s) && s.cfg.table.responseShape(p) && IsPush(p)
    ensures Inv(RemoteResult(s, p, now))
  {
    assert RemoteOk(s.radio.remote, s.sessions, s.up.active) && ShapesOk(s.cfg.table);
    hide Core, RemoteOk, ShapesOk, Emit, MatchPush, ResultDue;
    MatchKeepsRemote(s.radio.remote, s.sessions, s.up.active, s.cfg.table, p, now);
    var m := MatchPush(s.radio.remote, p, now);
    var r := s.(radio := s.radio.(remote := m.0));
    RemoteChangeKeeps(s, m.0);
    assert r == s.(radio := s.radio.(remote := m.0), fault := s.fault || m.1.Unreadable?);
    if m.1.Matched? && m.1.owner.Some? {
      NotifyKeeps(r, m.1.owner.value, Out(p, Result(m.1.command, m.1.tag)), false, []);
    }
  }

  lemma WaitingKeeps(s: State, p: Bytes, now: Time)
    requires Inv(s) && Opcode(p) == PUSH_MSG_WAITING
    ensures Inv(Push(s, p, now))
  {
    hide Core, HintAll;
    var drain := s.drain.(generation := s.drain.generation + 1, requested := s.drain.requested || s.drain.authorized);
    DrainChangeKeeps(s, drain);
    HintAllKeeps(s.(drain := drain), s.ids, false, []);
  }

  ghost function Confirming(s: State, token: nat): State {
    s.(radio := s.radio.(air := s.radio.air.(ring := AckRing.Settle(s.radio.air.ring, token)),
                         log := s.radio.log + [AckRing.Confirmed(token)]))
  }

  lemma ConfirmShape(s: State, p: Bytes, now: Time)
    requires Opcode(p) == PUSH_SEND_CONFIRMED && |p| == 9
    ensures Push(s, p, now) == Broadcast(Confirming(s, U32(p, 1)), s.ids, p)
  {
    hide Broadcast, AckRing.Settle, HintAll, TxnResponse, RemoteResult, U32, IsSelfTelemetry;
  }

  lemma ConfirmedKeeps(s: State, p: Bytes, now: Time)
    requires Inv(s) && Opcode(p) == PUSH_SEND_CONFIRMED && |p| == 9
    ensures Inv(Push(s, p, now))
  {
    hide Core, Broadcast, Push, AckRing.Settle;
    ConfirmShape(s, p, now);
    ConfirmKeeps(s, U32(p, 1));
    BroadcastKeeps(Confirming(s, U32(p, 1)), s.ids, p, false, []);
  }

  lemma ResultPushKeeps(s: State, p: Bytes, now: Time)
    requires Inv(s) && s.cfg.table.responseShape(p) && IsPush(p) && Opcode(p) in RESULT_PUSHES
    requires Opcode(p) != PUSH_MSG_WAITING && Opcode(p) != PUSH_SEND_CONFIRMED
    ensures Inv(Push(s, p, now))
  {
    assert s.failed ==> s.up.active.None?;
    hide Core, TxnResponse, RemoteResult, Broadcast, HintAll;
    if IsSelfTelemetry(s, p) {
      TxnResponseKeeps(s, p);
    } else {
      RemoteResultKeeps(s, p, now);
    }
  }

  lemma BroadcastPushKeeps(s: State, p: Bytes, now: Time)
    requires Inv(s) && IsPush(p) && Opcode(p) !in RESULT_PUSHES
    requires Opcode(p) != PUSH_MSG_WAITING && Opcode(p) != PUSH_SEND_CONFIRMED
    ensures Inv(Push(s, p, now))
  {
    hide Core, Broadcast, TxnResponse, RemoteResult, HintAll;
    BroadcastKeeps(s, s.ids, p, false, []);
  }

  lemma ConfirmationSize(s: State, p: Bytes)
    requires Inv(s) && s.cfg.table.responseShape(p) && Opcode(p) == PUSH_SEND_CONFIRMED
    ensures |p| == 9
  {
    assert ShapesOk(s.cfg.table);
    hide Core;
  }

  lemma PushKeeps(s: State, p: Bytes, now: Time)
    requires Inv(s) && s.cfg.table.responseShape(p) && IsPush(p)
    ensures Inv(Push(s, p, now))
  {
    hide Core, Push;
    if Opcode(p) == PUSH_MSG_WAITING {
      WaitingKeeps(s, p, now);
    } else if Opcode(p) == PUSH_SEND_CONFIRMED {
      ConfirmationSize(s, p);
      ConfirmedKeeps(s, p, now);
    } else if Opcode(p) in RESULT_PUSHES {
      ResultPushKeeps(s, p, now);
    } else {
      BroadcastPushKeeps(s, p, now);
    }
  }

  // ----- Deadlines -----

  lemma ExpireLeasesKeeps(s: State, now: Time)
    requires Inv(s)
    ensures Inv(ExpireLeases(s, now))
  {
    assert s.up.active.Some? ==> CommandOk(s.cfg.table, s.up.active.value.command, s.up.active.value.desc);
    hide WireOk, SlotsOk, OutsOk, InboxesOk, ClientsOk, RosterOk, OrphanOk, SyncsOk, AirOk, Accepted, TableOk;
  }

  lemma PollKeeps(s: State, now: Time)
    requires Inv(s)
    ensures Inv(HintAll(s.(lastPoll := now), s.ids))
  {
    hide WireOk, RemoteOk, SigningOk, SlotsOk, OutsOk, InboxesOk, ClientsOk, ConfigOk, RosterOk, TxnsOk, OrphanOk,
         SyncsOk, AirOk, HintAll;
    HintAllKeeps(s.(lastPoll := now), s.ids, false, []);
  }

  lemma OverdueKeeps(s: State)
    requires Inv(s) && !s.failed && AwaitsReply(s.up.active)
    ensures Inv(OverdueFail(s))
  {
    hide Core, FailEpoch;
    FailedDebtKeeps(s, false, [], false, [], s.up.active);
  }

  lemma OverdueAwaits(s: State, now: Time)
    requires ResponseOverdue(s, now)
    ensures AwaitsReply(s.up.active)
  {
  }

  /** The state in which a tick schedules, when nothing upstream is overdue. */
  ghost function Ticked(s: State): State {
    var s1 := ExpireLeases(ExpireSessions(s, s.ids), s.now);
    if s1.sessions != map[] && s.now - s1.lastPoll >= s1.cfg.pollInterval then
      HintAll(s1.(lastPoll := s.now), s1.ids)
    else s1
  }

  lemma TickedKeeps(s: State)
    requires Inv(s)
    ensures Inv(Ticked(s)) && Ticked(s).now == s.now
  {
    hide Core, ExpireSessions, HintAll, ExpireLeases;
    ExpireSessionsKeeps(s, s.ids);
    ExpireLeasesKeeps(ExpireSessions(s, s.ids), s.now);
    PollKeeps(ExpireLeases(ExpireSessions(s, s.ids), s.now), s.now);
  }

  lemma TickKeeps(s: State, now: Time)
    requires Inv(s) && s.now <= now
    ensures Inv(OnTick(s, now))
  {
    hide Core, FailEpoch, OverdueFail, Schedule, Ticked, AnyOverdue, ResponseOverdue, OnTick;
    ClockKeeps(s, now);
    var s0 := s.(now := now);
    TickShape(s, now);
    if !s.failed {
      if ResponseOverdue(s0, now) {
        OverdueAwaits(s0, now);
        OverdueKeeps(s0);
      } else if AnyOverdue(s.up.writes, now) {
        FailKeeps(s0, false, [], false, []);
      } else {
        TickedKeeps(s0);
        ScheduleKeeps(Ticked(s0), now);
      }
    }
  }

  lemma TickShape(s: State, now: Time)
    ensures var s0 := s.(now := now);
            OnTick(s, now) ==
            if s.failed then s0
            else if ResponseOverdue(s0, now) then OverdueFail(s0)
            else if AnyOverdue(s.up.writes, now) then FailEpoch(s0)
            else Schedule(Ticked(s0), now)
  {
    hide FailEpoch, OverdueFail, Schedule, ExpireSessions, ExpireLeases, HintAll, AnyOverdue, ResponseOverdue;
  }

  // ----- Clients come, speak and go -----

  /** Nothing was ever asked upstream for that session. */
  ghost predicate Unused(w: seq<WireEvent>, id: int) {
    forall k | 0 <= k < |w| && w[k].Asked? :: w[k].job.owner != id
  }

  lemma {:induction false} UnusedIsNotDue(t: Table, w: seq<WireEvent>, id: int)
    requires Unused(w, id)
    ensures Owed(t, w).Some? ==> Owed(t, w).value.owner != id
    ensures Due(t, w, id) == []
    decreases |w|
  {
    if w != [] {
      UnusedIsNotDue(t, w[..|w| - 1], id);
    }
  }

  ghost predicate Welcome(s: State, id: int, slot: Option<int>) {
    && id > 0 && id !in s.sessions && !Owns(s.up.active, id) && Unused(s.up.wire, id) && !s.failed
    && !(s.up.active.Some? && s.up.active.value.maintenance)
    && (slot.Some? ==> slot.value in s.slots && s.slots[slot.value].attached.None?)
  }

  ghost function Standing(s: State, slot: Option<int>): nat {
    if slot.Some? && slot.value in s.slots then |s.slots[slot.value].taken| else |s.pops|
  }

  ghost function Joining(s: State, id: int, slot: Option<int>): Session {
    var handed := if slot.None? && s.orphan.Some? then [s.orphan.value] else [];
    NewSession(slot, Standing(s, slot), handed).(inbox := handed)
  }

  ghost function JoinedSlots(slots: map<int, Slot>, id: int, slot: Option<int>): map<int, Slot>
    requires slot.Some? ==> slot.value in slots
  {
    if slot.Some? then slots[slot.value := slots[slot.value].(attached := Some(id))] else slots
  }

  ghost function Joined(s: State, id: int, slot: Option<int>): State
    requires slot.Some? ==> slot.value in s.slots
  {
    s.(sessions := s.sessions[id := Joining(s, id, slot)], ids := s.ids + [id], order := s.order + [id],
       slots := JoinedSlots(s.slots, id, slot), orphan := if slot.None? then None else s.orphan)
  }

  lemma JoinedSessionOk(s: State, id: int, slot: Option<int>)
    requires Inv(s) && Welcome(s, id, slot)
    ensures var c := Joining(s, id, slot);
            && ClientOk(s.cfg, c, Current(s.up.active, id), Owns(s.up.active, id))
            && SentOk(s.cfg.table, s.up.wire, c.log.sent, id)
            && InboxOk(s.cfg.table, c, s.pops, 0)
            && c.sync.None?
  {
    hide ClientsOk, OutsOk, InboxesOk, SlotsOk, SyncsOk, RemoteOk, SigningOk, AirOk, WireOk, TxnsOk, RosterOk, ConfigOk,
         IsItem;
    assert Payloads([]) == [];
    UnusedIsNotDue(s.cfg.table, s.up.wire, id);
  }

  lemma JoinedSlotsOk(cfg: Config, slots: map<int, Slot>, sessions: map<int, Session>, id: int, slot: Option<int>,
                      c: Session)
    requires SlotsOk(cfg, slots, sessions) && id !in sessions && c.slot == slot
    requires slot.Some? ==> slot.value in slots && slots[slot.value].attached.None?
    ensures SlotsOk(cfg, JoinedSlots(slots, id, slot), sessions[id := c])
  {
    hide IsItem, ItemsOk, Sub;
  }

  lemma JoinedSyncs(s: State, id: int, slot: Option<int>)
    requires SyncsOk(s.sessions, s.slots, s.drain, s.up, false) && Welcome(s, id, slot)
    ensures SyncsOk(Joined(s, id, slot).sessions, JoinedSlots(s.slots, id, slot), s.drain, s.up, false)
  {
  }

  lemma JoinedRoster(keys: set<int>, ids: seq<int>, order: seq<int>, id: int)
    requires RosterOk(keys, ids, order) && id !in keys && id > 0
    ensures RosterOk(keys + {id}, ids + [id], order + [id])
  {
    assert id !in ids && id !in order;
  }

  lemma JoinedElsewhere(s: State, id: int, slot: Option<int>)
    requires Inv(s) && Welcome(s, id, slot)
    ensures var r := Joined(s, id, slot);
            && RemoteOk(r.radio.remote, r.sessions, r.up.active)
            && ScopeTied(r.sessions, r.up.active) && Exclusive(r.sessions, r.up.active)
            && OrphanOk(r.cfg.table, r.orphan, r.sessions, r.up.active, r.debt)
  {
    hide ClientsOk, OutsOk, InboxesOk, SlotsOk, SyncsOk, SigningOk, AirOk, WireOk, TxnsOk, RosterOk, ConfigOk, IsItem,
         Accepted;
  }

  lemma TablesGrow(cfg: Config, sessions: map<int, Session>, up: Upstream, pops: seq<Bytes>, id: int, c: Session)
    requires ClientsOk(cfg, sessions, up.active) && OutsOk(cfg.table, sessions, up.wire)
    requires InboxesOk(cfg.table, sessions, pops, [])
    requires ClientOk(cfg, c, Current(up.active, id), Owns(up.active, id)) && SentOk(cfg.table, up.wire, c.log.sent, id)
    requires InboxOk(cfg.table, c, pops, 0)
    ensures ClientsOk(cfg, sessions[id := c], up.active) && OutsOk(cfg.table, sessions[id := c], up.wire)
    ensures InboxesOk(cfg.table, sessions[id := c], pops, [])
  {
    hide ClientOk, SentOk, InboxOk, Current, Owns;
  }

  lemma JoinedTables(s: State, id: int, slot: Option<int>)
    requires Inv(s) && Welcome(s, id, slot)
    ensures var r := Joined(s, id, slot);
            && ClientsOk(r.cfg, r.sessions, r.up.active) && OutsOk(r.cfg.table, r.sessions, r.up.wire)
            && InboxesOk(r.cfg.table, r.sessions, r.pops, [])
  {
    JoinedSessionOk(s, id, slot);
    assert ClientsOk(s.cfg, s.sessions, s.up.active) && OutsOk(s.cfg.table, s.sessions, s.up.wire)
           && InboxesOk(s.cfg.table, s.sessions, s.pops, []);
    hide Core, ClientOk, SentOk, InboxOk, Current, Owns, Joining, Unused, JoinedSlots, OutsOk, ClientsOk, InboxesOk;
    TablesGrow(s.cfg, s.sessions, s.up, s.pops, id, Joining(s, id, slot));
  }

  lemma JoinKeeps(s: State, id: int, slot: Option<int>)
    requires Inv(s) && Welcome(s, id, slot)
    ensures Inv(Joined(s, id, slot))
  {
    hide ClientsOk, OutsOk, InboxesOk, SyncsOk, SlotsOk, RosterOk, RemoteOk, SigningOk, AirOk, WireOk, TxnsOk, OrphanOk,
         ConfigOk, ScopeTied, Exclusive, JoinedSlots;
    JoinedTables(s, id, slot);
    JoinedSlotsOk(s.cfg, s.slots, s.sessions, id, slot, Joining(s, id, slot));
    JoinedSyncs(s, id, slot);
    JoinedRoster(s.sessions.Keys, s.ids, s.order, id);
    JoinedElsewhere(s, id, slot);
    hide Joining;
    assert Joined(s, id, slot).sessions.Keys == s.sessions.Keys + {id};
  }

  lemma HandOverIsHint(s: State, id: int, c: Session, p: Bytes)
    requires c.sync.None? && c.inbox == [] && s.cfg.inboxEntries > 0
    ensures EnqueueMulti(Put(s, id, c), id, p) == Hint(Put(s, id, c.(inbox := [p])), id)
  {
    assert Enqueued(c, p).(sync := None) == c.(inbox := [p]) by { assert [] + [p] == [p]; }
    assert Put(Put(s, id, c), id, c.(inbox := [p])) == Put(s, id, c.(inbox := [p])) by {
      assert s.sessions[id := c][id := c.(inbox := [p])] == s.sessions[id := c.(inbox := [p])];
    }
    hide Hint;
  }

  lemma HintAgain(s: State, id: int)
    requires HasRoom(s, id)
    ensures Hint(Hint(s, id), id) == Hint(s, id) && id in Hint(s, id).sessions
  {
  }

  lemma FreshHasRoom(s: State, id: int, slot: Option<int>)
    requires ConfigOk(s.cfg) && Welcome(s, id, slot)
    ensures HasRoom(Joined(s, id, slot), id)
  {
  }

  /** Admission with the slot free: the new session, its orphan, and one hint. */
  lemma AdmitShape(s: State, id: int, slot: Option<int>)
    requires ConfigOk(s.cfg) && Welcome(s, id, slot)
    ensures var s2 := s.(slots := JoinedSlots(s.slots, id, slot));
            var handed := if slot.None? && s2.orphan.Some? then [s2.orphan.value] else [];
            var c := NewSession(slot, Standing(s2, slot), handed);
            var s3 := s2.(sessions := s2.sessions[id := c], ids := s2.ids + [id], order := s2.order + [id],
                          orphan := if slot.None? then None else s2.orphan);
            var s4 := if handed != [] then EnqueueMulti(s3, id, handed[0]) else s3;
            && id in s4.sessions && Hint(s4, id) == Hint(Joined(s, id, slot), id)
  {
    var s2 := s.(slots := JoinedSlots(s.slots, id, slot));
    var handed := if slot.None? && s2.orphan.Some? then [s2.orphan.value] else [];
    var c := NewSession(slot, Standing(s2, slot), handed);
    var base := s2.(ids := s2.ids + [id], order := s2.order + [id], orphan := if slot.None? then None else s2.orphan);
    var s3 := Put(base, id, c);
    FreshHasRoom(s, id, slot);
    HintAgain(Joined(s, id, slot), id);
    if handed != [] {
      HandOverIsHint(base, id, c, handed[0]);
      assert Put(base, id, c.(inbox := [handed[0]])) == Joined(s, id, slot);
    } else {
      assert c.(inbox := handed) == c;
      assert s3 == Joined(s, id, slot);
    }
    hide EnqueueMulti, Hint;
  }

  lemma RemoveFreesSlot(s: State, d: int)
    requires Inv(s) && d in s.slots && s.slots[d].attached.Some?
    requires !(s.up.active.Some? && s.up.active.value.maintenance)
    ensures var r := Remove(s, s.slots[d].attached.value);
            && d in r.slots && r.slots[d].attached.None? && r.up == s.up && r.failed == s.failed && r.orphan == s.orphan
            && r.sessions.Keys <= s.sessions.Keys
  {
    SlotHasOneUser(s, false, [], d);
    hide Core;
  }

  ghost predicate Vacated(s: State, slot: Option<int>) {
    slot.Some? && slot.value in s.slots && s.slots[slot.value].attached.Some?
  }

  lemma AdmitFrom(s: State, id: int, slot: Option<int>, now: Time)
    requires Inv(s) && Welcome(s, id, slot) && s.now <= now
    ensures Inv(Schedule(Hint(Joined(s, id, slot), id), now))
  {
    hide Core, Hint, Schedule, Joined;
    JoinKeeps(s, id, slot);
    HintKeeps(Joined(s, id, slot), id, false, []);
    assert Joined(s, id, slot).now == s.now by { JoinedClock(s, id, slot); }
    ScheduleKeeps(Hint(Joined(s, id, slot), id), now);
  }

  lemma JoinedClock(s: State, id: int, slot: Option<int>)
    requires slot.Some? ==> slot.value in s.slots
    ensures Joined(s, id, slot).now == s.now
  {
  }

  /** The state once a previous user of the slot has been replaced. */
  ghost function Vacating(s: State, slot: Option<int>): State {
    if Vacated(s, slot) then Remove(s, s.slots[slot.value].attached.value) else s
  }

  ghost predicate Admissible(s: State, id: int, slot: Option<int>) {
    && id > 0 && id !in s.sessions && !Owns(s.up.active, id) && Unused(s.up.wire, id) && !s.failed
    && !(s.up.active.Some? && s.up.active.value.maintenance) && (slot.Some? ==> slot.value in s.slots)
  }

  lemma VacatedIsWelcome(s: State, id: int, slot: Option<int>)
    requires Inv(s) && Admissible(s, id, slot)
    ensures Inv(Vacating(s, slot)) && Welcome(Vacating(s, slot), id, slot)
    ensures Vacating(s, slot).pops == s.pops && Vacating(s, slot).now == s.now && Vacating(s, slot).cfg == s.cfg
  {
    hide Core, Remove, Unused;
    if Vacated(s, slot) {
      RemoveFreesSlot(s, slot.value);
      RemoveKeeps(s, s.slots[slot.value].attached.value, false, []);
    }
  }

  lemma AdmitIs(s: State, id: int, slot: Option<int>, now: Time)
    requires ConfigOk(s.cfg) && Admissible(s, id, slot)
    requires Welcome(Vacating(s.(now := now), slot), id, slot)
    requires var v := Vacating(s.(now := now), slot); v.pops == s.pops && v.cfg == s.cfg
    ensures OnAdmit(s, id, slot, now) == Schedule(Hint(Joined(Vacating(s.(now := now), slot), id, slot), id), now)
  {
    hide Remove, EnqueueMulti, Hint, Schedule, Joined, ConfigOk, Near, Aside, Unused;
    AdmitShape(Vacating(s.(now := now), slot), id, slot);
  }

  lemma AdmitKeeps(s: State, id: int, slot: Option<int>, now: Time)
    requires Inv(s) && s.now <= now && id > 0 && id !in s.sessions && !Owns(s.up.active, id) && Unused(s.up.wire, id)
    requires slot.Some? ==> slot.value in s.slots
    ensures Inv(OnAdmit(s, id, slot, now))
  {
    assert ConfigOk(s.cfg);
    hide Core, ConfigOk, Unused, Schedule, Joined, Hint, Remove;
    ClockKeeps(s, now);
    var s0 := s.(now := now);
    if s.failed || (s.up.active.Some? && s.up.active.value.maintenance) {
      ActionKeeps(s0, s0.actions + [CloseSession(id)]);
    } else {
      var s1 := Vacating(s0, slot);
      VacatedIsWelcome(s0, id, slot);
      AdmitIs(s, id, slot, now);
      AdmitFrom(s1, id, slot, now);
    }
  }

  lemma ActionKeeps(s: State, actions: seq<Action>)
    requires Inv(s)
    ensures Inv(s.(actions := actions))
  {
    hide WireOk, RemoteOk, SigningOk, SlotsOk, OutsOk, InboxesOk, ClientsOk, ConfigOk, RosterOk, TxnsOk, OrphanOk,
         SyncsOk, AirOk;
  }

  lemma FifoSubmit(c: Session, c': Session, current: seq<Bytes>, q: Queued)
    requires Fifo(c, current) && c' == c.(commands := c.commands + [q], log := c'.log)
    requires c'.log == c.log.(submitted := c.log.submitted + [q.payload])
    ensures Fifo(c', current)
  {
    assert Payloads(c'.commands) == Payloads(c.commands) + [q.payload];
  }

  lemma SubmitSwap(s: State, id: int, p: Bytes, at: Time, c': Session)
    requires Inv(s) && id in s.sessions && !QueueFull(s, id)
    requires var c := s.sessions[id];
             c' == c.(commands := c.commands + [Queued(p, at)], log := c.log.(submitted := c.log.submitted + [p]))
    ensures SwapOk(s, id, c', false, 0)
  {
    hide Core, Fifo, SentOk, InboxOk, ViewOk;
    var c := s.sessions[id];
    CoreSession(s, id, false, []);
    CoreView(s, id, false, []);
    assert ViewOk(c') by { SameView(c, c'); }
    FifoSubmit(c, c', Current(s.up.active, id), Queued(p, at));
    InboxSame(s.cfg.table, c, c', s.pops, 0);
  }

  lemma SubmitKeeps(s: State, id: int, p: Bytes, at: Time)
    requires Inv(s) && id in s.sessions && !QueueFull(s, id)
    ensures var c := s.sessions[id];
            Inv(Put(s, id, c.(commands := c.commands + [Queued(p, at)],
                              log := c.log.(submitted := c.log.submitted + [p]))))
  {
    var c := s.sessions[id];
    var c' := c.(commands := c.commands + [Queued(p, at)], log := c.log.(submitted := c.log.submitted + [p]));
    hide Core, SwapOk, QueueFull;
    SubmitSwap(s, id, p, at, c');
    SwapKeeps(s, id, c', Put(s, id, c'), false, [], []);
  }

  lemma ClientFrameKeeps(s: State, id: int, p: Bytes, now: Time)
    requires Inv(s) && s.now <= now
    ensures Inv(OnClientFrame(s, id, p, now))
  {
    ClockKeeps(s, now);
    var s0 := s.(now := now);
    hide Core, Schedule, Remove;
    if !s.failed && id in s.sessions {
      if QueueFull(s0, id) {
        RemoveKeeps(s0, id, false, []);
        ScheduleKeeps(Remove(s0, id), now);
      } else {
        SubmitKeeps(s0, id, p, now);
        var c := s.sessions[id];
        ScheduleKeeps(Put(s0, id, c.(commands := c.commands + [Queued(p, now)],
                                     log := c.log.(submitted := c.log.submitted + [p]))), now);
      }
    }
  }

  lemma LeaveKeeps(s: State, id: int, now: Time)
    requires Inv(s) && s.now <= now
    ensures Inv(Schedule(Remove(s.(now := now), id), now))
  {
    ClockKeeps(s, now);
    hide Core, Schedule, Remove;
    RemoveKeeps(s.(now := now), id, false, []);
    ScheduleKeeps(Remove(s.(now := now), id), now);
  }

  // ----- Writes complete -----

  lemma UpstreamWrittenKeeps(s: State, w: int, now: Time)
    requires Inv(s) && !s.failed
    ensures Inv(UpstreamWritten(s, w, now)) && UpstreamWritten(s, w, now).now == s.now
  {
    assert WireOk(s.cfg.table, s.up) && TxnsOk(s.cfg, s.up.active, s.debt);
    hide Core;
    if s.up.active.Some? && s.up.active.value.write == Some(w) {
      var t := s.up.active.value;
      var r := UpstreamWritten(s, w, now);
      var t' := r.up.active.value;
      WireSettled(s.cfg.table, s.up, t, t');
      assert r.up == Upstream(Some(t'), s.up.writes - {w}, s.up.wire);
      hide WireOk;
      TouchKeeps(s, t', r.up);
      assert r == s.(up := r.up);
    } else {
      assert w !in s.up.writes;
      assert s.up.writes - {w} == s.up.writes;
    }
  }

  lemma FinishResultKeeps(s: State)
    requires Inv(s) && !s.failed && s.up.active.Some? && s.up.active.value.step.MaintenanceResult?
    ensures Inv(Finish(s, s.up.active.value)) && Finish(s, s.up.active.value).now == s.now
  {
    assert s.up.active.value.maintenance;
    ReleaseResultKeeps(s, false, []);
    var t := s.up.active.value;
    var r := s.(up := s.up.(active := None));
    assert SigningOk(s.signing, None);
    var g := if t.owner in s.sessions then s.signing else SigningOwnerGone(s.signing, t.owner);
    assert SigningOk(g, None);
    hide Core, SigningOk, FailEpoch;
    SigningChangeKeeps(r, g, true, []);
    FailKeeps(r.(signing := g), true, [], false, []);
  }

  lemma ClientWrittenKeeps(s: State, id: int, w: int)
    requires Inv(s) && !s.failed && id in s.sessions
    ensures Inv(ClientWritten(s, id, w)) && ClientWritten(s, id, w).now == s.now
  {
    var c := s.sessions[id];
    var c' := c.(writes := c.writes - {w}, hint := if c.hint == Some(w) then None else c.hint);
    assert |c'.writes| <= |c.writes| by { Fewer(c.writes, w); }
    hide Core, Finish;
    TweakKeeps(s, id, c', false, []);
    var r := Put(s, id, c');
    if AwaitingResultWrite(r, id) && r.up.active.value.resultWrite == Some(w) {
      FinishResultKeeps(r);
    }
  }

  lemma Fewer(m: map<int, Time>, w: int)
    ensures |m - {w}| <= |m|
  {
    if w in m {
      assert m == (m - {w})[w := m[w]];
    } else {
      assert m - {w} == m;
    }
  }

  lemma WriteDoneKeeps(s: State, id: int, epoch: int, w: int, now: Time)
    requires Inv(s) && s.now <= now
    ensures Inv(OnWriteDone(s, id, epoch, w, now))
  {
    hide Core, Schedule, UpstreamWritten, ClientWritten;
    if epoch == s.epoch && !s.failed {
      if id == 0 {
        UpstreamWrittenKeeps(s, w, now);
        ScheduleKeeps(UpstreamWritten(s, w, now), now);
      } else if id in s.sessions {
        ClientWrittenKeeps(s, id, w);
        ScheduleKeeps(ClientWritten(s, id, w), now);
      } else {
        ScheduleKeeps(s, now);
      }
    }
  }

  lemma WriteFailedKeeps(s: State, id: int, epoch: int, now: Time)
    requires Inv(s) && s.now <= now
    ensures Inv(OnWriteFailed(s, id, epoch, now))
  {
    hide Core, Schedule, Remove, FailEpoch;
    if epoch == s.epoch && !s.failed {
      if id == 0 {
        ClockKeeps(s, now);
        FailKeeps(s.(now := now), false, [], false, []);
      } else {
        LeaveKeeps(s, id, now);
      }
    }
  }

  // ----- The companion speaks -----

  lemma UpstreamFrameKeeps(s: State, p: Bytes, now: Time)
    requires Inv(s) && s.now <= now
    ensures Inv(OnUpstreamFrame(s, p, now))
  {
    ClockKeeps(s, now);
    var s0 := s.(now := now);
    hide Core, Schedule, FailEpoch, OverdueFail, Push, TxnResponse, ResponseOverdue;
    if !s.failed {
      if ResponseOverdue(s0, now) {
        OverdueAwaits(s0, now);
        OverdueKeeps(s0);
      } else if !s.cfg.table.responseShape(p) {
        FailKeeps(s0, false, [], false, []);
      } else if IsPush(p) {
        PushKeeps(s0, p, now);
        ScheduleKeeps(Push(s0, p, now), now);
      } else {
        TxnResponseKeeps(s0, p);
        ScheduleKeeps(TxnResponse(s0, p), now);
      }
    }
  }

  // ----- A poisoned connection is drained -----

  /** A reply on the poisoned connection: nobody is there to see it. */
  lemma DebtKeeps(s: State, p: Bytes, debt: Option<Txn>)
    requires Inv(s) && s.failed && (debt.Some? ==> TxnOk(s.cfg, debt.value))
    requires PopWithMulti(debt) ==> PopWithMulti(s.debt)
    requires DebtOk(s.cfg.table, debt, s.up.wire + [Got(p)])
    ensures Inv(Heard(s, p).(debt := debt))
  {
    hide WireOk, RemoteOk, SigningOk, SlotsOk, OutsOk, InboxesOk, ClientsOk, ConfigOk, RosterOk, SyncsOk, AirOk, TxnOk,
         DebtOk, Disciplined;
    Getting(s.cfg.table, s.up.wire, p);
    EmptySessionsOk(Heard(s, p).(debt := debt), false, []);
  }

  /** A terminating reply pays the debt. */
  lemma DebtPaid(s: State, t: Txn, p: Bytes)
    requires Inv(s) && s.failed && s.debt == Some(t)
    requires t.step.Setup? || t.step.Restore? || Completes(t.desc, p)
    ensures DebtOk(s.cfg.table, None, s.up.wire + [Got(p)])
  {
    hide Core, Owed, Disciplined, PhysicalScope;
    CoreParts(s, false, []);
    Getting(s.cfg.table, s.up.wire, p);
    assert TxnOk(s.cfg, t);
  }

  /** A frame of a stream that is not its last leaves the debt. */
  lemma DebtStays(s: State, t: Txn, p: Bytes, started: bool)
    requires Inv(s) && s.failed && s.debt == Some(t) && t.step.Command? && !Completes(t.desc, p)
    ensures DebtOk(s.cfg.table, Some(t.(contacts := started)), s.up.wire + [Got(p)])
  {
    hide Core, Owed, Disciplined, PhysicalScope, TxnsOk, ConfigOk, SlotsOk, RemoteOk, AirOk, OrphanOk, RosterOk, Final,
         Completes;
    CoreParts(s, false, []);
    StreamIsClients(s, t, p);
    Getting(s.cfg.table, s.up.wire, p);
  }

  /** Only a client's own command is answered by a stream. */
  lemma StreamIsClients(s: State, t: Txn, p: Bytes)
    requires Inv(s) && s.debt == Some(t) && t.step.Command? && !Completes(t.desc, p)
    ensures t.owner != 0 && !Final(s.cfg.table, JobOf(t), p)
  {
    hide Core, Owed, Disciplined, PhysicalScope, SlotsOk, RemoteOk, AirOk, OrphanOk, RosterOk;
    CoreParts(s, false, []);
    assert TxnOk(s.cfg, t) && TableOk(s.cfg.table);
    assert CommandOk(s.cfg.table, t.command, t.desc);
  }

  lemma Loosened(s: State)
    requires Inv(s)
    ensures Core(s, true, [])
  {
    hide WireOk, RemoteOk, SigningOk, SlotsOk, OutsOk, InboxesOk, ClientsOk, ConfigOk, RosterOk, AirOk, TxnsOk,
         OrphanOk;
    forall id | id in s.sessions
      ensures SyncOk(s.sessions[id], s.slots, s.drain, s.up, true)
    {
      assert SyncOk(s.sessions[id], s.slots, s.drain, s.up, false);
    }
  }

  lemma PopReplyIsItem(cfg: Config, t: Txn, p: Bytes, started: bool)
    requires ConfigOk(cfg) && TxnOk(cfg, t) && t.owner == 0
    requires ValidResponse(cfg.table, t.desc, p, t.command, started) && Opcode(p) != RESP_ERR
    ensures Opcode(p) == RESP_NO_MORE_MESSAGES || IsItem(cfg.table, p)
  {
    assert CommandOk(cfg.table, POP, t.desc);
  }

  lemma OwedPopKeeps(s: State, t: Txn, p: Bytes)
    requires Inv(s) && s.failed && s.debt.None? && TxnOk(s.cfg, t) && t.owner == 0
    requires ValidResponse(s.cfg.table, t.desc, p, t.command, t.contacts) && Opcode(p) != RESP_ERR
    ensures Inv(PopResult(s, t, p))
  {
    assert ConfigOk(s.cfg) && s.sessions == map[] && s.up.active.None?;
    Loosened(s);
    hide Core, PopResult;
    PopReplyIsItem(s.cfg, t, p, t.contacts);
    if Opcode(p) == RESP_NO_MORE_MESSAGES {
      EmptyResultUnheard(s, t, p);
    } else {
      ItemResultKeeps(s, t, p);
    }
  }

  lemma DrainReplyKeeps(s: State, t: Txn, p: Bytes, now: Time)
    requires Inv(s) && s.debt == Some(t) && s.cfg.table.responseShape(p) && !IsPush(p)
    requires t.step.Command? && ValidResponse(s.cfg.table, t.desc, p, t.command, t.contacts)
    ensures Inv(OnDrainFrame(s, p, now))
  {
    hide Core, Push, PopResult, TableOk, ValidResponse, TxnOk, DebtOk, Heard;
    CoreParts(s, false, []);
    assert TxnOk(s.cfg, t);
    if !Completes(t.desc, p) {
      var started := t.contacts || Opcode(p) == RESP_CONTACTS_START;
      DebtStays(s, t, p, started);
      assert TxnOk(s.cfg, t.(contacts := started)) by { StreamTxn(s.cfg, t, p); }
      DebtKeeps(s, p, Some(t.(contacts := started)));
    } else {
      DebtPaid(s, t, p);
      DebtKeeps(s, p, None);
      if t.owner == 0 && Opcode(p) != RESP_ERR {
        var cleared := Heard(s, p).(debt := None);
        assert cleared.failed && cleared.cfg == s.cfg by { HeardFrame(s, p); }
        OwedPopKeeps(cleared, t, p);
      }
    }
  }

  lemma HeardFrame(s: State, p: Bytes)
    ensures Heard(s, p).failed == s.failed && Heard(s, p).cfg == s.cfg
  {
  }

  lemma StreamTxn(cfg: Config, t: Txn, p: Bytes)
    requires TxnOk(cfg, t) && !Completes(t.desc, p)
    ensures TxnOk(cfg, t.(contacts := t.contacts || Opcode(p) == RESP_CONTACTS_START))
  {
  }

  lemma DrainFrameKeeps(s: State, p: Bytes, now: Time)
    requires Inv(s)
    ensures Inv(OnDrainFrame(s, p, now))
  {
    hide Core, Push, PopResult, TableOk, ValidResponse, TxnOk, DebtOk, Heard;
    CoreParts(s, false, []);
    if s.debt.Some? && s.cfg.table.responseShape(p) {
      var t := s.debt.value;
      assert !t.step.MaintenanceResult? by { DebtStep(s.cfg.table, t, s.up.wire); }
      if IsPush(p) {
        PushKeeps(s, p, now);
      } else if t.step.Command? {
        if ValidResponse(s.cfg.table, t.desc, p, t.command, t.contacts) {
          hide OnDrainFrame;
          DrainReplyKeeps(s, t, p, now);
        }
      } else if IsScopeReply(p) {
        DebtPaid(s, t, p);
        DebtKeeps(s, p, None);
      }
    }
  }

  lemma DebtStep(t: Table, x: Txn, w: seq<WireEvent>)
    requires DebtOk(t, Some(x), w)
    ensures !x.step.MaintenanceResult?
  {
  }

  // ----- A new epoch -----

  lemma {:induction false} ReconnectSlots(cfg: Config, cfg': Config, slots: map<int, Slot>)
    requires SlotsOk(cfg, slots, map[]) && cfg'.slotIds == cfg.slotIds && cfg'.table == cfg.table
    requires cfg'.offlineQueueSize == cfg.offlineQueueSize
    ensures SlotsOk(cfg', slots, map[])
    ensures SlotsOk(cfg', map d | d in slots :: Clear(slots[d]), map[])
  {
    hide Sub;
    forall d | d in slots
      ensures SlotOk(Clear(slots[d]))
    {
      ClearConserves(slots[d]);
    }
  }

  lemma FreshKeeps(cfg: Config, epoch: int, now: Time, orphan: Option<Bytes>, slots: map<int, Slot>, radio: RadioState,
                   pops: seq<Bytes>)
    requires ConfigOk(cfg) && SlotsOk(cfg, slots, map[]) && (orphan.Some? ==> IsItem(cfg.table, orphan.value))
    requires RemoteOk(radio.remote, map[], None) && AirOk(cfg.uncertaintyTimeout, radio.air, radio.log, None, 0)
    ensures Inv(Fresh(cfg, epoch, now, orphan, slots, radio).(pops := pops))
  {
    var s := Fresh(cfg, epoch, now, orphan, slots, radio).(pops := pops);
    EmptySessionsOk(s, false, []);
    hide AirOk, SlotsOk, RemoteOk, ClientsOk, OutsOk, InboxesOk, SyncsOk, ConfigOk, IsItem;
  }

  lemma FreshRadioOk(cfg: Config, since: nat)
    ensures RemoteOk(FreshRadioState(since).remote, map[], None)
    ensures AirOk(cfg.uncertaintyTimeout, FreshRadioState(since).air, FreshRadioState(since).log, None, 0)
  {
  }

  /** What a failed epoch leaves for the next one. */
  lemma SurvivesFailure(s: State, key: Bytes)
    requires Inv(s) && s.failed && |key| >= 6
    ensures ConfigOk(s.cfg.(selfKey := key)) && SlotsOk(s.cfg, s.slots, map[]) && RemoteOk(s.radio.remote, map[], None)
    ensures AirOk(s.cfg.uncertaintyTimeout, s.radio.air, s.radio.log, None, 0)
    ensures s.orphan.Some? ==> IsItem(s.cfg.table, s.orphan.value)
  {
    hide Core, SlotsOk, RemoteOk, IsItem, AckRing.Replay, AckRing.LogOk, AckRing.InFlight, TableOk, TxnsOk;
    CoreParts(s, false, []);
  }

  lemma ReconnectKeeps(s: State, key: Bytes, now: Time)
    requires Inv(s) && s.failed && |key| >= 6
    ensures Inv(OnReconnect(s, key, now))
  {
    hide Core, AirOk, SlotsOk, RemoteOk, ConfigOk, IsItem, FreshRadioState, Fresh;
    var cfg := s.cfg.(selfKey := key);
    SurvivesFailure(s, key);
    ReconnectSlots(s.cfg, cfg, s.slots);
    if key == s.cfg.selfKey {
      FreshKeeps(cfg, s.epoch + 1, now, s.orphan, s.slots, s.radio, s.pops);
    } else {
      FreshRadioOk(cfg, |s.pops|);
      FreshKeeps(cfg, s.epoch + 1, now, None, map d | d in s.slots :: Clear(s.slots[d]),
                 FreshRadioState(|s.pops|), s.pops);
    }
  }
}
