/**
 A debt for which nothing is owed. The source takes the refusal of a pop, or of the restore of the
 default flood scope, for the end of the epoch while the transaction is still active, so it goes on
 expecting a reply that has already come. Exactly those refusals leave such a debt.
 */
module BrokerDebts {
  import opened Wire
  import opened Protocol
  import opened Leases
  import opened Broker
  import opened BrokerInvariant
  import opened BrokerClients
  import opened BrokerInbox
  import opened BrokerWire
  import opened BrokerSchedule
  import opened BrokerScopes
  import opened BrokerEvents
  import opened BrokerHistory
  import opened BrokerTrace
  import opened BrokerTraceEvents
  import opened BrokerWakeup
  import opened BrokerRuns

  /** A debt is left, though the connection owes nothing. */
  ghost predicate StaleDebt(s: State) {
    s.failed && s.debt.Some? && Owed(s.cfg.table, s.up.wire).None?
  }

  /** A refusal that arrives in time while a pop or a scope restore is upstream. */
  ghost predicate RefusesHidden(s: State, e: Event) {
    && e.UpstreamFrame? && !ResponseOverdue(s.(now := e.now), e.now)
    && s.cfg.table.responseShape(e.payload) && Opcode(e.payload) == RESP_ERR
    && s.up.active.Some? && (s.up.active.value.owner == 0 || s.up.active.value.step.Restore?)
  }

  // ----- Everything else that ends an epoch -----

  /** What fails the epoch does so before scheduling. */
  lemma ScheduleNeverFails(m: State, now: Time)
    requires Inv(m)
    ensures Schedule(m, now).failed ==> Schedule(m, now) == m
  {
    hide Core, LocalPass, Rotate, Listens;
    ScheduleAsks(m, now);
  }

  /** The upstream history did not change. */
  lemma NothingHeardNoStaleDebt(s: State, r: State)
    requires Inv(s) && !s.failed && Inv(r) && r.cfg.table == s.cfg.table && r.up.wire == s.up.wire
    ensures !StaleDebt(r)
  {
    hide Core, Owed, Disciplined, PhysicalScope;
    CoreParts(s, false, []);
    CoreParts(r, false, []);
  }

  lemma AdmitHearsNothing(s: State, id: int, slot: Option<int>, now: Time)
    requires Inv(s) && Legal(s, Admit(id, slot, now))
    ensures var r := OnAdmit(s, id, slot, now); r.failed ==> r.up.wire == s.up.wire
  {
    hide Core, Unused, Unheard, Schedule, Joined, Hint, Remove, ConfigOk, OnAdmit, Listens;
    CoreParts(s, false, []);
    if slot.Some? {
      ConfiguredSlot(s, slot.value);
    }
    var s0 := s.(now := now);
    if s.failed || (s.up.active.Some? && s.up.active.value.maintenance) {
      RefusedAdmission(s, id, slot, now);
    } else {
      ClockKeeps(s, now);
      VacatedIsWelcome(s0, id, slot);
      AdmitIs(s, id, slot, now);
      JoinKeeps(Vacating(s0, slot), id, slot);
      HintKeeps(Joined(Vacating(s0, slot), id, slot), id, false, []);
      JoiningListens(s0, id, slot);
      ScheduleNeverFails(Hint(Joined(Vacating(s0, slot), id, slot), id), now);
    }
  }

  lemma ClientFrameHearsNothing(s: State, id: int, p: Bytes, now: Time)
    requires Inv(s) && s.now <= now
    ensures var r := OnClientFrame(s, id, p, now); r.failed ==> r.up.wire == s.up.wire
  {
    hide Core, Schedule, Remove, Listens, Orderly, Moves;
    ClockKeeps(s, now);
    var s0 := s.(now := now);
    if !s.failed && id in s.sessions {
      if QueueFull(s0, id) {
        RemoveKeeps(s0, id, false, []);
        ScheduleNeverFails(Remove(s0, id), now);
      } else {
        SubmitKeeps(s0, id, p, now);
        var c := s.sessions[id];
        ScheduleNeverFails(Put(s0, id, c.(commands := c.commands + [Queued(p, now)],
                                          log := c.log.(submitted := c.log.submitted + [p]))), now);
      }
    }
  }

  lemma LeaveHearsNothing(s: State, id: int, now: Time)
    requires Inv(s) && s.now <= now
    ensures var r := Schedule(Remove(s.(now := now), id), now); r.failed ==> r.up.wire == s.up.wire
  {
    hide Core, Schedule, Remove, Listens, Orderly, Moves;
    ClockKeeps(s, now);
    RemoveKeeps(s.(now := now), id, false, []);
    ScheduleNeverFails(Remove(s.(now := now), id), now);
  }

  lemma WriteDoneHearsNothing(s: State, id: int, epoch: int, w: int, now: Time)
    requires Inv(s) && s.now <= now
    ensures var r := OnWriteDone(s, id, epoch, w, now); r.failed ==> r.up.wire == s.up.wire
  {
    hide Core, Schedule, UpstreamWritten, ClientWritten, Listens, Orderly, Moves;
    if epoch == s.epoch && !s.failed {
      WrittenWires(s, id, w, now);
      if id == 0 {
        UpstreamWrittenKeeps(s, w, now);
        ScheduleNeverFails(UpstreamWritten(s, w, now), now);
      } else if id in s.sessions {
        ClientWrittenKeeps(s, id, w);
        ScheduleNeverFails(ClientWritten(s, id, w), now);
      } else {
        ScheduleNeverFails(s, now);
      }
    }
  }

  lemma WriteFailedHearsNothing(s: State, id: int, epoch: int, now: Time)
    requires Inv(s) && s.now <= now
    ensures var r := OnWriteFailed(s, id, epoch, now); r.failed ==> r.up.wire == s.up.wire
  {
    hide Core, Schedule, Remove, FailEpoch, Listens, Orderly, Moves;
    if epoch == s.epoch && !s.failed && id != 0 {
      LeaveHearsNothing(s, id, now);
    }
  }

  lemma TickHearsNothing(s: State, now: Time)
    requires Inv(s) && s.now <= now
    ensures var r := OnTick(s, now); r.failed ==> r.up.wire == s.up.wire
  {
    hide Core, FailEpoch, OverdueFail, Schedule, Ticked, AnyOverdue, ResponseOverdue, OnTick, Listens, Orderly, Moves;
    ClockKeeps(s, now);
    TickShape(s, now);
    var s0 := s.(now := now);
    OverdueHearsNothing(s0);
    if !s.failed && !ResponseOverdue(s0, now) && !AnyOverdue(s.up.writes, now) {
      TickedKeeps(s0);
      TickedListens(s0);
      ScheduleNeverFails(Ticked(s0), now);
    }
  }

  lemma OverdueHearsNothing(s: State)
    ensures OverdueFail(s).up.wire == s.up.wire
  {
    hide FailEpoch, Orderly, Moves, Listens;
  }

  /** Any event but a frame from the companion. */
  lemma OtherEventsHearNothing(s: State, e: Event)
    requires Inv(s) && !s.failed && Legal(s, e) && !e.UpstreamFrame?
    ensures StepEvent(s, e).failed ==> StepEvent(s, e).up.wire == s.up.wire
  {
    hide Core, OnAdmit, OnClientFrame, OnWriteDone, OnWriteFailed, OnTick, FailEpoch, Schedule, Remove, Unused, Unheard,
         Orderly, Moves, Listens, TxnsOk, WireOk, ClientsOk, OutsOk, InboxesOk, SlotsOk, SyncsOk, AirOk, SigningOk,
         RemoteOk, ConfigOk;
    CoreParts(s, false, []);
    match e
    case Admit(id, slot, now) => AdmitHearsNothing(s, id, slot, now);
    case ClientFrame(id, p, now) => ClientFrameHearsNothing(s, id, p, now);
    case ClientClosed(id, now) => LeaveHearsNothing(s, id, now);
    case WriteDone(id, epoch, w, now) => WriteDoneHearsNothing(s, id, epoch, w, now);
    case WriteFailed(id, epoch, now) => WriteFailedHearsNothing(s, id, epoch, now);
    case Tick(now) => TickHearsNothing(s, now);
    case Fail =>
    case DrainFrame(p, now) =>
  }

  // ----- Frames from the companion -----

  /** The history ends with the reply, or goes on with a frame asked after it. */
  ghost predicate HearsAtMost(w: seq<WireEvent>, p: Bytes, w': seq<WireEvent>) {
    w' == w || w' == w + [Got(p)] || (|w'| == |w| + 2 && w'[|w| + 1].Asked?)
  }

  lemma ClientReplyHears(s: State, t: Txn, p: Bytes)
    ensures HearsAtMost(s.up.wire, p, ClientReply(s, t, p).up.wire)
  {
    hide Emit, Orderly, Moves, CompleteCommand, Relayed, Wakeful, Listens;
    assert Relaying(s, t, p).up.wire == Heard(s, p).up.wire;
    var e := Handed(s, t, p);
    assert e.up.wire == Heard(s, p).up.wire;
    hide Handed;
    CompleteAsks(e, Progressed(t, p, s.now), p, HandedAs(s, t, p));
  }

  lemma CompleteAsks(s: State, t: Txn, p: Bytes, emitted: Option<int>)
    ensures Asks(s.up.wire, CompleteCommand(s, t, p, emitted).up.wire)
  {
    hide FailEpoch, Orderly, Moves, Outcome, Wakeful, Listens;
  }

  lemma ScopeResponseHears(s: State, t: Txn, p: Bytes)
    ensures HearsAtMost(s.up.wire, p, ScopeResponse(s, t, p).up.wire)
  {
    hide FailEpoch, Emit, Orderly, Moves, Abandon, Wakeful, Listens;
  }

  lemma TxnResponseHears(s: State, p: Bytes)
    ensures HearsAtMost(s.up.wire, p, TxnResponse(s, p).up.wire)
  {
    hide FailEpoch, ScopeResponse, ClientReply, PopResult, ValidResponse, Orderly, Moves, Wakeful, Listens;
    if s.up.active.Some? {
      var r := SettleWrite(s);
      var t := r.up.active.value;
      assert r.up.wire == s.up.wire;
      ScopeResponseHears(r, t, p);
      ClientReplyHears(r, t, p);
      PopResultWire(Heard(r, p).(up := Heard(r, p).up.(active := None)), t, p);
    }
  }

  lemma PushHears(s: State, p: Bytes, now: Time)
    ensures HearsAtMost(s.up.wire, p, Push(s, p, now).up.wire)
  {
    hide TxnResponse, IsSelfTelemetry, Push, Listens;
    if Opcode(p) in RESULT_PUSHES && IsSelfTelemetry(s, p) {
      SelfTelemetryIsReply(s, p, now);
      TxnResponseHears(s, p);
    } else {
      PushListens(s, p, now);
    }
  }

  /** A reply after which the epoch has failed leaves a stale debt only if it is such a refusal. */
  lemma HeardRefusal(s: State, r: State, p: Bytes)
    requires Inv(s) && !s.failed && Inv(r) && r.cfg.table == s.cfg.table && HearsAtMost(s.up.wire, p, r.up.wire)
    requires StaleDebt(r)
    ensures Opcode(p) == RESP_ERR && s.up.active.Some?
    ensures s.up.active.value.owner == 0 || s.up.active.value.step.Restore?
  {
    hide Core, Disciplined, PhysicalScope, TxnsOk, Owed;
    assert RefusedHidden(r.up.wire) by { CoreParts(r, false, []); }
    var w := s.up.wire;
    assert !RefusedHidden(w) by { CoreParts(s, false, []); }
    assert r.up.wire == w + [Got(p)];
    assert Owed(s.cfg.table, w) == Some(w[|w| - 1].job) by { JustAsked(s.cfg.table, w); }
    CoreParts(s, false, []);
  }

  lemma JustAsked(t: Table, w: seq<WireEvent>)
    requires w != [] && w[|w| - 1].Asked?
    ensures Owed(t, w) == Some(w[|w| - 1].job)
  {
  }

  lemma UpstreamFrameRefuses(s: State, p: Bytes, now: Time)
    requires Inv(s) && !s.failed && s.now <= now && StaleDebt(OnUpstreamFrame(s, p, now))
    ensures RefusesHidden(s, UpstreamFrame(p, now))
  {
    hide Core, Schedule, FailEpoch, OverdueFail, Push, TxnResponse, ResponseOverdue, StaleDebt, Orderly, Moves, Listens;
    ClockKeeps(s, now);
    UpstreamFrameKeeps(s, p, now);
    var s0 := s.(now := now);
    var r := OnUpstreamFrame(s, p, now);
    if ResponseOverdue(s0, now) {
      OverdueHearsNothing(s0);
      NothingHeardNoStaleDebt(s, r);
    } else if !s.cfg.table.responseShape(p) {
      NothingHeardNoStaleDebt(s, r);
    } else {
      var m := if IsPush(p) then Push(s0, p, now) else TxnResponse(s0, p);
      if IsPush(p) {
        PushKeeps(s0, p, now);
        PushHears(s0, p, now);
      } else {
        TxnResponseKeeps(s0, p);
        TxnResponseHears(s0, p);
      }
      ScheduleNeverFails(m, now);
      assert r == m by { StaleHasFailed(r); }
      HeardRefusal(s0, r, p);
    }
  }

  lemma StaleHasFailed(s: State)
    requires StaleDebt(s)
    ensures s.failed
  {
  }

  /** Such a refusal fails the epoch while the transaction is still active. */
  lemma RefusalFails(s: State, p: Bytes)
    requires Inv(s) && !s.failed && |p| == 2 && p[0] == RESP_ERR
    requires s.up.active.Some? && (s.up.active.value.owner == 0 || s.up.active.value.step.Restore?)
    ensures var r := TxnResponse(s, p);
            r.failed && r.debt.Some? && r.up.wire == s.up.wire + [Got(p)]
  {
    hide Core, FailEpoch, PopResult, ClientReply, Orderly, Moves, Wakeful, Listens, Disciplined, Owed, PhysicalScope;
    CoreParts(s, false, []);
    var w := SettleWrite(s);
    var t := w.up.active.value;
    var h := if t.step.Restore? then SetActive(Heard(w, p), t.(progress := w.now)) else Heard(w, p);
    assert TxnResponse(s, p) == FailEpoch(h);
    FailLeavesDebt(h);
  }

  lemma FailLeavesDebt(s: State)
    requires !s.failed && AwaitsReply(s.up.active)
    ensures FailEpoch(s).failed && FailEpoch(s).debt.Some? && FailEpoch(s).up.wire == s.up.wire
  {
    hide AfterLoss, SigningOwnerGone, Orderly, Moves, Wakeful, Listens;
  }

  lemma RefusalIsTheEnd(s: State, p: Bytes)
    requires Inv(s) && !s.failed
    requires s.up.active.Some? && (s.up.active.value.owner == 0 || s.up.active.value.step.Restore?)
    ensures Owed(s.cfg.table, s.up.wire + [Got(p)]).None?
  {
    hide Core, Disciplined, Owed, PhysicalScope;
    CoreParts(s, false, []);
    Getting(s.cfg.table, s.up.wire, p);
  }

  lemma RefusalLeavesADebt(s: State, p: Bytes, now: Time)
    requires Inv(s) && !s.failed && s.now <= now && RefusesHidden(s, UpstreamFrame(p, now))
    ensures StaleDebt(OnUpstreamFrame(s, p, now))
  {
    hide Core, Schedule, FailEpoch, OverdueFail, Push, TxnResponse, ResponseOverdue, Orderly, Moves, Listens, ConfigOk;
    CoreParts(s, false, []);
    ClockKeeps(s, now);
    var s0 := s.(now := now);
    assert |p| == 2 && p[0] == RESP_ERR by { RefusalShape(s.cfg, p); }
    RefusalFails(s0, p);
    RefusalIsTheEnd(s0, p);
    TxnResponseKeeps(s0, p);
    ScheduleNeverFails(TxnResponse(s0, p), now);
    ScheduleAsks(TxnResponse(s0, p), now);
    assert OnUpstreamFrame(s, p, now) == Schedule(TxnResponse(s0, p), now);
  }

  lemma RefusalShape(cfg: Config, p: Bytes)
    requires ConfigOk(cfg) && cfg.table.responseShape(p) && Opcode(p) == RESP_ERR
    ensures |p| == 2 && p[0] == RESP_ERR
  {
  }

  /** A debt is left with nothing owed if and only if the companion refused, in time, the pop or the
      scope restore that was upstream; whatever else ends an epoch, a debt is a reply still owed. */
  lemma StaleDebtsAreRefusals(s: State, e: Event)
    requires Good(s) && !s.failed && Legal(s, e) && !e.Reconnect?
    ensures StaleDebt(StepEvent(s, e)) <==> RefusesHidden(s, e)
  {
    hide Core, Hist, HeardBut, Wakeful, Working, StaleDebt, ResponseOverdue, OnUpstreamFrame, Unused, Unheard,
         FailEpoch;
    StepKeeps(s, e);
    if e.UpstreamFrame? {
      if StaleDebt(OnUpstreamFrame(s, e.payload, e.now)) {
        UpstreamFrameRefuses(s, e.payload, e.now);
      }
      if RefusesHidden(s, e) {
        RefusalLeavesADebt(s, e.payload, e.now);
      }
    } else {
      hide StepEvent, Legal;
      OtherEventsHearNothing(s, e);
      if StaleDebt(StepEvent(s, e)) {
        StaleHasFailed(StepEvent(s, e));
        TableStays(s, e);
        NothingHeardNoStaleDebt(s, StepEvent(s, e));
      }
    }
  }

  lemma TableStays(s: State, e: Event)
    ensures StepEvent(s, e).cfg.table == s.cfg.table
  {
    hide OnAdmit, OnClientFrame, OnClientClosed, OnWriteDone, OnWriteFailed, OnUpstreamFrame, OnTick, FailEpoch,
         OnDrainFrame;
  }
}
