/** The chunks a signing operation counts are those on the upstream connection, of one owner. */
module BrokerSigning {
  import opened Wire
  import opened Protocol
  import opened Leases
  import opened Broker
  import opened BrokerInvariant
  import opened BrokerClients
  import opened BrokerInbox
  import opened BrokerSchedule
  import opened BrokerReplies
  import opened BrokerScopes
  import opened BrokerEvents
  import opened BrokerHistory
  import AckRing

  /** The sizes of the SIGN_DATA commands answered OK since the last reply to a SIGN_START, and whose they
      were. */
  ghost function Signed(t: Table, w: seq<WireEvent>): seq<(int, int)> {
    if w == [] then []
    else
      var before := w[..|w| - 1];
      var last := w[|w| - 1];
      if last.Got? && Owed(t, before).Some? && Owed(t, before).value.kind.ClientCommand? then
        SignedBy(Signed(t, before), Owed(t, before).value, last.payload)
      else Signed(t, before)
  }

  /** What a reply to a client's command adds. */
  ghost function SignedBy(before: seq<(int, int)>, j: Job, p: Bytes): seq<(int, int)> {
    if Opcode(j.command) == CMD_SIGN_START then []
    else if Opcode(j.command) == CMD_SIGN_DATA && p == OK then before + [(j.owner, |j.command| - 1)]
    else before
  }

  ghost function Tagged(owner: int, chunks: seq<nat>): seq<(int, int)> {
    seq(|chunks|, i requires 0 <= i < |chunks| => (owner, chunks[i]))
  }

  ghost predicate Counts(t: Table, g: Signing, w: seq<WireEvent>) {
    g.Busy? ==> if g.tentative then g.chunks == [] else Signed(t, w) == Tagged(g.owner, g.chunks)
  }

  ghost predicate SignOk(s: State) {
    !s.failed ==> Counts(s.cfg.table, s.signing, s.up.wire)
  }

  lemma SignedGrows(t: Table, w: seq<WireEvent>, e: WireEvent)
    ensures Signed(t, w + [e]) ==
            if e.Got? && Owed(t, w).Some? && Owed(t, w).value.kind.ClientCommand? then
              SignedBy(Signed(t, w), Owed(t, w).value, e.payload)
            else Signed(t, w)
  {
    assert (w + [e])[..|w|] == w;
  }

  lemma AskingSignsNothing(t: Table, w: seq<WireEvent>, w': seq<WireEvent>)
    requires Asks(w, w')
    ensures Signed(t, w') == Signed(t, w)
  {
    hide Signed;
    if w' != w {
      SignedGrows(t, w, w'[|w|]);
    }
  }

  /** Nothing was signed, neither here nor on the connection. */
  lemma QuietCounts(s: State, r: State)
    requires SignOk(s) && NothingSigned(s.signing, r.signing) && r.cfg.table == s.cfg.table && (s.failed ==> r.failed)
    requires !r.failed ==> Signed(s.cfg.table, r.up.wire) == Signed(s.cfg.table, s.up.wire)
    ensures SignOk(r)
  {
    hide Signed;
  }

  lemma ScheduleCounts(m: State, now: Time)
    requires Inv(m) && SignOk(m)
    ensures SignOk(Schedule(m, now))
  {
    hide Core, Schedule, SignOk, Signed, Asks, Listens;
    ScheduleAsks(m, now);
    AskingSignsNothing(m.cfg.table, m.up.wire, Schedule(m, now).up.wire);
    QuietCounts(m, Schedule(m, now));
  }

  /** A handler that hears nothing, and then scheduling. */
  lemma ThenScheduleCounts(s: State, m: State, now: Time)
    requires SignOk(s) && Inv(m) && NothingSigned(s.signing, m.signing) && m.cfg == s.cfg && m.up.wire == s.up.wire
    requires s.failed ==> m.failed
    ensures SignOk(Schedule(m, now))
  {
    hide Core, Schedule, SignOk, Signed, NothingSigned;
    QuietCounts(s, m);
    ScheduleCounts(m, now);
  }

  // ----- Replies -----

  /** The reply of an exchange that is no client's command. */
  lemma HiddenSignsNothing(t: Table, w: seq<WireEvent>, p: Bytes)
    requires Owed(t, w).Some? ==> !Owed(t, w).value.kind.ClientCommand?
    ensures Signed(t, w + [Got(p)]) == Signed(t, w)
  {
    hide Signed, Owed;
    SignedGrows(t, w, Got(p));
  }

  lemma OwedNow(s: State)
    requires Inv(s) && !s.failed && AwaitsReply(s.up.active)
    ensures Owed(s.cfg.table, s.up.wire) == Some(JobOf(s.up.active.value))
  {
    hide Core, Owed, Disciplined, PhysicalScope;
    CoreParts(s, false, []);
  }

  lemma ScopeResponseCounts(s: State, t: Txn, p: Bytes)
    requires SignOk(s) && t.owner != 0
    requires Owed(s.cfg.table, s.up.wire).Some? ==> !Owed(s.cfg.table, s.up.wire).value.kind.ClientCommand?
    ensures SignOk(ScopeResponse(s, t, p))
  {
    hide SignOk, Signed, FailEpoch, Emit, Orderly, Moves, Abandon, Owed, Wakeful, Listens, NothingSigned, SignedBy,
         Spoken;
    HiddenSignsNothing(s.cfg.table, s.up.wire, p);
    SignedGrows(s.cfg.table, s.up.wire + [Got(p)],
                Asked(Forwarded(t.command), Job(ClientCommand, t.owner, t.command, t.want)));
    QuietCounts(s, ScopeResponse(s, t, p));
  }

  lemma PopResponseCounts(s: State, t: Txn, p: Bytes)
    requires Popping(s, t) && SignOk(s)
    ensures SignOk(CommandResponse(s, t, p))
  {
    hide Core, SignOk, Signed, FailEpoch, PopResult, ValidResponse, TxnOk, Owed, NothingSigned, Orderly, Moves, Spoken,
         Wakeful;
    PoppingFacts(s, t);
    OwedNow(s);
    HiddenSignsNothing(s.cfg.table, s.up.wire, p);
    var m := Heard(s, p).(up := Heard(s, p).up.(active := None));
    PopResultWire(m, t, p);
    assert NothingSigned(s.signing, s.signing) by { SameSigning(s.signing); }
    QuietCounts(s, CommandResponse(s, t, p));
  }

  lemma SameSigning(g: Signing)
    ensures NothingSigned(g, g)
  {
  }

  /** Handing a reply to its owner leaves its signing operation alone, even if the owner is removed. */
  lemma HandedSigning(s: State, t: Txn, p: Bytes)
    requires s.up.active.Some? && !s.up.active.value.step.MaintenanceResult? && !t.step.MaintenanceResult?
    ensures Handed(s, t, p).signing == s.signing && Handed(s, t, p).failed == s.failed
    ensures Handed(s, t, p).up.wire == s.up.wire + [Got(p)]
  {
    hide Orderly, Moves, Wakeful, Listens, NothingSigned, Spoken, Relayed, Without, DetachSlot;
  }

  /** The reply to a client's command, and what the lease makes of it. */
  lemma OutcomeCounts(cfg: Config, r: RadioState, g: Signing, t: Txn, p: Bytes, now: Time, w: seq<WireEvent>)
    requires CommandOk(cfg.table, t.command, t.desc) && t.step.Command? && t.owner != 0
    requires SigningOk(g, Some(t)) && Counts(cfg.table, g, w) && Owed(cfg.table, w) == Some(JobOf(t))
    requires t.desc.signing ==> !Outcome(r, g, t, p, now).fault
    ensures Counts(cfg.table, Outcome(r, g, t, p, now).signing, w + [Got(p)])
  {
    hide Signed, Owed, AckRing.FreeSlot, AckRing.Insert, AcceptRemote, RetainedDeadline, Sum, U32;
    SignedGrows(cfg.table, w, Got(p));
  }

  /** A reply that does not end a client's command is no reply to a signing command. */
  lemma PartSignsNothing(s: State, t: Txn, p: Bytes)
    requires Answering(s, t, p) && !Completes(t.desc, p)
    ensures Signed(s.cfg.table, s.up.wire + [Got(p)]) == Signed(s.cfg.table, s.up.wire)
  {
    hide Core, Signed, Owed, ValidResponse;
    OwedNow(s);
    SignedGrows(s.cfg.table, s.up.wire, Got(p));
    assert CommandOk(s.cfg.table, t.command, t.desc) by { AnsweredCommand(s, t, p); }
  }

  lemma AnsweredCommand(s: State, t: Txn, p: Bytes)
    requires Answering(s, t, p)
    ensures TableOk(s.cfg.table) && TxnOk(s.cfg, t) && CommandOk(s.cfg.table, t.command, t.desc)
    ensures SigningOk(s.signing, Some(t))
  {
    hide Core, ShapesOk, ValidResponse;
    CoreParts(s, false, []);
  }

  lemma ToldCounts(s: State, t: Txn, p: Bytes)
    requires Answering(s, t, p) && Completes(t.desc, p) && SignOk(s)
    ensures Counts(s.cfg.table, Told(s, Progressed(t, p, s.now), p).signing, s.up.wire + [Got(p)])
  {
    hide Core, Signed, Owed, Outcome, Counts, SigningOk, CommandOk, TableOk, Tagged;
    AnsweredCommand(s, t, p);
    OwedNow(s);
    var t' := Progressed(t, p, s.now);
    assert SigningOk(s.signing, Some(t')) by { SigningSame(s.signing, t, t'); }
    assert t'.desc.signing ==> !Outcome(s.radio, s.signing, t', p, s.now).fault by {
      OutcomeSigning(s.cfg, s.radio, s.signing, t', p, s.now, None);
    }
    assert JobOf(t') == JobOf(t);
    OutcomeCounts(s.cfg, s.radio, s.signing, t', p, s.now, s.up.wire);
  }

  lemma SigningSame(g: Signing, t: Txn, t': Txn)
    requires SigningOk(g, Some(t)) && t'.step == t.step && t'.command == t.command && t'.owner == t.owner
    ensures SigningOk(g, Some(t'))
  {
    hide Sum;
  }

  lemma ClientReplyCounts(s: State, t: Txn, p: Bytes)
    requires Answering(s, t, p) && SignOk(s)
    ensures SignOk(ClientReply(s, t, p))
  {
    hide Core, SignOk, Signed, Handed, CompleteCommand, ValidResponse, Owed, NothingSigned, Completes, Progressed,
         Counts, HandedAs, Listens, Orderly, Moves, Wakeful, Spoken;
    HandedSigning(s, t, p);
    if Completes(t.desc, p) {
      ToldCounts(s, t, p);
      CompletedCounts(s, Handed(s, t, p), Progressed(t, p, s.now), p, HandedAs(s, t, p));
    } else {
      PartSignsNothing(s, t, p);
      assert NothingSigned(s.signing, s.signing) by { SameSigning(s.signing); }
      QuietCounts(s, Handed(s, t, p));
    }
  }

  /** After the lease has been told of the reply nothing more is signed. */
  lemma CompletedCounts(s: State, e: State, t: Txn, p: Bytes, emitted: Option<int>)
    requires e.signing == s.signing && e.cfg == s.cfg && e.now == s.now && e.up.wire == s.up.wire + [Got(p)]
    requires Counts(s.cfg.table, Told(s, t, p).signing, s.up.wire + [Got(p)])
    requires Outcome(e.radio, e.signing, t, p, e.now).signing == Told(s, t, p).signing
    ensures SignOk(CompleteCommand(e, t, p, emitted))
  {
    hide Signed, Counts, FailEpoch, Outcome, Orderly, Moves, Wakeful, Listens, NothingSigned, Spoken;
    var r := RecordAcceptance(e, t, p);
    assert SignOk(r);
    SignedGrows(e.cfg.table, r.up.wire, Asked(DEFAULT_SCOPE, Job(ResetScope, t.owner, t.command, t.want)));
    assert NothingSigned(r.signing, r.signing) by { SameSigning(r.signing); }
    QuietCounts(r, CompleteCommand(e, t, p, emitted));
  }

  lemma TxnResponseCounts(s: State, p: Bytes)
    requires Inv(s) && !s.failed && SignOk(s)
    ensures SignOk(TxnResponse(s, p))
  {
    hide Core, SignOk, Signed, FailEpoch, ScopeResponse, ClientReply, PopResult, ValidResponse, Orderly, Wakeful, Moves,
         Owed, NothingSigned, Listens, Spoken;
    if s.up.active.None? {
      FailedCounts(FailEpoch(s), s);
    } else {
      SettleWriteKeeps(s);
      var r := SettleWrite(s);
      var t := r.up.active.value;
      assert NothingSigned(s.signing, s.signing) by { SameSigning(s.signing); }
      QuietCounts(s, r);
      if t.step.Setup? || t.step.Restore? {
        ScopingFacts(r, t);
        OwedNow(r);
        ScopeResponseCounts(r, t, p);
      } else if t.step.MaintenanceResult? {
        FailedCounts(FailEpoch(r), r);
      } else if t.owner == 0 {
        hide CommandResponse;
        PopResponseCounts(r, t, p);
      } else if !ValidResponse(s.cfg.table, t.desc, p, t.command, t.contacts) {
        FailedCounts(FailEpoch(r), r);
      } else {
        ClientReplyCounts(r, t, p);
      }
    }
  }

  lemma FailedCounts(r: State, s: State)
    requires r == FailEpoch(s)
    ensures SignOk(r)
  {
    hide Orderly, Moves, Wakeful, Listens, Spoken, Signed, NothingSigned;
  }

  // ----- Events -----

  lemma PushCounts(s: State, p: Bytes, now: Time)
    requires Inv(s) && !s.failed && SignOk(s)
    ensures SignOk(Push(s, p, now))
  {
    hide Core, SignOk, Signed, TxnResponse, IsSelfTelemetry, Listens, NothingSigned, Push;
    if Opcode(p) in RESULT_PUSHES && IsSelfTelemetry(s, p) {
      TxnResponseCounts(s, p);
      SelfTelemetryIsReply(s, p, now);
    } else {
      PushListens(s, p, now);
      PushSignsNothing(s, p, now);
      QuietCounts(s, Push(s, p, now));
    }
  }

  lemma PushSignsNothing(s: State, p: Bytes, now: Time)
    requires !(Opcode(p) in RESULT_PUSHES && IsSelfTelemetry(s, p))
    ensures NothingSigned(s.signing, Push(s, p, now).signing) && (s.failed ==> Push(s, p, now).failed)
  {
    hide TxnResponse, RemoteResult, HintAll, Broadcast, Orderly, U32, AckRing.Settle, Moves, Wakeful, IsSelfTelemetry,
         Listens, Spoken;
    SameSigning(s.signing);
  }

  lemma AdmitCounts(s: State, id: int, slot: Option<int>, now: Time)
    requires Inv(s) && s.now <= now && SignOk(s) && id > 0 && id !in s.sessions && !Owns(s.up.active, id)
    requires Unused(s.up.wire, id) && (slot.Some? ==> slot.value in s.slots)
    ensures SignOk(OnAdmit(s, id, slot, now))
  {
    hide Core, SignOk, Signed, Unused, Schedule, Joined, Hint, Remove, ConfigOk, OnAdmit, Listens, NothingSigned;
    CoreParts(s, false, []);
    var s0 := s.(now := now);
    if s.failed || (s.up.active.Some? && s.up.active.value.maintenance) {
      RefusedAdmission(s, id, slot, now);
      assert NothingSigned(s.signing, s.signing) by { SameSigning(s.signing); }
      QuietCounts(s, OnAdmit(s, id, slot, now));
    } else {
      ClockKeeps(s, now);
      VacatedIsWelcome(s0, id, slot);
      AdmitIs(s, id, slot, now);
      JoinKeeps(Vacating(s0, slot), id, slot);
      var m := Hint(Joined(Vacating(s0, slot), id, slot), id);
      HintKeeps(Joined(Vacating(s0, slot), id, slot), id, false, []);
      JoiningListens(s0, id, slot);
      JoiningSignsNothing(s0, id, slot);
      ThenScheduleCounts(s, m, now);
    }
  }

  lemma JoiningSignsNothing(s: State, id: int, slot: Option<int>)
    requires slot.Some? ==> slot.value in Vacating(s, slot).slots
    ensures NothingSigned(s.signing, Hint(Joined(Vacating(s, slot), id, slot), id).signing)
  {
    hide Remove, Hint, Orderly, Moves, Wakeful, Listens, Spoken;
    var v := Vacating(s, slot);
    SameSigning(s.signing);
    assert NothingSigned(s.signing, v.signing);
    var j := Joined(v, id, slot);
    assert j.signing == v.signing;
    hide Joined;
    assert NothingSigned(j.signing, Hint(j, id).signing);
  }

  lemma ClientFrameCounts(s: State, id: int, p: Bytes, now: Time)
    requires Inv(s) && s.now <= now && SignOk(s)
    ensures SignOk(OnClientFrame(s, id, p, now))
  {
    hide Core, SignOk, Signed, Schedule, Remove, Orderly, Moves, Wakeful, Listens, NothingSigned, Spoken;
    ClockKeeps(s, now);
    var s0 := s.(now := now);
    assert NothingSigned(s.signing, s.signing) by { SameSigning(s.signing); }
    QuietCounts(s, s0);
    if !s.failed && id in s.sessions {
      if QueueFull(s0, id) {
        RemoveKeeps(s0, id, false, []);
        ThenScheduleCounts(s, Remove(s0, id), now);
      } else {
        SubmitKeeps(s0, id, p, now);
        var c := s.sessions[id];
        ThenScheduleCounts(s, Put(s0, id, c.(commands := c.commands + [Queued(p, now)],
                                             log := c.log.(submitted := c.log.submitted + [p]))), now);
      }
    }
  }

  lemma LeaveCounts(s: State, id: int, now: Time)
    requires Inv(s) && s.now <= now && SignOk(s)
    ensures SignOk(Schedule(Remove(s.(now := now), id), now))
  {
    hide Core, SignOk, Signed, Schedule, Remove, Orderly, Moves, Wakeful, Listens, NothingSigned, Spoken;
    ClockKeeps(s, now);
    RemoveKeeps(s.(now := now), id, false, []);
    ThenScheduleCounts(s, Remove(s.(now := now), id), now);
  }

  lemma WriteDoneCounts(s: State, id: int, epoch: int, w: int, now: Time)
    requires Inv(s) && s.now <= now && SignOk(s)
    ensures SignOk(OnWriteDone(s, id, epoch, w, now))
  {
    hide Core, SignOk, Signed, Schedule, UpstreamWritten, ClientWritten, Orderly, Moves, Wakeful, Listens,
         NothingSigned, Spoken;
    if epoch == s.epoch && !s.failed {
      if id == 0 {
        UpstreamWrittenKeeps(s, w, now);
        WrittenWires(s, id, w, now);
        ThenScheduleCounts(s, UpstreamWritten(s, w, now), now);
      } else if id in s.sessions {
        ClientWrittenKeeps(s, id, w);
        WrittenWires(s, id, w, now);
        ThenScheduleCounts(s, ClientWritten(s, id, w), now);
      } else {
        ScheduleCounts(s, now);
      }
    }
  }

  lemma WriteFailedCounts(s: State, id: int, epoch: int, now: Time)
    requires Inv(s) && s.now <= now && SignOk(s)
    ensures SignOk(OnWriteFailed(s, id, epoch, now))
  {
    hide Core, SignOk, Schedule, Remove, FailEpoch;
    if epoch == s.epoch && !s.failed {
      if id == 0 {
        FailedCounts(FailEpoch(s.(now := now)), s.(now := now));
      } else {
        LeaveCounts(s, id, now);
      }
    }
  }

  lemma UpstreamFrameCounts(s: State, p: Bytes, now: Time)
    requires Inv(s) && s.now <= now && SignOk(s)
    ensures SignOk(OnUpstreamFrame(s, p, now))
  {
    hide Core, SignOk, Signed, Schedule, FailEpoch, Push, TxnResponse, ResponseOverdue, NothingSigned;
    ClockKeeps(s, now);
    var s0 := s.(now := now);
    assert NothingSigned(s.signing, s.signing) by { SameSigning(s.signing); }
    QuietCounts(s, s0);
    if !s.failed {
      if ResponseOverdue(s0, now) {
        FailedCounts(OverdueFail(s0), s0.(debt := s0.up.active));
      } else if !s.cfg.table.responseShape(p) {
        FailedCounts(FailEpoch(s0), s0);
      } else if IsPush(p) {
        PushKeeps(s0, p, now);
        PushCounts(s0, p, now);
        ScheduleCounts(Push(s0, p, now), now);
      } else {
        TxnResponseKeeps(s0, p);
        TxnResponseCounts(s0, p);
        ScheduleCounts(TxnResponse(s0, p), now);
      }
    }
  }

  lemma TickCounts(s: State, now: Time)
    requires Inv(s) && s.now <= now && SignOk(s)
    ensures SignOk(OnTick(s, now))
  {
    hide Core, SignOk, Signed, FailEpoch, Schedule, Ticked, AnyOverdue, ResponseOverdue, OnTick, NothingSigned, Listens;
    ClockKeeps(s, now);
    TickShape(s, now);
    var s0 := s.(now := now);
    assert NothingSigned(s.signing, s.signing) by { SameSigning(s.signing); }
    QuietCounts(s, s0);
    if !s.failed {
      if ResponseOverdue(s0, now) {
        FailedCounts(OverdueFail(s0), s0.(debt := s0.up.active));
      } else if AnyOverdue(s.up.writes, now) {
        FailedCounts(FailEpoch(s0), s0);
      } else {
        TickedKeeps(s0);
        TickedListens(s0);
        TickedSignsNothing(s0);
        ThenScheduleCounts(s, Ticked(s0), now);
      }
    }
  }

  lemma TickedSignsNothing(s: State)
    ensures NothingSigned(s.signing, Ticked(s).signing)
  {
    hide ExpireSessions, HintAll, Orderly, Moves, Wakeful, Listens, Spoken;
  }

  lemma DrainFrameCounts(s: State, p: Bytes, now: Time)
    requires Inv(s) && SignOk(s)
    ensures SignOk(OnDrainFrame(s, p, now))
  {
    hide Core, Push, PopResult, Signed, Listens, Orderly, Moves, Wakeful, NothingSigned, Spoken, ValidResponse;
    CoreParts(s, false, []);
  }

  lemma ReconnectCounts(s: State, key: Bytes, now: Time)
    ensures SignOk(OnReconnect(s, key, now))
  {
  }
}
