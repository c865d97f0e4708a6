/** What a tick leaves behind is in time: no transaction, write, wait or lease is past its deadline. */
module BrokerDeadlines {
  import opened Wire
  import opened Protocol
  import opened Leases
  import opened Slots
  import opened Broker
  import opened BrokerInvariant
  import opened BrokerClients
  import opened BrokerSchedule
  import opened BrokerEvents
  import opened BrokerRuns
  import AckRing

  ghost predicate Punctual(c: Session, now: Time) {
    && (forall w | w in c.writes :: now < c.writes[w])
    && (c.sync.Some? ==> now < c.sync.value.deadline)
  }

  ghost predicate Unexpired(r: Remote, now: Time) {
    r.Held? && r.deadline.Some? ==> now < r.deadline.value
  }

  /** Whatever goes out gets time to do so. */
  ghost predicate Patient(c: Config) {
    c.writeTimeout > 0 && c.syncTimeout > 0
  }

  /** What a tick has not looked at so far: sessions, and the remote lease. */
  datatype Rest = Rest(sessions: seq<int>, lease: bool)

  /** A live epoch in which nothing else is late. */
  ghost predicate InTimeBut(s: State, rest: Rest) {
    !s.failed ==>
      && (forall id | id in s.sessions && id !in rest.sessions :: Punctual(s.sessions[id], s.now))
      && (!rest.lease ==> Unexpired(s.radio.remote, s.now))
      && !AnyOverdue(s.up.writes, s.now) && !ResponseOverdue(s, s.now)
  }

  ghost predicate InTime(s: State) {
    InTimeBut(s, Rest([], false))
  }

  lemma FailureIsOver(s: State, rest: Rest)
    ensures InTimeBut(FailEpoch(s), rest)
  {
    hide Orderly, Moves, Wakeful, Quietly, Spoken, AnyOverdue, ResponseOverdue, Unexpired, Punctual;
  }

  lemma DetachInTime(s: State, id: int, rest: Rest)
    requires InTimeBut(s, rest) && id in s.sessions
    ensures InTimeBut(Detach(s, id), rest)
  {
    hide Near, Without, DetachSlot, AnyOverdue, Punctual;
  }

  lemma RemoveInTime(s: State, id: int, rest: Rest)
    requires InTimeBut(s, rest)
    ensures InTimeBut(Remove(s, id), rest)
  {
    hide InTimeBut, Detach, FailEpoch, Near;
    if id in s.sessions {
      var gone := Detach(s, id);
      DetachInTime(s, id, rest);
      if AwaitingResultWrite(gone, id) {
        FailureIsOver(gone.(up := gone.up.(active := None),
                            signing := if gone.up.active.value.owner in gone.sessions then gone.signing
                                       else SigningOwnerGone(gone.signing, gone.up.active.value.owner)), rest);
      }
    }
  }

  lemma WriteInTime(s: State, id: int, o: Out, rest: Rest)
    requires InTimeBut(s, rest) && id in s.sessions && Patient(s.cfg)
    ensures InTimeBut(Write(s, id, o), rest)
  {
    hide Near, AnyOverdue, Unexpired;
  }

  lemma EmitInTime(s: State, id: int, o: Out, rest: Rest)
    requires InTimeBut(s, rest) && Patient(s.cfg)
    ensures InTimeBut(Emit(s, id, o), rest)
  {
    hide InTimeBut, Write, Remove, Near;
    RemoveInTime(s, id, rest);
    if HasRoom(s, id) {
      WriteInTime(s, id, o, rest);
    }
  }

  /** A session put back with no later deadline missed. */
  lemma PutInTime(s: State, id: int, c: Session, rest: Rest)
    requires InTimeBut(s, rest) && id in s.sessions && c.writes == s.sessions[id].writes
    requires c.sync.None? || c.sync == s.sessions[id].sync || s.now < c.sync.value.deadline
    ensures InTimeBut(Put(s, id, c), rest)
  {
    hide AnyOverdue, Unexpired;
  }

  lemma HintInTime(s: State, id: int, rest: Rest)
    requires InTimeBut(s, rest) && Patient(s.cfg)
    ensures InTimeBut(Hint(s, id), rest)
  {
    hide InTimeBut, Write, Remove, Near, Put;
    RemoveInTime(s, id, rest);
    if id in s.sessions {
      var o := Out(WAITING, Notice);
      WriteInTime(s, id, o, rest);
      var r := Write(s, id, o);
      assert id in r.sessions by { WriteKeepsIt(s, id, o); }
      PutInTime(r, id, r.sessions[id].(hint := Some(r.nextWrite)), rest);
    }
  }

  lemma WriteKeepsIt(s: State, id: int, o: Out)
    requires id in s.sessions
    ensures id in Write(s, id, o).sessions
  {
  }

  lemma {:induction false} HintAllInTime(s: State, ids: seq<int>)
    requires InTime(s) && Patient(s.cfg)
    ensures InTime(HintAll(s, ids))
    decreases |ids|
  {
    hide InTimeBut, Hint, Orderly, Moves, Wakeful, Quietly, Spoken;
    if ids != [] {
      HintInTime(s, ids[0], Rest([], false));
      HintAllInTime(Hint(s, ids[0]), ids[1..]);
    }
  }

  lemma ConsumeInTime(s: State, id: int)
    requires InTime(s) && id in s.sessions
    ensures InTime(Consume(s, id))
  {
    hide AnyOverdue, Unexpired, Take, Near;
  }

  lemma DeliverInTime(s: State, id: int, command: Bytes)
    requires InTime(s) && id in s.sessions && Patient(s.cfg)
    ensures InTime(Deliver(s, id, command))
  {
    var q := InboxOf(s, id);
    if q == [] || !s.cfg.table.responseShape(q[0]) {
      FaultInTime(s);
    } else {
      hide InTimeBut, Write, Remove, Consume, Near, Downgrade, InboxOf;
      var o := Out(Downgrade(q[0], s.sessions[id].target), Answer(command, FromInbox(q[0])));
      WriteInTime(s, id, o, Rest([], false));
      WriteKeepsIt(s, id, o);
      ConsumeInTime(Write(s, id, o), id);
      RemoveInTime(s, id, Rest([], false));
    }
  }

  lemma FaultInTime(s: State)
    requires InTime(s)
    ensures InTime(s.(fault := true))
  {
    hide AnyOverdue, Unexpired, Punctual;
  }

  /** One local decision: whatever it answers, the session is in time, or gone. */
  lemma LocalHeadInTime(s: State, id: int)
    requires InTime(s) && id in s.sessions && s.sessions[id].commands != [] && Patient(s.cfg)
    ensures InTime(LocalHead(s, id))
  {
    hide InTimeBut, Emit, Deliver, Near, Decide, Put, Register, InboxOf;
    var c := s.sessions[id];
    PutInTime(s, id, Shift(c), Rest([], false));
    PutInTime(s, id, Shift(c).(scope := c.commands[0].payload), Rest([], false));
    PutKeepsIt(s, id, Shift(c));
    PutKeepsIt(s, id, Shift(c).(scope := c.commands[0].payload));
    match Decide(s.cfg, c.commands[0], s.now)
    case Forward =>
    case Refuse(p) =>
      EmitInTime(Put(s, id, Shift(c)), id, Out(p, Answer(c.commands[0].payload, Local)), Rest([], false));
    case Rescope =>
      EmitInTime(Put(s, id, Shift(c).(scope := c.commands[0].payload)), id,
                 Out(OK, Answer(c.commands[0].payload, Local)), Rest([], false));
    case Sync =>
      RegisterInTime(s, id);
      DeliverInTime(Put(s, id, Shift(c)), id, c.commands[0].payload);
  }

  lemma PutKeepsIt(s: State, id: int, c: Session)
    ensures id in Put(s, id, c).sessions && Put(s, id, c).cfg == s.cfg
  {
  }

  lemma RegisterInTime(s: State, id: int)
    requires InTime(s) && id in s.sessions && s.sessions[id].commands != [] && Patient(s.cfg)
    ensures InTime(Register(s, id))
  {
    hide AnyOverdue, Unexpired, Near;
  }

  lemma {:induction false} LocalHeadsInTime(s: State, id: int, n: nat)
    requires InTime(s) && Patient(s.cfg)
    ensures InTime(LocalHeads(s, id, n))
    decreases n
  {
    hide InTimeBut, LocalHead, Orderly, Moves, Wakeful, Quietly, Spoken, Decide;
    if n > 0 && !Idle(s, id) && !Decide(s.cfg, s.sessions[id].commands[0], s.now).Forward? {
      LocalHeadInTime(s, id);
      LocalHeadsInTime(LocalHead(s, id), id, n - 1);
    }
  }

  lemma {:induction false} LocalPassInTime(s: State, ids: seq<int>)
    requires InTime(s) && Patient(s.cfg)
    ensures InTime(LocalPass(s, ids))
    decreases |ids|
  {
    hide InTimeBut, LocalHeads, Orderly, Moves, Wakeful, Quietly, Spoken;
    if ids != [] {
      var id := ids[0];
      if id in s.sessions {
        LocalHeadsInTime(s, id, |s.sessions[id].commands|);
      }
      var r := if id !in s.sessions || s.sessions[id].sync.Some? || IsActiveOwner(s, id) then s
               else LocalHeads(s, id, |s.sessions[id].commands|);
      LocalPassInTime(r, ids[1..]);
    }
  }

  /** A frame that has just been handed to the upstream writer is awaited from then on. */
  lemma SendInTime(s: State, t: Txn, step: Step, frame: Bytes, kind: JobKind)
    requires InTime(s) && Patient(s.cfg)
    ensures InTime(SendStep(s, t, step, frame, kind))
  {
    hide Unexpired, Punctual, Onward, Quietly;
  }

  lemma DispatchInTime(s: State, owner: int, c: Bytes)
    requires InTime(s) && Patient(s.cfg)
    ensures InTime(Dispatch(s, owner, c))
  {
    hide InTimeBut, SendStep, NewTxn, Onward, Quietly, Forwarded;
    FaultInTime(s);
    if s.cfg.table.descriptor(c).Some? {
      var t := NewTxn(s, owner, c, s.cfg.table.descriptor(c).value);
      SendInTime(s, t, Setup, t.want, SetScope);
      SendInTime(s, t, Command, Forwarded(t.command), if t.owner == 0 then Pop else ClientCommand);
    }
  }

  /** Admission reserves without a deadline, or drops what is over. */
  lemma ChargedInTime(s: State, id: int, c: Bytes)
    requires InTime(s)
    ensures InTime(Charged(s, Admission(s, id, c)))
  {
    hide AnyOverdue, Punctual, Onward, Quietly, StartSigning, BeginData, BeginFinish, ExpireSigning, Classify,
         AckRing.Quarantined, AckRing.FreeSlot, AckRing.AnyPending, AckRing.AfterCheck;
    if !s.failed {
      AdmissionUnexpired(s, id, c);
    }
  }

  lemma AdmissionUnexpired(s: State, id: int, c: Bytes)
    requires Unexpired(s.radio.remote, s.now)
    ensures Unexpired(Admission(s, id, c).radio.remote, s.now)
  {
    hide StartSigning, BeginData, BeginFinish, ExpireSigning, Classify, NothingSigned, AckRing.Quarantined,
         AckRing.FreeSlot, AckRing.AnyPending, AckRing.AfterCheck;
  }

  lemma ServeInTime(s: State, id: int)
    requires InTime(s) && Patient(s.cfg) && s.up.active.None?
    ensures InTime(Serve(s, id))
  {
    hide InTimeBut, Dispatch, Admission, Charged, Emit, Onward, Quietly, Near;
    if id == 0 {
      DrainInTime(s, s.drain.(requested := false, popSeq := s.drain.popSeq + 1));
      DispatchInTime(s.(drain := s.drain.(requested := false, popSeq := s.drain.popSeq + 1)), 0, POP);
    } else if id in s.sessions && s.sessions[id].commands != [] {
      var c := s.sessions[id].commands[0].payload;
      var v := Admission(s, id, c);
      var r := Charged(s, v);
      ChargedInTime(s, id, c);
      assert r.sessions == s.sessions && r.cfg == s.cfg by { ChargedSame(s, v); }
      PutInTime(r, id, Shift(s.sessions[id]), Rest([], false));
      if v.reason.Some? {
        EmitInTime(Put(r, id, Shift(s.sessions[id])), id, Out(Err(v.reason.value), Answer(c, Local)), Rest([], false));
      } else {
        DispatchInTime(Put(r, id, Shift(s.sessions[id])), id, c);
      }
    }
  }

  lemma ChargedSame(s: State, v: Verdict)
    requires v.radio.seen == s.radio.seen && v.radio.heard == s.radio.heard && v.radio.since == s.radio.since
    requires NothingSigned(s.signing, v.signing)
    ensures Charged(s, v).sessions == s.sessions && Charged(s, v).cfg == s.cfg
  {
  }

  lemma DrainInTime(s: State, d: Drain)
    requires InTime(s)
    ensures InTime(s.(drain := d))
  {
    hide AnyOverdue, Unexpired, Punctual;
  }

  lemma TurnInTime(s: State)
    requires InTime(s) && s.order != []
    ensures InTime(Turn(s))
  {
    hide AnyOverdue, Unexpired, Punctual;
  }

  lemma {:induction false} RotateInTime(s: State, n: nat)
    requires InTime(s) && Patient(s.cfg) && s.up.active.None?
    ensures InTime(Rotate(s, n))
    decreases n
  {
    hide InTimeBut, Serve, Orderly, Moves, Wakeful, Quietly, Spoken;
    if n > 0 && s.order != [] {
      TurnInTime(s);
      ServeInTime(Turn(s), s.order[0]);
      var r := Serve(Turn(s), s.order[0]);
      if r.up.active.None? {
        RotateInTime(r, n - 1);
      }
    }
  }

  lemma ScheduleInTime(s: State)
    requires InTime(s) && Patient(s.cfg)
    ensures InTime(Schedule(s, s.now)) && (Schedule(s, s.now).failed || Schedule(s, s.now).now == s.now)
  {
    hide InTimeBut, LocalPass, Rotate, Orderly, Moves, Wakeful, Quietly, Spoken;
    assert s.(now := s.now) == s;
    LocalPassInTime(s, s.ids);
    var s2 := LocalPass(s, s.ids);
    if s2.up.active.None? {
      RotateInTime(s2, |s2.order|);
    }
  }

  // ----- The tick -----

  lemma ExpireSessionInTime(s: State, id: int, rest: seq<int>)
    requires InTimeBut(s, Rest([id] + rest, true)) && Patient(s.cfg)
    ensures InTimeBut(ExpireSession(s, id), Rest(rest, true))
  {
    hide Near, Emit, Remove;
    if id in s.sessions && AnyOverdue(s.sessions[id].writes, s.now) {
      RemoveInTime(s, id, Rest([id] + rest, true));
      RemoveForgets(s, id);
      LeavingIsInTime(Remove(s, id), id, rest);
    } else if id in s.sessions && s.sessions[id].sync.Some? && s.now >= s.sessions[id].sync.value.deadline {
      var c := s.sessions[id];
      assert InTimeBut(Put(s, id, c.(sync := None)), Rest(rest, true));
      EmitInTime(Put(s, id, c.(sync := None)), id, Out(Err(ERR_BAD_STATE), Answer(c.sync.value.command, Local)),
                 Rest(rest, true));
    }
  }

  lemma LeavingIsInTime(s: State, id: int, rest: seq<int>)
    requires InTimeBut(s, Rest([id] + rest, true)) && id !in s.sessions
    ensures InTimeBut(s, Rest(rest, true))
  {
    hide AnyOverdue, Punctual, ResponseOverdue;
  }

  lemma {:induction false} ExpireSessionsInTime(s: State, ids: seq<int>)
    requires InTimeBut(s, Rest(ids, true)) && Patient(s.cfg)
    ensures InTimeBut(ExpireSessions(s, ids), Rest([], true))
    decreases |ids|
  {
    hide InTimeBut, ExpireSession, Orderly, Moves, Wakeful, Quietly, Spoken;
    if ids != [] {
      assert [ids[0]] + ids[1..] == ids;
      ExpireSessionInTime(s, ids[0], ids[1..]);
      ExpireSessionsInTime(ExpireSession(s, ids[0]), ids[1..]);
    }
  }

  lemma LeasesInTime(s: State)
    requires InTimeBut(s, Rest([], true))
    ensures InTime(ExpireLeases(s, s.now)) && InTime(ExpireLeases(s, s.now).(lastPoll := s.now))
  {
    hide AnyOverdue, Punctual, Onward, Quietly;
  }

  lemma TickedInTime(s: State)
    requires InTimeBut(s, Rest(s.ids, true)) && Patient(s.cfg)
    ensures InTime(Ticked(s)) && Ticked(s).now == s.now && Ticked(s).cfg == s.cfg
  {
    hide InTimeBut, ExpireSessions, HintAll, Orderly, Moves, Wakeful, Quietly, Spoken;
    ExpireSessionsInTime(s, s.ids);
    var e := ExpireSessions(s, s.ids);
    LeasesInTime(e);
    var s1 := ExpireLeases(e, s.now);
    HintAllInTime(s1.(lastPoll := s.now), s1.ids);
  }

  lemma AllListed(s: State, now: Time)
    requires Inv(s) && !ResponseOverdue(s.(now := now), now) && !AnyOverdue(s.up.writes, now)
    ensures InTimeBut(s.(now := now), Rest(s.ids, true)) && Patient(s.cfg)
  {
    hide Core, AnyOverdue, ResponseOverdue, TableOk;
    CoreParts(s, false, []);
  }

  /** A tick leaves a failed epoch, or one in which the active transaction, the upstream writes, every
      client's writes and wait, and the remote lease are all before their deadlines. */
  lemma TickLeavesNothingLate(s: State, now: Time)
    requires Good(s) && s.now <= now
    ensures var r := OnTick(s, now);
            !r.failed ==>
              && r.now == now && !ResponseOverdue(r, now) && !AnyOverdue(r.up.writes, now)
              && (forall id | id in r.sessions ::
                    && !AnyOverdue(r.sessions[id].writes, now)
                    && (r.sessions[id].sync.Some? ==> now < r.sessions[id].sync.value.deadline))
              && (r.radio.remote.Held? && r.radio.remote.deadline.Some? ==> now < r.radio.remote.deadline.value)
  {
    GoodHasInv(s);
    hide Good;
    TickInTime(s, now);
    hide Inv, OnTick, InTimeBut, AnyOverdue, ResponseOverdue;
    if !OnTick(s, now).failed {
      InTimeMeans(OnTick(s, now));
    }
  }

  lemma TickInTime(s: State, now: Time)
    requires Inv(s) && s.now <= now
    ensures OnTick(s, now).failed || (InTime(OnTick(s, now)) && OnTick(s, now).now == now)
  {
    hide Inv, Schedule, Ticked, FailEpoch, OverdueFail, OnTick, InTimeBut, AnyOverdue, ResponseOverdue;
    TickShape(s, now);
    var s0 := s.(now := now);
    FailsAlways(s0);
    if !s.failed && !ResponseOverdue(s0, now) && !AnyOverdue(s.up.writes, now) {
      AllListed(s, now);
      TickedInTime(s0);
      ScheduleInTime(Ticked(s0));
    }
  }

  lemma FailsAlways(s: State)
    ensures FailEpoch(s).failed && OverdueFail(s).failed
  {
    hide Orderly, Moves, Wakeful, Quietly, Spoken;
  }

  lemma InTimeMeans(s: State)
    requires InTime(s) && !s.failed
    ensures !ResponseOverdue(s, s.now) && !AnyOverdue(s.up.writes, s.now)
    ensures forall id | id in s.sessions ::
              && !AnyOverdue(s.sessions[id].writes, s.now)
              && (s.sessions[id].sync.Some? ==> s.now < s.sessions[id].sync.value.deadline)
    ensures s.radio.remote.Held? && s.radio.remote.deadline.Some? ==> s.now < s.radio.remote.deadline.value
  {
  }
}
