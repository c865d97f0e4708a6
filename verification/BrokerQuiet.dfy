/** When the broker asks the companion for something, and when it does not. */
module BrokerQuiet {
  import opened Wire
  import opened Protocol
  import opened Leases
  import opened Broker
  import opened BrokerInvariant
  import opened BrokerClients
  import opened BrokerInbox
  import opened BrokerSchedule
  import opened BrokerEvents
  import opened BrokerRuns
  import AckRing

  // ----- Commands are checked in the pass that dispatches them -----

  /** The active transaction is the head of its owner's queue in `s`, found fit to go upstream. */
  ghost predicate FitHead(s: State, t: Txn) {
    && t.owner in s.sessions && s.sessions[t.owner].commands != []
    && t.command == s.sessions[t.owner].commands[0].payload
    && Decide(s.cfg, s.sessions[t.owner].commands[0], s.now).Forward?
  }

  lemma ServedHeadIsFit(s: State, id: int)
    requires Inv(s) && s.up.active.None? && !s.failed && Settled(s, id)
    ensures var r := Serve(s, id);
            r.up.active.Some? ==>
              r.up.active.value.owner == id && (id != 0 ==> FitHead(s, r.up.active.value))
  {
    hide Core, Admission, Decide, Orderly, Onward, Near, AnswerHead;
    if id != 0 && id in s.sessions && s.sessions[id].sync.None? && s.sessions[id].commands != [] {
      var c := s.sessions[id].commands[0].payload;
      var v := Admission(s, id, c);
      var r := s.(radio := v.radio, signing := v.signing, fault := s.fault || v.fault);
      if v.reason.Some? {
        AnswerPassesOver(r, id, Err(v.reason.value));
      }
    }
  }

  lemma {:induction false} RotatedHeadIsFit(s: State, n: nat)
    requires Inv(s) && s.up.active.None? && !s.failed && Unserved(s, n)
    ensures var r := Rotate(s, n);
            r.up.active.Some? && r.up.active.value.owner != 0 ==> FitHead(s, r.up.active.value)
    decreases n
  {
    hide Core, Serve, Settled, Orderly, Decide, Onward;
    CoreRoster(s, false, []);
    if n > 0 {
      var id := s.order[0];
      var turned := Turn(s);
      assert Settled(s, id);
      TurnKeeps(s);
      TurnSettles(s, id);
      ServeKeeps(turned, id);
      ServedHeadIsFit(turned, id);
      var r := Serve(turned, id);
      if r.up.active.None? {
        ServePassesOver(turned, id);
        UnservedStays(s, r, n);
        RotatedHeadIsFit(r, n - 1);
        var z := Rotate(r, n - 1);
        if z.up.active.Some? && z.up.active.value.owner == id && id != 0 {
          NotServedAgain(r, n - 1, id);
        }
      }
    }
  }

  /** A rotation gives nobody two turns. */
  lemma {:induction false} NotServedAgain(s: State, n: nat, id: int)
    requires Inv(s) && s.up.active.None? && !s.failed && Unserved(s, n) && id != 0
    requires forall i | 0 <= i < n :: s.order[i] != id
    ensures var r := Rotate(s, n); r.up.active.Some? ==> r.up.active.value.owner != id
    decreases n
  {
    hide Core, Serve, Settled, Orderly, Decide, Onward;
    CoreRoster(s, false, []);
    if n > 0 {
      var x := s.order[0];
      var turned := Turn(s);
      assert Settled(s, x);
      TurnKeeps(s);
      TurnSettles(s, x);
      ServeKeeps(turned, x);
      ServedHeadIsFit(turned, x);
      var r := Serve(turned, x);
      if r.up.active.None? {
        ServePassesOver(turned, x);
        UnservedStays(s, r, n);
        LeftInLine(s.order, r.order, n, x, id);
        NotServedAgain(r, n - 1, id);
      }
    }
  }

  lemma LeftInLine(q: seq<int>, q': seq<int>, n: nat, x: int, id: int)
    requires Distinct(q) && 0 < n <= |q| && q[0] == x && forall i | 0 <= i < n :: q[i] != id
    requires q' == q[1..] + [x] || q' == Without(q[1..] + [x], x)
    ensures n - 1 <= |q'| && forall i | 0 <= i < n - 1 :: q'[i] != id
  {
    WithoutLast(q[1..], x);
  }

  /** A client command that a scheduling pass dispatches was checked in that pass: well formed, younger
      than the age limit, permitted, and neither SYNC_NEXT_MESSAGE nor SET_FLOOD_SCOPE_KEY. */
  lemma DispatchedCommandsAreChecked(s: State, now: Time)
    requires Inv(s) && s.now <= now && !s.failed && s.up.active.None?
    ensures var r := Schedule(s, now);
            r.up.active.Some? && r.up.active.value.owner != 0 ==>
              var m := LocalPass(s.(now := now), s.ids);
              var t := r.up.active.value;
              && t.owner in m.sessions && m.sessions[t.owner].commands != []
              && var q := m.sessions[t.owner].commands[0];
                 && t.command == q.payload && ValidCommand(s.cfg.table, q.payload) && now - q.at < s.cfg.commandAge
                 && Opcode(q.payload) != CMD_SYNC_NEXT_MESSAGE && Opcode(q.payload) != CMD_SET_FLOOD_SCOPE_KEY
                 && (Opcode(q.payload) == CMD_EXPORT_PRIVATE_KEY ==> s.cfg.keyExport)
                 && (Opcode(q.payload) == CMD_IMPORT_PRIVATE_KEY ==> s.cfg.keyImport)
                 && (Opcode(q.payload) == CMD_FACTORY_RESET ==> s.cfg.factoryReset)
  {
    hide Core, LocalPass, Rotate, Unserved, Settled, Orderly;
    var s1 := s.(now := now);
    ClockKeeps(s, now);
    LocalPassKeeps(s1, s1.ids, []);
    var s2 := LocalPass(s1, s1.ids);
    ScheduleRotates(s1, s2);
    RotatedHeadIsFit(s2, |s2.order|);
  }

  // ----- Hints, admission and polling ask for nothing -----

  ghost predicate Calm(s: State) {
    !s.drain.requested && !s.drain.authorized
  }

  /** Nothing is upstream, no drain is authorized, and no client has asked for anything. */
  ghost predicate Resting(s: State) {
    && !s.failed && s.up.active.None? && Calm(s)
    && (forall id | id in s.sessions :: s.sessions[id].commands == [] && s.sessions[id].sync.None?)
  }

  /** Serving sessions whose queues are empty starts nothing. */
  lemma NearRests(s: State, r: State)
    requires Resting(s) && Near(s, r) && !r.failed && Calm(r)
    ensures Resting(r) && r.up.wire == s.up.wire
  {
    hide Orderly;
    forall id | id in r.sessions
      ensures r.sessions[id].commands == [] && r.sessions[id].sync.None?
    {
      assert Moves(s.sessions[id], r.sessions[id]);
    }
  }

  ghost predicate Undisturbed(s: State, r: State) {
    (Calm(s) ==> Calm(r)) && r.failed == s.failed && r.up == s.up
  }

  lemma RemoveCalm(s: State, id: int)
    requires s.up.active.None?
    ensures Undisturbed(s, Remove(s, id))
  {
    hide Orderly, Near;
  }

  lemma EmitCalm(s: State, id: int, o: Out)
    requires s.up.active.None?
    ensures Undisturbed(s, Emit(s, id, o))
  {
    hide Orderly, Near, Remove;
    RemoveCalm(s, id);
  }

  lemma HintCalm(s: State, id: int)
    requires s.up.active.None?
    ensures Undisturbed(s, Hint(s, id))
  {
    hide Orderly, Near, Remove;
    RemoveCalm(s, id);
  }

  lemma {:induction false} HintAllCalm(s: State, ids: seq<int>)
    requires s.up.active.None?
    ensures Undisturbed(s, HintAll(s, ids))
    decreases |ids|
  {
    hide Orderly, Hint;
    if ids != [] {
      HintCalm(s, ids[0]);
      HintAllCalm(Hint(s, ids[0]), ids[1..]);
    }
  }

  lemma {:induction false} BroadcastCalm(s: State, ids: seq<int>, p: Bytes)
    requires s.up.active.None?
    ensures Undisturbed(s, Broadcast(s, ids, p))
    decreases |ids|
  {
    hide Orderly, Emit;
    if ids != [] {
      EmitCalm(s, ids[0], Out(p, Notice));
      BroadcastCalm(Emit(s, ids[0], Out(p, Notice)), ids[1..], p);
    }
  }

  lemma {:induction false} ExpireSessionsCalm(s: State, ids: seq<int>)
    requires Resting(s)
    ensures Resting(ExpireSessions(s, ids)) && ExpireSessions(s, ids).up.wire == s.up.wire
    decreases |ids|
  {
    hide Orderly, Remove, AnyOverdue, Moves;
    if ids != [] {
      var id := ids[0];
      RemoveCalm(s, id);
      if id in s.sessions && AnyOverdue(s.sessions[id].writes, s.now) {
        NearRests(s, Remove(s, id));
      }
      ExpireSessionsCalm(ExpireSession(s, id), ids[1..]);
    }
  }

  lemma {:induction false} LocalPassRests(s: State, ids: seq<int>)
    requires Resting(s)
    ensures LocalPass(s, ids) == s
    decreases |ids|
  {
    hide Orderly, Near;
    if ids != [] {
      LocalPassRests(s, ids[1..]);
    }
  }

  lemma {:induction false} RotateRests(s: State, n: nat)
    requires Resting(s)
    ensures Rotate(s, n) == s.(order := Rotate(s, n).order)
    decreases n
  {
    hide Orderly, Onward;
    if n > 0 && s.order != [] {
      assert Serve(Turn(s), s.order[0]) == Turn(s);
      RotateRests(Turn(s), n - 1);
    }
  }

  /** Scheduling with nothing to do. */
  lemma ScheduleRests(s: State, now: Time)
    requires Resting(s)
    ensures Resting(Schedule(s, now)) && Schedule(s, now).up.wire == s.up.wire
  {
    hide LocalPass, Rotate;
    var s1 := s.(now := now);
    LocalPassRests(s1, s1.ids);
    RotateRests(s1, |s1.order|);
  }

  /** Arrivals, departures, completed writes, ticks, and any push the companion sends. */
  ghost predicate Unasked(t: Table, e: Event) {
    || e.Admit? || e.Tick? || e.ClientClosed? || e.WriteDone?
    || (e.WriteFailed? && e.id != 0)
    || (e.UpstreamFrame? && IsPush(e.payload) && t.responseShape(e.payload))
  }

  lemma PushRests(s: State, p: Bytes, now: Time)
    requires Inv(s) && Resting(s) && s.cfg.table.responseShape(p) && IsPush(p)
    ensures Resting(Push(s, p, now)) && Push(s, p, now).up.wire == s.up.wire
  {
    hide Core, Orderly, HintAll, Broadcast, Emit, MatchPush, AckRing.Settle, Moves, RemoteResult, Quietly, Spoken,
         Wakeful;
    CoreParts(s, false, []);
    assert Opcode(p) == PUSH_SEND_CONFIRMED ==> |p| == 9 by {
      if Opcode(p) == PUSH_SEND_CONFIRMED {
        ConfirmationSize(s, p);
      }
    }
    if Opcode(p) == PUSH_MSG_WAITING {
      var noted := s.(drain := s.drain.(generation := s.drain.generation + 1,
                                        requested := s.drain.requested || s.drain.authorized));
      HintAllCalm(noted, noted.ids);
      NearRests(noted, HintAll(noted, noted.ids));
    } else if Opcode(p) == PUSH_SEND_CONFIRMED {
      var m := Confirming(s, U32(p, 1));
      BroadcastCalm(m, s.ids, p);
      NearRests(m, Broadcast(m, s.ids, p));
    } else if Opcode(p) in RESULT_PUSHES {
      RemoteResultRests(s, p, now);
    } else {
      BroadcastCalm(s, s.ids, p);
      NearRests(s, Broadcast(s, s.ids, p));
    }
  }

  lemma RemoteResultRests(s: State, p: Bytes, now: Time)
    requires Resting(s)
    ensures Resting(RemoteResult(s, p, now)) && RemoteResult(s, p, now).up.wire == s.up.wire
  {
    hide Orderly, Emit, MatchPush, Moves;
    var m := MatchPush(s.radio.remote, p, now);
    var r := s.(radio := s.radio.(remote := m.0), fault := s.fault || m.1.Unreadable?);
    if m.1.Matched? && m.1.owner.Some? {
      var o := Out(p, Result(m.1.command, m.1.tag));
      EmitCalm(r, m.1.owner.value, o);
      NearRests(r, Emit(r, m.1.owner.value, o));
    }
  }

  lemma TickedRests(s: State)
    requires Resting(s)
    ensures Resting(Ticked(s)) && Ticked(s).up.wire == s.up.wire
  {
    hide ExpireSessions, HintAll, Orderly, Moves;
    ExpireSessionsCalm(s, s.ids);
    var s1 := ExpireLeases(ExpireSessions(s, s.ids), s.now);
    var polled := s1.(lastPoll := s.now);
    HintAllCalm(polled, s1.ids);
    NearRests(polled, HintAll(polled, s1.ids));
  }

  lemma AdmitRests(s: State, id: int, slot: Option<int>, now: Time)
    requires Inv(s) && Legal(s, Admit(id, slot, now)) && Resting(s)
    ensures Resting(OnAdmit(s, id, slot, now)) && OnAdmit(s, id, slot, now).up.wire == s.up.wire
  {
    hide Core, Schedule, Orderly, Remove, Hint, Unused, ConfigOk, OnAdmit, Moves;
    if slot.Some? {
      ConfiguredSlot(s, slot.value);
    }
    CoreParts(s, false, []);
    var s0 := s.(now := now);
    ClockKeeps(s, now);
    VacatedIsWelcome(s0, id, slot);
    AdmitIs(s, id, slot, now);
    var s1 := Vacating(s0, slot);
    if Vacated(s0, slot) {
      RemoveCalm(s0, s0.slots[slot.value].attached.value);
      NearRests(s0, s1);
    }
    var j := Joined(s1, id, slot);
    HintCalm(j, id);
    NearRests(j, Hint(j, id));
    ScheduleRests(Hint(j, id), now);
  }

  lemma TickRests(s: State, now: Time)
    requires Inv(s) && s.now <= now && Resting(s)
    ensures Resting(OnTick(s, now)) && OnTick(s, now).up.wire == s.up.wire
  {
    hide Core, Schedule, Orderly, OnTick, Ticked, FailEpoch, OverdueFail;
    CoreParts(s, false, []);
    TickShape(s, now);
    assert s.up.writes.Keys == {} by { hide Disciplined, Owed, PhysicalScope; }
    TickedRests(s.(now := now));
    ScheduleRests(Ticked(s.(now := now)), now);
  }

  lemma WriteDoneRests(s: State, id: int, epoch: int, w: int, now: Time)
    requires Resting(s)
    ensures Resting(OnWriteDone(s, id, epoch, w, now)) && OnWriteDone(s, id, epoch, w, now).up.wire == s.up.wire
  {
    hide Schedule, Orderly, Onward;
    ScheduleRests(s, now);
    ScheduleRests(UpstreamWritten(s, w, now), now);
    if id in s.sessions {
      ScheduleRests(ClientWritten(s, id, w), now);
    }
  }

  lemma LeaveRests(s: State, id: int, now: Time)
    requires Resting(s)
    ensures var r := Schedule(Remove(s.(now := now), id), now); Resting(r) && r.up.wire == s.up.wire
  {
    hide Schedule, Orderly, Remove, Moves;
    var s0 := s.(now := now);
    RemoveCalm(s0, id);
    NearRests(s0, Remove(s0, id));
    ScheduleRests(Remove(s0, id), now);
  }

  lemma StepRests(s: State, e: Event)
    requires Inv(s) && Legal(s, e) && Resting(s) && Unasked(s.cfg.table, e)
    ensures Resting(StepEvent(s, e)) && StepEvent(s, e).up.wire == s.up.wire && StepEvent(s, e).cfg == s.cfg
  {
    hide Core, Schedule, Orderly, OnAdmit, OnTick, Remove, Push, OnWriteDone, Unused, FailEpoch, OverdueFail;
    StepConfig(s, e);
    match e
    case Admit(id, slot, now) => AdmitRests(s, id, slot, now);
    case Tick(now) => TickRests(s, now);
    case ClientClosed(id, now) => LeaveRests(s, id, now);
    case WriteFailed(id, epoch, now) => LeaveRests(s, id, now);
    case WriteDone(id, epoch, w, now) => WriteDoneRests(s, id, epoch, w, now);
    case UpstreamFrame(p, now) =>
      ClockKeeps(s, now);
      PushRests(s.(now := now), p, now);
      ScheduleRests(Push(s.(now := now), p, now), now);
  }

  /** No event but a reconnect touches the configuration. */
  lemma StepConfig(s: State, e: Event)
    requires !e.Reconnect?
    ensures StepEvent(s, e).cfg == s.cfg
  {
    hide OnAdmit, OnClientFrame, OnClientClosed, OnWriteDone, OnWriteFailed, OnUpstreamFrame, OnTick, OnDrainFrame,
         FailEpoch, Orderly, Moves;
  }

  /** From rest, no number of admissions, departures, polls, hints or other pushes makes the broker ask
      the companion for anything, let alone pop its inbox. */
  lemma {:induction false} RestingAsksNothing(s: State, es: seq<Event>)
    requires Good(s) && LegalRun(s, es) && Resting(s)
    requires forall i | 0 <= i < |es| :: Unasked(s.cfg.table, es[i])
    ensures Run(s, es).up.wire == s.up.wire && Resting(Run(s, es))
    decreases |es|
  {
    hide Good, Inv, StepEvent, Legal, Resting, Unasked;
    if es != [] {
      GoodHasInv(s);
      StepStaysGood(s, es[0]);
      StepRests(s, es[0]);
      RestingAsksNothing(StepEvent(s, es[0]), es[1..]);
    }
  }
}
