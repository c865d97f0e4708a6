/** A drain that is wanted is never idle: something is upstream, and the next free turn pops. */
module BrokerWakeup {
  import opened Wire
  import opened Protocol
  import opened Broker
  import opened BrokerInvariant
  import opened BrokerClients
  import opened BrokerInbox
  import opened BrokerSchedule
  import opened BrokerScopes
  import opened BrokerEvents
  import opened BrokerHistory

  /** A requested drain waits for nothing but a transaction that is upstream. */
  ghost predicate Working(s: State) {
    !s.failed && s.drain.requested ==> s.up.active.Some?
  }

  /** Serving a turn never asks for a drain. */
  lemma ServeAsksNoDrain(s: State, id: int)
    requires s.up.active.None?
    ensures !s.drain.requested ==> !Serve(s, id).drain.requested
  {
    hide Admission, Onward, Orderly, Listens, AnswerHead, Wakeful, NewTxn;
    if id != 0 && id in s.sessions && s.sessions[id].commands != [] {
      var v := Admission(s, id, s.sessions[id].commands[0].payload);
      if v.reason.Some? {
        AnswerAside(Charged(s, v), id, Err(v.reason.value));
      }
    }
  }

  lemma {:induction false} RotateAsksNoDrain(s: State, n: nat)
    requires s.up.active.None? && !s.drain.requested
    ensures !Rotate(s, n).drain.requested
    decreases n
  {
    hide Serve, Onward, Orderly, Listens;
    if n > 0 && s.order != [] {
      ServeAsksNoDrain(Turn(s), s.order[0]);
      var r := Serve(Turn(s), s.order[0]);
      if r.up.active.None? {
        RotateAsksNoDrain(r, n - 1);
      }
    }
  }

  /** The turn of the inbox consumer leaves nothing requested. */
  lemma ConsumerPops(s: State)
    requires Wakeful(s) && s.up.active.None? && s.cfg.table.descriptor(POP).Some?
    ensures !Serve(s, 0).drain.requested
  {
    hide NewTxn, Onward, Orderly, Listens;
  }

  lemma StillInLine(q: seq<int>, q': seq<int>, n: nat, x: int, y: int)
    requires 0 < n <= |q| && q[0] == x && x != y && x !in q[1..] && (exists i | 0 <= i < n :: q[i] == y)
    requires q' == q[1..] + [x] || q' == Without(q[1..] + [x], x)
    ensures n - 1 <= |q'| && exists i | 0 <= i < n - 1 :: q'[i] == y
  {
    WithoutLast(q[1..], x);
    var i :| 0 <= i < n && q[i] == y;
    assert q'[i - 1] == y;
  }

  lemma {:induction false} RotateWorks(s: State, n: nat)
    requires Inv(s) && Wakeful(s) && s.up.active.None? && !s.failed && Unserved(s, n)
    requires exists i | 0 <= i < n :: s.order[i] == 0
    ensures Rotate(s, n).up.active.None? ==> !Rotate(s, n).drain.requested
    decreases n
  {
    hide Core, Serve, Settled, Onward, Orderly, Listens, Wakeful;
    CoreRoster(s, false, []);
    if n > 0 {
      var id := s.order[0];
      var turned := Turn(s);
      assert Settled(s, id);
      TurnKeeps(s);
      TurnSettles(s, id);
      assert Wakeful(turned) by { TurnWakes(s); }
      ServeKeeps(turned, id);
      var r := Serve(turned, id);
      if r.up.active.None? {
        ServePassesOver(turned, id);
        if id == 0 {
          assert s.cfg.table.descriptor(POP).Some? by { PopIsKnown(s); }
          ConsumerPops(turned);
          RotateAsksNoDrain(r, n - 1);
        } else {
          UnservedStays(s, r, n);
          StillInLine(s.order, r.order, n, id, 0);
          assert Wakeful(r) by { ServeWakes(turned, id); }
          RotateWorks(r, n - 1);
        }
      }
    }
  }

  lemma PopIsKnown(s: State)
    requires Inv(s)
    ensures s.cfg.table.descriptor(POP).Some?
  {
    hide Core, ShapesOk;
    CoreParts(s, false, []);
  }

  lemma TurnWakes(s: State)
    requires Wakeful(s) && s.order != []
    ensures Wakeful(Turn(s))
  {
  }

  lemma ServeWakes(s: State, id: int)
    requires Wakeful(s)
    ensures Wakeful(Serve(s, id))
  {
    hide Serve, Orderly, Listens, Wakeful;
  }

  /** After a scheduling pass a requested drain waits for nothing but what is upstream. */
  lemma ScheduleWorks(m: State, now: Time)
    requires Inv(m) && Wakeful(m) && m.now <= now
    ensures Working(Schedule(m, now))
  {
    hide Core, LocalPass, Rotate, Settled, Unserved, Orderly, Listens, Wakeful;
    if !m.failed {
      var s1 := m.(now := now);
      ClockKeeps(m, now);
      assert Wakeful(s1) by { ClockWakes(m, now); }
      if !(s1.up.active.Some? && s1.up.active.value.maintenance) {
        var s2 := LocalPass(s1, s1.ids);
        LocalPassKeeps(s1, s1.ids, []);
        if s2.up.active.None? {
          ScheduleRotates(s1, s2);
          ConsumerInLine(s2);
          RotateWorks(s2, |s2.order|);
        }
      }
    }
  }

  lemma ClockWakes(s: State, now: Time)
    requires Wakeful(s)
    ensures Wakeful(s.(now := now))
  {
  }

  lemma ConsumerInLine(s: State)
    requires Inv(s)
    ensures exists i | 0 <= i < |s.order| :: s.order[i] == 0
  {
    hide Core;
    CoreRoster(s, false, []);
    assert 0 in s.order;
  }

  // ----- Events -----

  lemma AdmitWorks(s: State, id: int, slot: Option<int>, now: Time)
    requires Inv(s) && Wakeful(s) && Working(s) && s.now <= now && id > 0 && id !in s.sessions && !Owns(s.up.active, id)
    requires Unused(s.up.wire, id) && (slot.Some? ==> slot.value in s.slots)
    ensures Working(OnAdmit(s, id, slot, now))
  {
    hide Core, Unused, Schedule, Hint, Remove, ConfigOk, OnAdmit, Orderly, Listens, Moves;
    CoreParts(s, false, []);
    var s0 := s.(now := now);
    if s.failed || (s.up.active.Some? && s.up.active.value.maintenance) {
      RefusedAdmission(s, id, slot, now);
    } else {
      ClockKeeps(s, now);
      VacatedIsWelcome(s0, id, slot);
      AdmitIs(s, id, slot, now);
      var j := Joined(Vacating(s0, slot), id, slot);
      JoinKeeps(Vacating(s0, slot), id, slot);
      HintKeeps(j, id, false, []);
      assert id in j.sessions;
      ScheduleWorks(Hint(j, id), now);
    }
  }

  lemma ClientFrameWorks(s: State, id: int, p: Bytes, now: Time)
    requires Inv(s) && Wakeful(s) && Working(s) && s.now <= now
    ensures Working(OnClientFrame(s, id, p, now))
  {
    hide Core, Schedule, Remove, Orderly, Listens, Moves;
    ClockKeeps(s, now);
    var s0 := s.(now := now);
    if !s.failed && id in s.sessions {
      if QueueFull(s0, id) {
        RemoveKeeps(s0, id, false, []);
        ScheduleWorks(Remove(s0, id), now);
      } else {
        SubmitKeeps(s0, id, p, now);
        var c := s.sessions[id];
        var m := Put(s0, id, c.(commands := c.commands + [Queued(p, now)],
                                log := c.log.(submitted := c.log.submitted + [p])));
        assert id in m.sessions;
        ScheduleWorks(m, now);
      }
    }
  }

  lemma LeaveWorks(s: State, id: int, now: Time)
    requires Inv(s) && Wakeful(s) && s.now <= now
    ensures Working(Schedule(Remove(s.(now := now), id), now))
  {
    hide Core, Schedule, Remove, Orderly, Listens, Moves;
    ClockKeeps(s, now);
    RemoveKeeps(s.(now := now), id, false, []);
    ScheduleWorks(Remove(s.(now := now), id), now);
  }

  lemma WriteDoneWorks(s: State, id: int, epoch: int, w: int, now: Time)
    requires Inv(s) && Wakeful(s) && Working(s) && s.now <= now
    ensures Working(OnWriteDone(s, id, epoch, w, now))
  {
    hide Core, Schedule, UpstreamWritten, ClientWritten, Orderly, Listens, Moves;
    if epoch == s.epoch && !s.failed {
      if id == 0 {
        UpstreamWrittenKeeps(s, w, now);
        ScheduleWorks(UpstreamWritten(s, w, now), now);
      } else if id in s.sessions {
        ClientWrittenKeeps(s, id, w);
        ScheduleWorks(ClientWritten(s, id, w), now);
      } else {
        ScheduleWorks(s, now);
      }
    }
  }

  lemma UpstreamFrameWorks(s: State, p: Bytes, now: Time)
    requires Inv(s) && Wakeful(s) && Working(s) && s.now <= now
    ensures Working(OnUpstreamFrame(s, p, now))
  {
    hide Core, Schedule, FailEpoch, OverdueFail, Push, TxnResponse, ResponseOverdue, Orderly, Moves;
    ClockKeeps(s, now);
    var s0 := s.(now := now);
    if !s.failed {
      if ResponseOverdue(s0, now) {
        OverdueEnds(s0);
      } else if !s.cfg.table.responseShape(p) {
        FailureEnds(s0);
      } else if IsPush(p) {
        PushKeeps(s0, p, now);
        ScheduleWorks(Push(s0, p, now), now);
      } else {
        TxnResponseKeeps(s0, p);
        ScheduleWorks(TxnResponse(s0, p), now);
      }
    }
  }

  lemma FailureEnds(s: State)
    ensures FailEpoch(s).failed
  {
    hide Orderly, Moves, Wakeful;
  }

  lemma OverdueEnds(s: State)
    ensures OverdueFail(s).failed
  {
    hide FailEpoch;
    FailureEnds(s.(debt := s.up.active));
  }

  lemma TickWorks(s: State, now: Time)
    requires Inv(s) && Wakeful(s) && Working(s) && s.now <= now
    ensures Working(OnTick(s, now))
  {
    hide Core, FailEpoch, OverdueFail, Schedule, Ticked, AnyOverdue, ResponseOverdue, OnTick, Wakeful;
    ClockKeeps(s, now);
    assert Wakeful(s.(now := now)) by { ClockWakes(s, now); }
    TickShape(s, now);
    var s0 := s.(now := now);
    if !s.failed {
      if ResponseOverdue(s0, now) {
        OverdueEnds(s0);
      } else if AnyOverdue(s.up.writes, now) {
        FailureEnds(s0);
      } else {
        TickedKeeps(s0);
        assert Wakeful(Ticked(s0)) by { TickedWakes(s0); }
        ScheduleWorks(Ticked(s0), now);
      }
    }
  }

  lemma TickedWakes(s: State)
    requires Wakeful(s)
    ensures Wakeful(Ticked(s))
  {
    hide ExpireSessions, HintAll, Orderly, Moves, Listens;
  }

  lemma WriteFailedWorks(s: State, id: int, epoch: int, now: Time)
    requires Inv(s) && Wakeful(s) && Working(s) && s.now <= now
    ensures Working(OnWriteFailed(s, id, epoch, now))
  {
    hide Core, Schedule, Remove, FailEpoch, Wakeful;
    if epoch == s.epoch && !s.failed {
      if id == 0 {
        FailureEnds(s.(now := now));
      } else {
        LeaveWorks(s, id, now);
      }
    }
  }
}
