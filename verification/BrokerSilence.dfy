/** A session that has left is handed nothing more, whoever gives the companion or the others work. */
module BrokerSilence {
  import opened Wire
  import opened Protocol
  import opened Broker
  import opened BrokerEvents
  import opened BrokerTrace
  import opened BrokerRuns

  /** Nothing was handed to that session, and it is not there. */
  ghost predicate Gone(s: State, r: State, id: int) {
    && id !in r.sessions && s.actions <= r.actions
    && forall i | |s.actions| <= i < |r.actions| && r.actions[i].SendFrame? :: r.actions[i].session != id
  }

  lemma {:induction false} FramesStay(a: seq<Action>, a': seq<Action>, id: int)
    requires a <= a' && forall i | |a| <= i < |a'| && a'[i].SendFrame? :: a'[i].session != id
    ensures Frames(a', id) == Frames(a, id)
    decreases |a'|
  {
    if a' != a {
      FramesStay(a, a'[..|a'| - 1], id);
    }
  }

  lemma GoneOn(s: State, m: State, r: State, id: int)
    requires Gone(s, m, id) && Gone(m, r, id)
    ensures Gone(s, r, id)
  {
  }

  lemma OnwardGone(s: State, r: State, id: int)
    requires Onward(s, r) && id != 0 && id !in s.sessions
    ensures Gone(s, r, id)
  {
    hide Orderly, Moves, Wakeful;
  }

  lemma NearGone(s: State, r: State, id: int)
    requires Near(s, r) && id != 0 && id !in s.sessions
    ensures Gone(s, r, id)
  {
    hide Orderly, Moves, Wakeful, Quietly;
  }

  lemma ScheduleGone(s: State, m: State, now: Time, id: int)
    requires Gone(s, m, id) && id != 0
    ensures Gone(s, Schedule(m, now), id)
  {
    hide LocalPass, Rotate, Orderly, Quietly, Wakeful, Moves;
    var r := Schedule(m, now);
    assert Spoken(m, r) && m.actions <= r.actions;
    assert id !in r.sessions;
  }

  lemma AdmitGone(s: State, other: int, slot: Option<int>, now: Time, id: int)
    requires id != 0 && id !in s.sessions && other != id
    ensures Gone(s, OnAdmit(s, other, slot, now), id)
  {
    hide Remove, EnqueueMulti, Hint, Schedule, Near, Quietly;
    var s0 := s.(now := now);
    if s.failed || (s.up.active.Some? && s.up.active.value.maintenance) || (slot.Some? && slot.value !in s.slots) {
    } else {
      var s1 := Vacating(s0, slot);
      if slot.Some? && s0.slots[slot.value].attached.Some? {
        NearGone(s0, s1, id);
      }
      JoinGone(s1, other, slot, now, id, |s.pops|);
      AdmitJoins(s, other, slot, now);
      var m := Entered(s1, other, slot, |s.pops|);
      GoneOn(s, s1, m, id);
      ScheduleGone(s, m, now, id);
    }
  }

  /** The rest of an admission, up to scheduling. */
  ghost function Entered(s1: State, id: int, slot: Option<int>, popped: nat): State {
    var s2 := if slot.Some? && slot.value in s1.slots
              then s1.(slots := s1.slots[slot.value := s1.slots[slot.value].(attached := Some(id))]) else s1;
    var handed := if slot.None? && s2.orphan.Some? then [s2.orphan.value] else [];
    var joined := if slot.Some? && slot.value in s2.slots then |s2.slots[slot.value].taken| else popped;
    var s3 := s2.(sessions := s2.sessions[id := NewSession(slot, joined, handed)], ids := s2.ids + [id],
                  order := s2.order + [id], orphan := if slot.None? then None else s2.orphan);
    var s4 := if handed != [] then EnqueueMulti(s3, id, handed[0]) else s3;
    if id in s4.sessions then Hint(s4, id) else s4.(fault := true)
  }

  lemma AdmitJoins(s: State, id: int, slot: Option<int>, now: Time)
    requires !s.failed && !(s.up.active.Some? && s.up.active.value.maintenance)
    requires slot.Some? ==> slot.value in s.slots
    ensures OnAdmit(s, id, slot, now) == Schedule(Entered(Vacating(s.(now := now), slot), id, slot, |s.pops|), now)
  {
    hide Remove, EnqueueMulti, Hint, Schedule, Near;
  }

  lemma JoinGone(s1: State, other: int, slot: Option<int>, now: Time, id: int, popped: nat)
    requires id != 0 && id !in s1.sessions && other != id
    ensures Gone(s1, Entered(s1, other, slot, popped), id)
  {
    hide EnqueueMulti, Hint, Orderly, Moves, Wakeful, Quietly;
  }

  lemma HandlerGone(s: State, e: Event, id: int)
    requires id != 0 && id !in s.sessions && !e.Reconnect? && !(e.Admit? && e.id == id)
    ensures Gone(s, StepEvent(s, e), id)
  {
    hide OnAdmit, Schedule, Remove, UpstreamWritten, ClientWritten, FailEpoch, Push, TxnResponse, PopResult, Ticked,
         OnTick, Near, Onward, Quietly, AnyOverdue, ResponseOverdue, OverdueFail, ValidResponse, Completes, Gone;
    match e
    case Admit(other, slot, now) => AdmitGone(s, other, slot, now, id);
    case ClientFrame(x, p, now) => ClientFrameGone(s, x, p, now, id);
    case ClientClosed(x, now) => RemoveGone(s, x, now, id);
    case WriteDone(x, epoch, w, now) => WriteDoneGone(s, x, epoch, w, now, id);
    case WriteFailed(x, epoch, now) =>
      StillGone(s, id);
      RemoveGone(s, x, now, id);
      FailGone(s, s.(now := now), id);
    case UpstreamFrame(p, now) => UpstreamFrameGone(s, p, now, id);
    case Tick(now) => TickGone(s, now, id);
    case Fail => FailGone(s, s, id);
    case DrainFrame(p, now) => DrainFrameGone(s, p, now, id);
  }

  lemma StillGone(s: State, id: int)
    requires id !in s.sessions
    ensures Gone(s, s, id)
  {
  }

  lemma FailGone(s: State, m: State, id: int)
    requires id != 0 && id !in s.sessions && m.sessions == s.sessions && m.actions == s.actions
    ensures Gone(s, FailEpoch(m), id)
  {
    hide FailEpoch, Near;
    NearGone(m, FailEpoch(m), id);
  }

  lemma RemoveGone(s: State, x: int, now: Time, id: int)
    requires id != 0 && id !in s.sessions
    ensures Gone(s, Schedule(Remove(s.(now := now), x), now), id)
  {
    hide Schedule, Remove, Near;
    NearGone(s.(now := now), Remove(s.(now := now), x), id);
    ScheduleGone(s, Remove(s.(now := now), x), now, id);
  }

  lemma ClientFrameGone(s: State, x: int, p: Bytes, now: Time, id: int)
    requires id != 0 && id !in s.sessions
    ensures Gone(s, OnClientFrame(s, x, p, now), id)
  {
    hide Schedule, Remove, Near, QueueFull;
    RemoveGone(s, x, now, id);
    if x in s.sessions {
      var c := s.sessions[x];
      ScheduleGone(s, Put(s.(now := now), x, c.(commands := c.commands + [Queued(p, now)],
                                                log := c.log.(submitted := c.log.submitted + [p]))), now, id);
    }
  }

  lemma WriteDoneGone(s: State, x: int, epoch: int, w: int, now: Time, id: int)
    requires id != 0 && id !in s.sessions
    ensures Gone(s, OnWriteDone(s, x, epoch, w, now), id)
  {
    hide Schedule, UpstreamWritten, ClientWritten, Onward, Quietly;
    OnwardGone(s, UpstreamWritten(s, w, now), id);
    ScheduleGone(s, UpstreamWritten(s, w, now), now, id);
    if x in s.sessions {
      OnwardGone(s, ClientWritten(s, x, w), id);
      ScheduleGone(s, ClientWritten(s, x, w), now, id);
    }
    ScheduleGone(s, s, now, id);
  }

  lemma UpstreamFrameGone(s: State, p: Bytes, now: Time, id: int)
    requires id != 0 && id !in s.sessions
    ensures Gone(s, OnUpstreamFrame(s, p, now), id)
  {
    hide Schedule, Push, TxnResponse, FailEpoch, Near, Onward, ResponseOverdue;
    var s0 := s.(now := now);
    FailGone(s, s0, id);
    FailGone(s, s0.(debt := s0.up.active), id);
    OnwardGone(s0, Push(s0, p, now), id);
    OnwardGone(s0, TxnResponse(s0, p), id);
    ScheduleGone(s, Push(s0, p, now), now, id);
    ScheduleGone(s, TxnResponse(s0, p), now, id);
  }

  lemma TickGone(s: State, now: Time, id: int)
    requires id != 0 && id !in s.sessions
    ensures Gone(s, OnTick(s, now), id)
  {
    hide Schedule, FailEpoch, OnTick, Ticked, Near, AnyOverdue, ResponseOverdue;
    TickShape(s, now);
    var s0 := s.(now := now);
    FailGone(s, s0, id);
    FailGone(s, s0.(debt := s0.up.active), id);
    TickedGone(s0, id);
    ScheduleGone(s, Ticked(s0), now, id);
  }

  lemma TickedGone(s: State, id: int)
    requires id != 0 && id !in s.sessions
    ensures Gone(s, Ticked(s), id)
  {
    hide ExpireSessions, HintAll, Near, Quietly;
    var e := ExpireSessions(s, s.ids);
    NearGone(s, e, id);
    var s1 := ExpireLeases(e, s.now);
    NearGone(s1.(lastPoll := s.now), HintAll(s1.(lastPoll := s.now), s1.ids), id);
  }

  lemma DrainFrameGone(s: State, p: Bytes, now: Time, id: int)
    requires id != 0 && id !in s.sessions
    ensures Gone(s, OnDrainFrame(s, p, now), id)
  {
    hide Push, PopResult, ValidResponse, Completes, Onward;
    OnwardGone(s, Push(s, p, now), id);
    if s.debt.Some? {
      var cleared := Heard(s, p).(debt := None);
      OnwardGone(cleared, PopResult(cleared, s.debt.value, p), id);
    }
  }

  /** Once a session has left, no run of events without its admission hands it another frame: replies to
      its commands, late results, inbox items and pushes reach somebody else or nobody. */
  lemma {:induction false} DepartedHearNothing(s: State, es: seq<Event>, id: int)
    requires id != 0 && id !in s.sessions
    requires forall i | 0 <= i < |es| :: !es[i].Reconnect? && !(es[i].Admit? && es[i].id == id)
    ensures id !in Run(s, es).sessions && Frames(Run(s, es).actions, id) == Frames(s.actions, id)
    decreases |es|
  {
    hide StepEvent, Frames;
    if es != [] {
      var r := StepEvent(s, es[0]);
      HandlerGone(s, es[0], id);
      FramesStay(s.actions, r.actions, id);
      DepartedHearNothing(r, es[1..], id);
    }
  }
}
