/** Every event keeps the histories true. */
module BrokerTraceEvents {
  import opened Wire
  import opened Protocol
  import opened Slots
  import opened Broker
  import opened BrokerInvariant
  import opened BrokerClients
  import opened BrokerSchedule
  import opened BrokerEvents
  import opened BrokerTrace

  lemma KnownSlots(s: State)
    requires Inv(s)
    ensures SlotsKnown(s)
  {
    hide Core, SlotOk, ItemsOk, TableOk;
    CoreParts(s, false, []);
  }

  /** No frame has gone to that session in this epoch. */
  ghost predicate Unheard(actions: seq<Action>, id: int) {
    forall i | 0 <= i < |actions| && actions[i].SendFrame? :: actions[i].session != id
  }

  lemma {:induction false} UnheardIsSilent(actions: seq<Action>, id: int)
    requires Unheard(actions, id)
    ensures Frames(actions, id) == []
    decreases |actions|
  {
    if actions != [] {
      UnheardIsSilent(actions[..|actions| - 1], id);
    }
  }

  lemma JoinTraced(s: State, id: int, slot: Option<int>)
    requires Inv(s) && Hist(s, []) && Welcome(s, id, slot) && Unheard(s.actions, id)
    ensures Hist(Joined(s, id, slot), [])
  {
    hide Core, SlotOk, ItemsOk, Frames, SentFrames, AskedFrames, WireOk, RemoteOk, SigningOk, OutsOk, InboxesOk,
         ClientsOk, TxnsOk, OrphanOk, SyncsOk, AirOk, RosterOk, ConfigOk, Unused, Unheard;
    CoreParts(s, false, []);
    UnheardIsSilent(s.actions, id);
    assert SentFrames([]) == [] by { SilentStart(); }
    JoinedTies(s, id, slot);
  }

  lemma SilentStart()
    ensures SentFrames([]) == []
  {
  }

  lemma JoinedTies(s: State, id: int, slot: Option<int>)
    requires SlotsOk(s.cfg, s.slots, s.sessions) && Tied(s.slots, s.sessions) && Offered(s.slots, s.pops, [])
    requires Welcome(s, id, slot)
    ensures Tied(Joined(s, id, slot).slots, Joined(s, id, slot).sessions)
    ensures Offered(Joined(s, id, slot).slots, s.pops, [])
  {
    hide SlotOk, ItemsOk, Unused, Owns;
  }

  lemma AdmitTraced(s: State, id: int, slot: Option<int>, now: Time)
    requires Inv(s) && Hist(s, []) && s.now <= now && id > 0 && id !in s.sessions && !Owns(s.up.active, id)
    requires Unused(s.up.wire, id) && Unheard(s.actions, id) && (slot.Some? ==> slot.value in s.slots)
    ensures Hist(OnAdmit(s, id, slot, now), [])
  {
    hide Core, Hist, ConfigOk, Unused, Schedule, Joined, Hint, Remove, Unheard;
    CoreParts(s, false, []);
    var s0 := s.(now := now);
    AlikeTraced(s, s0, []);
    if s.failed || (s.up.active.Some? && s.up.active.value.maintenance) {
      CloseTraced(s0, CloseSession(id), []);
    } else {
      ClockKeeps(s, now);
      var s1 := Vacating(s0, slot);
      VacatedIsWelcome(s0, id, slot);
      AdmitIs(s, id, slot, now);
      VacatingTraced(s0, slot);
      assert Unheard(s1.actions, id) by { VacatingIsSilent(s0, slot, id); }
      JoinTraced(s1, id, slot);
      HintTraced(Joined(s1, id, slot), id, []);
      ScheduleTraced(Hint(Joined(s1, id, slot), id), now);
    }
  }

  lemma VacatingTraced(s: State, slot: Option<int>)
    requires Hist(s, [])
    ensures Hist(Vacating(s, slot), [])
  {
    hide Hist, Remove;
    if Vacated(s, slot) {
      RemoveTraced(s, s.slots[slot.value].attached.value, []);
    }
  }

  /** Replacing a session sends nothing to anyone. */
  lemma VacatingIsSilent(s: State, slot: Option<int>, id: int)
    requires Unheard(s.actions, id) && !(s.up.active.Some? && s.up.active.value.maintenance)
    ensures Unheard(Vacating(s, slot).actions, id)
  {
    hide Aside, Only, Near;
  }

  lemma ClientFrameTraced(s: State, id: int, p: Bytes, now: Time)
    requires Hist(s, [])
    ensures Hist(OnClientFrame(s, id, p, now), [])
  {
    hide Hist, Schedule, Remove, QueueFull;
    var s0 := s.(now := now);
    AlikeTraced(s, s0, []);
    if !s.failed && id in s.sessions {
      RemoveTraced(s0, id, []);
      ScheduleTraced(Remove(s0, id), now);
      var c := s.sessions[id];
      var c' := c.(commands := c.commands + [Queued(p, now)], log := c.log.(submitted := c.log.submitted + [p]));
      PutTraced(s0, id, c', []);
      ScheduleTraced(Put(s0, id, c'), now);
    }
  }

  lemma LeaveTraced(s: State, id: int, now: Time)
    requires Hist(s, [])
    ensures Hist(Schedule(Remove(s.(now := now), id), now), [])
  {
    hide Hist, Schedule, Remove;
    AlikeTraced(s, s.(now := now), []);
    RemoveTraced(s.(now := now), id, []);
    ScheduleTraced(Remove(s.(now := now), id), now);
  }

  lemma WriteDoneTraced(s: State, id: int, epoch: int, w: int, now: Time)
    requires Hist(s, [])
    ensures Hist(OnWriteDone(s, id, epoch, w, now), [])
  {
    hide Hist, Schedule, Finish;
    AlikeTraced(s, UpstreamWritten(s, w, now), []);
    ScheduleTraced(UpstreamWritten(s, w, now), now);
    if id in s.sessions {
      var c := s.sessions[id];
      var c' := c.(writes := c.writes - {w}, hint := if c.hint == Some(w) then None else c.hint);
      PutTraced(s, id, c', []);
      if s.up.active.Some? {
        FinishTraced(Put(s, id, c'), s.up.active.value, []);
      }
      ScheduleTraced(ClientWritten(s, id, w), now);
    }
    ScheduleTraced(s, now);
  }

  lemma WriteFailedTraced(s: State, id: int, epoch: int, now: Time)
    requires Hist(s, [])
    ensures Hist(OnWriteFailed(s, id, epoch, now), [])
  {
    hide Hist, Schedule, Remove, FailEpoch;
    AlikeTraced(s, s.(now := now), []);
    FailTraced(s.(now := now), []);
    LeaveTraced(s, id, now);
  }

  lemma OverdueTraced(s: State)
    requires Hist(s, [])
    ensures Hist(OverdueFail(s), [])
  {
    hide Hist, FailEpoch;
    AlikeTraced(s, s.(debt := s.up.active), []);
    FailTraced(s.(debt := s.up.active), []);
  }

  lemma UpstreamFrameTraced(s: State, p: Bytes, now: Time)
    requires Hist(s, []) && SlotsKnown(s)
    ensures Hist(OnUpstreamFrame(s, p, now), [])
  {
    hide Hist, Schedule, FailEpoch, OverdueFail, Push, TxnResponse, ResponseOverdue;
    var s0 := s.(now := now);
    AlikeTraced(s, s0, []);
    OverdueTraced(s0);
    FailTraced(s0, []);
    PushTraced(s0, p, now);
    ScheduleTraced(Push(s0, p, now), now);
    TxnResponseTraced(s0, p);
    ScheduleTraced(TxnResponse(s0, p), now);
  }

  lemma TickTraced(s: State, now: Time)
    requires Hist(s, [])
    ensures Hist(OnTick(s, now), [])
  {
    hide Hist, FailEpoch, OverdueFail, Schedule, Ticked, AnyOverdue, ResponseOverdue, OnTick;
    TickShape(s, now);
    var s0 := s.(now := now);
    AlikeTraced(s, s0, []);
    OverdueTraced(s0);
    FailTraced(s0, []);
    TickedTraced(s0);
    ScheduleTraced(Ticked(s0), now);
  }

  lemma TickedTraced(s: State)
    requires Hist(s, [])
    ensures Hist(Ticked(s), [])
  {
    hide Hist, ExpireSessions, HintAll;
    var e := ExpireSessions(s, s.ids);
    ExpireSessionsTraced(s, s.ids);
    var s1 := ExpireLeases(e, s.now);
    AlikeTraced(e, s1, []);
    AlikeTraced(s1, s1.(lastPoll := s.now), []);
    HintAllTraced(s1.(lastPoll := s.now), s1.ids, []);
  }

  lemma DrainFrameTraced(s: State, p: Bytes, now: Time)
    requires Hist(s, []) && SlotsKnown(s)
    ensures Hist(OnDrainFrame(s, p, now), [])
  {
    hide Hist, Push, PopResult, ValidResponse, Completes;
    if s.debt.Some? && s.cfg.table.responseShape(p) {
      var t := s.debt.value;
      PushTraced(s, p, now);
      var h := Heard(s, p);
      HeardTraced(s, p, []);
      var cleared := h.(debt := None);
      AlikeTraced(h, cleared, []);
      AlikeTraced(h, h.(debt := Some(t.(contacts := t.contacts || Opcode(p) == RESP_CONTACTS_START))), []);
      PopResultTraced(cleared, t, p);
    }
  }

  lemma ReconnectTraced(s: State, key: Bytes, now: Time)
    requires Hist(s, [])
    ensures Hist(OnReconnect(s, key, now), [])
  {
  }
}
