/** A failed epoch: nothing more is sent, and what the companion still owes is accounted for. */
module BrokerFailure {
  import opened Wire
  import opened Protocol
  import opened Leases
  import opened Slots
  import opened Broker
  import opened BrokerInvariant
  import opened BrokerClients
  import opened BrokerPops
  import opened BrokerHistory
  import opened BrokerTrace
  import opened BrokerRuns
  import opened BrokerWakeup
  import AckRing
  import Dedup

  /** Nobody is connected and nothing is upstream. */
  ghost predicate Deaf(s: State) {
    s.failed && s.sessions == map[] && s.ids == [] && s.up.active.None?
  }

  lemma FailedIsDeaf(s: State)
    requires Inv(s) && s.failed
    ensures Deaf(s)
  {
    hide Core;
    CoreParts(s, false, []);
    EmptyRoster(s);
  }

  // ----- Popped items with nobody connected -----

  lemma OfferDeaf(s: State, d: int, p: Bytes)
    requires Deaf(s)
    ensures OfferSlot(s, d, p) ==
            if d in s.slots then s.(slots := s.slots[d := Enqueue(s.slots[d], p, s.cfg.offlineQueueSize)]) else s
  {
    hide Enqueue, Discards, Aside, Deliver, Hint;
  }

  /** Every listed slot gets the item, and nothing else happens. */
  lemma {:induction false} FanOutDeaf(s: State, ds: seq<int>, p: Bytes)
    requires Deaf(s) && Distinct(ds)
    ensures var r := FanOut(s, ds, p);
            && r == s.(slots := r.slots) && r.slots.Keys == s.slots.Keys
            && (forall d | d in s.slots ::
                  r.slots[d] == if d in ds then Enqueue(s.slots[d], p, s.cfg.offlineQueueSize) else s.slots[d])
    decreases |ds|
  {
    hide OfferSlot, Enqueue, Aside;
    if ds != [] {
      OfferDeaf(s, ds[0], p);
      FanOutDeaf(OfferSlot(s, ds[0], p), ds[1..], p);
    }
  }

  /** The effect of an owed pop's reply on what survives the epoch. */
  lemma PopResultDeaf(s: State, t: Txn, p: Bytes)
    requires Deaf(s) && Distinct(s.cfg.slotIds) && (forall d :: d in s.slots <==> d in s.cfg.slotIds)
    ensures var r := PopResult(s, t, p);
            && r.actions == s.actions && r.failed && r.debt == s.debt && r.up == s.up
            && if Opcode(p) == RESP_NO_MORE_MESSAGES || (s.cfg.deduplicate && Dedup.Duplicate(s.radio.seen, p)) then
                 r.slots == s.slots && r.orphan == s.orphan && r.pops == s.pops
               else
                 && r.pops == s.pops + [p]
                 && r.orphan == (if t.hadMulti then Some(p) else s.orphan)
                 && r.slots.Keys == s.slots.Keys
                 && (forall d | d in s.slots :: r.slots[d] == Enqueue(s.slots[d], p, s.cfg.offlineQueueSize))
  {
    hide FanOut, Enqueue, Aside, Dedup.Remember, Dedup.Duplicate;
    var seen := if s.cfg.deduplicate then Dedup.Remember(s.radio.seen, p) else s.radio.seen;
    var noted := s.(radio := s.radio.(seen := seen, heard := s.radio.heard + [p]), pops := s.pops + [p]);
    FanOutDeaf(noted, s.cfg.slotIds, p);
    var r := FanOut(noted, s.cfg.slotIds, p);
    assert MultiIds(r, r.ids) == [];
    assert EnqueueAll(r, [], p) == r;
  }

  // ----- Nothing is sent -----

  lemma PushDeaf(s: State, p: Bytes, now: Time)
    requires Deaf(s)
    ensures var r := Push(s, p, now);
            r.actions == s.actions && r.failed && r.debt == s.debt && r.slots == s.slots && r.orphan == s.orphan
  {
    hide Aside, TxnResponse, MatchPush, U32, AckRing.Settle;
  }

  lemma DrainDeaf(s: State, p: Bytes, now: Time)
    requires Deaf(s) && SlotsKnown(s) && (forall d :: d in s.slots <==> d in s.cfg.slotIds)
    ensures OnDrainFrame(s, p, now).actions == s.actions && OnDrainFrame(s, p, now).failed
  {
    hide Push, PopResult, ValidResponse, Completes;
    PushDeaf(s, p, now);
    if s.debt.Some? {
      PopResultDeaf(Heard(s, p).(debt := None), s.debt.value, p);
    }
  }

  lemma SlotsConfigured(s: State)
    requires Inv(s)
    ensures SlotsKnown(s) && forall d :: d in s.slots <==> d in s.cfg.slotIds
  {
    hide Core, SlotOk, ItemsOk, TableOk;
    CoreParts(s, false, []);
  }

  lemma FailedStepIsSilent(s: State, e: Event)
    requires Good(s) && s.failed && Legal(s, e) && !e.Reconnect?
    ensures StepEvent(s, e).failed
    ensures forall id :: Frames(StepEvent(s, e).actions, id) == Frames(s.actions, id)
  {
    hide Core, Hist, Frames, Schedule, Push, PopResult, OnDrainFrame, Legal;
    FailedIsDeaf(s);
    SlotsConfigured(s);
    if e.DrainFrame? {
      DrainDeaf(s, e.payload, e.now);
    } else if e.Admit? {
      forall id
        ensures Frames(StepEvent(s, e).actions, id) == Frames(s.actions, id)
      {
        FramesGrow(s.actions, CloseSession(e.id), id);
      }
    } else if e.ClientClosed? {
      assert Remove(s.(now := e.now), e.id) == s.(now := e.now);
      assert Schedule(s.(now := e.now), e.now) == s.(now := e.now) by { FailedSchedule(s.(now := e.now), e.now); }
    }
  }

  lemma FailedSchedule(s: State, now: Time)
    requires s.failed
    ensures Schedule(s, now) == s
  {
  }

  lemma GoodIsDeaf(s: State)
    requires Good(s) && s.failed
    ensures Deaf(s)
  {
    hide Core, Hist;
    FailedIsDeaf(s);
  }

  ghost predicate SameEpoch(es: seq<Event>) {
    forall i | 0 <= i < |es| :: !es[i].Reconnect?
  }

  /** Once an epoch has failed no event of it, in any order and number, hands another frame to any
      writer: nothing is replayed and nothing is sent beneath an unanswered command. */
  lemma {:induction false} NothingIsSentAfterFailure(s: State, es: seq<Event>)
    requires Good(s) && s.failed && LegalRun(s, es) && SameEpoch(es)
    ensures Run(s, es).failed && Run(s, es).sessions == map[]
    ensures forall id :: Frames(Run(s, es).actions, id) == Frames(s.actions, id)
    decreases |es|
  {
    hide Good, StepEvent, Legal, Frames;
    if es == [] {
      GoodIsDeaf(s);
    } else {
      StepStaysGood(s, es[0]);
      assert !es[0].Reconnect?;
      FailedStepIsSilent(s, es[0]);
      NothingIsSentAfterFailure(StepEvent(s, es[0]), es[1..]);
    }
  }

  // ----- The debt -----

  /** The replies that end what a debt waits for. */
  ghost predicate Pays(t: Table, debt: Txn, p: Bytes) {
    && t.responseShape(p) && !IsPush(p)
    && if debt.step.Setup? || debt.step.Restore? then IsScopeReply(p)
       else ValidResponse(t, debt.desc, p, debt.command, debt.contacts) && Completes(debt.desc, p)
  }

  /** A debt is cleared by a terminating ordinary reply to the owed command and by nothing else; a
      push never clears it, whatever it answers. */
  lemma DebtIsClearedOnlyByItsReply(s: State, e: Event)
    requires Good(s) && s.failed && s.debt.Some? && Legal(s, e) && !e.Reconnect?
    ensures StepEvent(s, e).debt.None? <==> e.DrainFrame? && Pays(s.cfg.table, s.debt.value, e.payload)
  {
    hide Core, Hist, Push, PopResult, ValidResponse, Completes, Legal;
    FailedIsDeaf(s);
    SlotsConfigured(s);
    if e.DrainFrame? {
      PushDeaf(s, e.payload, e.now);
      PopResultDeaf(Heard(s, e.payload).(debt := None), s.debt.value, e.payload);
    }
  }

  /** What an owed pop returns is not lost: every dedicated slot is offered it, and it becomes the
      orphan if a multi-client session was there when it was asked. */
  lemma OwedItemIsKept(s: State, p: Bytes, now: Time)
    requires Good(s) && s.debt.Some? && s.debt.value.owner == 0 && Pays(s.cfg.table, s.debt.value, p)
    requires Opcode(p) != RESP_ERR && Opcode(p) != RESP_NO_MORE_MESSAGES
    requires !(s.cfg.deduplicate && Dedup.Duplicate(s.radio.seen, p))
    ensures var r := OnDrainFrame(s, p, now);
            && r.debt.None? && r.pops == s.pops + [p]
            && (forall d | d in s.slots :: d in r.slots && r.slots[d] == Enqueue(s.slots[d], p, s.cfg.offlineQueueSize))
            && (s.debt.value.hadMulti ==> s.orphan.None? && r.orphan == Some(p))
            && (!s.debt.value.hadMulti ==> r.orphan == s.orphan)
  {
    hide Inv, Hist, HeardBut, Working, Wakeful, Push, PopResult, ValidResponse, Completes, Enqueue, Dedup.Duplicate,
         Deaf;
    OwedPop(s);
    PopResultDeaf(Heard(s, p).(debt := None), s.debt.value, p);
    assert OnDrainFrame(s, p, now) == PopResult(Heard(s, p).(debt := None), s.debt.value, p);
  }

  lemma OwedPop(s: State)
    requires Inv(s) && s.debt.Some? && s.debt.value.owner == 0
    ensures s.debt.value.step.Command? && (s.debt.value.hadMulti ==> s.orphan.None?)
    ensures forall p :: Deaf(Heard(s, p).(debt := None))
    ensures Distinct(s.cfg.slotIds) && forall d :: d in s.slots <==> d in s.cfg.slotIds
  {
    hide Core, TableOk, DebtOk, Disciplined;
    CoreParts(s, false, []);
    FailedIsDeaf(s);
    SlotsConfigured(s);
  }

  /** The hidden pop or scope restore that the last thing heard refuses. */
  ghost function JustRefused(w: seq<WireEvent>): Option<Job> {
    if RefusedHidden(w) then Some(w[|w| - 2].job) else None
  }

  /** A failed connection owes a reply exactly if it has a debt and did not just refuse a hidden pop or
      scope restore, and then the debt is for that very reply. After such a refusal the debt, if any,
      is for what was refused. */
  lemma OwedReplyLeavesADebt(s: State)
    requires Reachable(s) && s.failed
    ensures Owed(s.cfg.table, s.up.wire).Some? <==> s.debt.Some? && JustRefused(s.up.wire).None?
    ensures s.debt.Some? ==>
              Some(JobOf(s.debt.value)) in {Owed(s.cfg.table, s.up.wire), JustRefused(s.up.wire)}
  {
    hide Inv, Hist, HeardBut, Working, Wakeful, Reachable, Owed, JustRefused;
    ReachableIsGood(s);
    DebtIsOwed(s);
  }

  lemma DebtIsOwed(s: State)
    requires Inv(s) && s.failed
    ensures Owed(s.cfg.table, s.up.wire).Some? <==> s.debt.Some? && JustRefused(s.up.wire).None?
    ensures s.debt.Some? ==>
              Some(JobOf(s.debt.value)) in {Owed(s.cfg.table, s.up.wire), JustRefused(s.up.wire)}
  {
    hide Core, Owed, Disciplined, TxnsOk, JobOf;
    CoreParts(s, false, []);
    if RefusedHidden(s.up.wire) {
      RefusedIsOver(s.cfg.table, s.up.wire);
    }
  }
}
