/**
 The broker as the source writes it: one object whose methods update its fields step by step, with
 its loops. Every method is proved to do what the function of the model does, so all that is
 proved of the functions is true of the object.
 */
module BrokerObject {
  import opened Wire
  import opened Protocol
  import opened Leases
  import opened Slots
  import opened Model = Broker
  import opened BrokerSchedule
  import AckRing
  import Dedup

  // ----- Removing everybody -----

  /** Sessions removed one after the other. */
  ghost function RemoveAll(s: State, ids: seq<int>): State
    decreases |ids|
  {
    if ids == [] then s else RemoveAll(Remove(s, ids[0]), ids[1..])
  }

  /** The transaction of a maintenance command whose result `owner` was about to be sent is over. */
  ghost function Released(s: State, owner: int): State {
    s.(up := s.up.(active := None), signing := SigningOwnerGone(s.signing, owner))
  }

  lemma DetachReleased(s: State, id: int, owner: int)
    requires id in s.sessions && owner != id && IsActiveOwner(s, owner)
    ensures Detach(Released(s, owner), id) == Released(Detach(s, id), owner)
  {
    hide Near, Aside, Only, Without;
  }

  lemma {:induction false} DetachAllReleased(s: State, ids: seq<int>, owner: int)
    requires owner !in s.sessions && IsActiveOwner(s, owner)
    ensures DetachAll(Released(s, owner), ids) == Released(DetachAll(s, ids), owner)
    decreases |ids|
  {
    hide Near, Detach, SigningOwnerGone;
    if ids != [] {
      if ids[0] in s.sessions {
        DetachReleased(s, ids[0], owner);
        assert IsActiveOwner(Detach(s, ids[0]), owner) by { DetachStays(s, ids[0]); }
        DetachAllReleased(Detach(s, ids[0]), ids[1..], owner);
      } else {
        DetachAllReleased(s, ids[1..], owner);
      }
    }
  }

  lemma DetachStays(s: State, id: int)
    requires id in s.sessions
    ensures Detach(s, id).up == s.up && Detach(s, id).failed == s.failed && Detach(s, id).sessions == s.sessions - {id}
  {
    hide Near, Without;
  }

  lemma {:induction false} DetachingAll(s: State, ids: seq<int>)
    requires s.failed && !(s.up.active.Some? && s.up.active.value.owner in s.sessions && s.up.active.value.owner in ids
                           && AwaitingResultWrite(s, s.up.active.value.owner))
    ensures RemoveAll(s, ids) == DetachAll(s, ids)
    decreases |ids|
  {
    hide Near, Detach, Aside, Only;
    if ids != [] {
      if ids[0] in s.sessions {
        DetachStays(s, ids[0]);
        assert Remove(s, ids[0]) == Detach(s, ids[0]);
        DetachingAll(Detach(s, ids[0]), ids[1..]);
      } else {
        DetachingAll(s, ids[1..]);
      }
    }
  }

  /** In a failed epoch, removing everybody one by one detaches them all and, if a maintenance result
      was waiting for its owner, releases its transaction. */
  lemma {:induction false} RemovingAll(s: State, ids: seq<int>)
    requires s.failed && s.up.active.Some? && s.up.active.value.owner in s.sessions && s.up.active.value.owner in ids
    requires AwaitingResultWrite(s, s.up.active.value.owner)
    ensures RemoveAll(s, ids) == Released(DetachAll(s, ids), s.up.active.value.owner)
    decreases |ids|
  {
    hide Near, Detach, Aside, Only, SigningOwnerGone;
    var owner := s.up.active.value.owner;
    if ids[0] == owner {
      var gone := Detach(s, owner);
      DetachStays(s, owner);
      assert Remove(s, owner) == Released(gone, owner) by { RemoveReleases(s, owner); }
      DetachingAll(Released(gone, owner), ids[1..]);
      DetachAllReleased(gone, ids[1..], owner);
    } else if ids[0] in s.sessions {
      DetachStays(s, ids[0]);
      assert Remove(s, ids[0]) == Detach(s, ids[0]);
      RemovingAll(Detach(s, ids[0]), ids[1..]);
    } else {
      RemovingAll(s, ids[1..]);
    }
  }

  lemma RemoveReleases(s: State, owner: int)
    requires s.failed && owner in s.sessions && AwaitingResultWrite(s, owner)
    ensures Remove(s, owner) == Released(Detach(s, owner), owner)
  {
    hide Near, Without;
  }

  /** With nothing upstream, handing out a popped item touches no debt. */
  lemma PopKeepsDebt(s: State, t: Txn, p: Bytes)
    requires s.up.active.None?
    ensures PopResult(s, t, p).debt == s.debt
  {
    hide SettleEmpty, FanOut, EnqueueAll, MultiIds, AnySync, Orderly, Moves, Dedup.Duplicate, Dedup.Remember, Onward;
  }

  lemma PushKeepsDebt(s: State, p: Bytes, now: Time)
    requires s.up.active.None?
    ensures Push(s, p, now).debt == s.debt
  {
    hide HintAll, Broadcast, TxnResponse, MatchPush, Emit, AckRing.Settle, Orderly, Moves, Onward;
  }

  /** Every local decision takes one command off the queue, or the session leaves. */
  lemma HeadLeaves(s: State, id: int)
    requires id in s.sessions && s.sessions[id].commands != []
    requires !Decide(s.cfg, s.sessions[id].commands[0], s.now).Forward?
    ensures id in LocalHead(s, id).sessions ==> LocalHead(s, id).sessions[id].commands == s.sessions[id].commands[1..]
  {
    hide Remove, Decide, Aside, Only, Downgrade, Take;
    var c := s.sessions[id];
    RemoveForgets(Put(s, id, Shift(c)), id);
    RemoveForgets(Put(s, id, Shift(c).(scope := c.commands[0].payload)), id);
  }

  /** The state in which a failing epoch removes its clients. */
  ghost function Marked(s: State): State {
    s.(failed := true, debt := DebtAfter(s.debt, s.up.active),
       radio := AfterLoss(s.radio, s.up.active, s.now, s.cfg.uncertaintyTimeout))
  }

  lemma FailIs(s: State)
    requires !s.failed
    ensures FailEpoch(s) ==
            var r := RemoveAll(Marked(s), s.ids);
            r.(up := Upstream(None, map[], r.up.wire), actions := r.actions + [EndEpoch])
  {
    hide Near, AfterLoss, DetachAll, RemoveAll, SigningOwnerGone, DebtAfter;
    var marked := Marked(s);
    if s.up.active.Some? && s.up.active.value.owner in s.sessions && s.up.active.value.owner in s.ids
       && AwaitingResultWrite(s, s.up.active.value.owner) {
      RemovingAll(marked, s.ids);
    } else {
      DetachingAll(marked, s.ids);
    }
  }

  lemma FailedAlready(s: State)
    requires s.failed
    ensures FailEpoch(s) == s
  {
  }

  // ----- The object -----

  class Broker {
    const cfg: Config
    const epoch: int
    var now: Time
    var failed: bool
    var fault: bool
    var sessions: map<int, Session>
    var ids: seq<int>
    var order: seq<int>
    var nextWrite: int
    var up: Upstream
    var debt: Option<Txn>
    var drain: Drain
    var lastPoll: Time
    var orphan: Option<Bytes>
    var slots: map<int, Slot>
    var radio: RadioState
    var signing: Signing
    var pops: seq<Bytes>
    const base: nat
    var actions: seq<Action>

    ghost function View(): State
      reads this
    {
      State(cfg, epoch, now, failed, fault, sessions, ids, order, nextWrite, up, debt, drain, lastPoll, orphan, slots,
            radio, signing, pops, base, actions)
    }

    constructor (cfg: Config, epoch: int, now: Time, orphan: Option<Bytes>, slots: map<int, Slot>, radio: RadioState)
      ensures View() == Fresh(cfg, epoch, now, orphan, slots, radio)
    {
      this.cfg, this.epoch, this.now, failed, fault := cfg, epoch, 0, false, false;
      sessions, ids, order, nextWrite := map[], [], [0], 0;
      up, debt, drain := Upstream(None, map[], []), None, Drain(false, false, 0, 0);
      lastPoll, this.orphan, this.slots, this.radio, signing := now, orphan, slots, radio, Free;
      pops, base, actions := [], |radio.heard|, [];
    }

    // ----- Leaving and failing -----

    /** The session leaves the table and the scheduling order. */
    method Forget(id: int)
      modifies this`sessions, this`ids, this`order, this`actions
      ensures sessions == old(sessions) - {id} && ids == Without(old(ids), id) && order == Without(old(order), id)
      ensures actions == old(actions) + [CloseSession(id)]
    {
      sessions := sessions - {id};
      ids := Without(ids, id);
      order := Without(order, id);
      actions := actions + [CloseSession(id)];
    }

    method FreeSlot(slot: Option<int>, id: int)
      modifies this`slots
      ensures slots == DetachSlot(old(slots), slot, id)
    {
      if slot.Some? && slot.value in slots && slots[slot.value].attached == Some(id) {
        slots := slots[slot.value := slots[slot.value].(attached := None)];
      }
    }

    /** Radio state survives its owner; signing is given up unless a reply is still to be classified. */
    method DropLeases(id: int)
      modifies this`radio, this`signing
      ensures radio == old(radio).(remote := RemoteOwnerGone(old(radio).remote, id))
      ensures signing == if up.active.Some? && up.active.value.owner == id then old(signing)
              else SigningOwnerGone(old(signing), id)
    {
      radio := radio.(remote := RemoteOwnerGone(radio.remote, id));
      if up.active.None? || up.active.value.owner != id {
        signing := SigningOwnerGone(signing, id);
      }
    }

    method DetachSession(id: int)
      requires id in sessions
      modifies this
      ensures View() == Detach(old(View()), id)
    {
      hide Near, Aside, Only, Without, DetachSlot, SigningOwnerGone, RemoteOwnerGone;
      var slot := sessions[id].slot;
      Forget(id);
      FreeSlot(slot, id);
      DropLeases(id);
      CalmDrain();
    }

    /** Nobody is left to drain for. */
    method CalmDrain()
      modifies this`drain
      ensures drain == if sessions == map[] then old(drain).(requested := false, authorized := false) else old(drain)
    {
      if sessions == map[] {
        drain := drain.(requested := false, authorized := false);
      }
    }

    method RemoveSession(id: int)
      modifies this
      ensures View() == Remove(old(View()), id)
      decreases !failed, 3
    {
      hide Near, Aside, Only, Detach, Model.Finish;
      if id !in sessions {
        return;
      }
      DetachSession(id);
      assert failed == old(failed) by { DetachKeepsFailed(old(View()), id); }
      if up.active.Some? && up.active.value.maintenance && up.active.value.step.MaintenanceResult?
         && up.active.value.owner == id {
        FinishTransaction(up.active.value);
      }
    }

    lemma DetachKeepsFailed(s: State, id: int)
      requires id in s.sessions
      ensures Detach(s, id).failed == s.failed
    {
      hide Near;
    }

    method FinishTransaction(t: Txn)
      modifies this
      ensures View() == Finish(old(View()), t)
      decreases !failed, 2
    {
      hide Near, FailEpoch, Orderly, Onward;
      up := up.(active := None);
      if t.owner !in sessions {
        signing := SigningOwnerGone(signing, t.owner);
      }
      if t.maintenance {
        Fail();
      }
    }

    method PreserveRadioUncertainty()
      modifies this`radio
      ensures radio == AfterLoss(old(radio), up.active, now, cfg.uncertaintyTimeout)
    {
      if up.active.None? {
        return;
      }
      var t := up.active.value;
      if t.step.Setup? {
        radio := Abandon(radio, t);
        return;
      }
      if !t.step.Command? || !(t.desc.remoteLease || PlainDm(t.command)) {
        return;
      }
      var air := AckRing.Quarantine(radio.air, now, cfg.uncertaintyTimeout, PlainDm(t.command));
      radio := radio.(air := air, log := radio.log + [AckRing.Lost(now, PlainDm(t.command))]);
      if t.desc.remoteLease {
        var disowned := Disown(radio.remote, air.until.value);
        if disowned.Some? {
          radio := radio.(remote := disowned.value);
        }
      }
    }

    /** Disconnects every client. */
    method RemoveEveryone()
      requires failed
      modifies this
      ensures View() == RemoveAll(old(View()), old(ids))
      decreases false, 4
    {
      hide Remove, Near, Aside, Only;
      var todo := ids;
      var i := 0;
      while i < |todo|
        invariant i <= |todo| && failed
        invariant RemoveAll(View(), todo[i..]) == RemoveAll(old(View()), todo)
      {
        assert todo[i..][0] == todo[i] && todo[i..][1..] == todo[i + 1..];
        ghost var s := View();
        RemoveSession(todo[i]);
        assert View().failed by { RemoveKeepsFailed(s, todo[i]); }
        i := i + 1;
      }
      assert todo[i..] == [];
    }

    lemma RemoveKeepsFailed(s: State, id: int)
      requires s.failed
      ensures Remove(s, id).failed
    {
      hide Remove;
    }

    method Fail()
      modifies this
      ensures View() == FailEpoch(old(View()))
      decreases !failed, 1
    {
      hide Near, Aside, AfterLoss, RemoveAll, FailEpoch;
      ghost var s := View();
      if failed {
        FailedAlready(s);
        return;
      }
      FailIs(s);
      MarkFailed();
      hide Marked;
      RemoveEveryone();
      EndIt();
    }

    method MarkFailed()
      modifies this`radio, this`debt, this`failed
      ensures View() == Marked(old(View())) && failed
    {
      hide AfterLoss;
      PreserveRadioUncertainty();
      if up.active.Some? && !up.active.value.step.MaintenanceResult? && debt.None? {
        debt := up.active;
      }
      failed := true;
    }

    method EndIt()
      modifies this`up, this`actions
      ensures View() ==
              var r := old(View());
              r.(up := Upstream(None, map[], r.up.wire), actions := r.actions + [EndEpoch])
    {
      up := Upstream(None, map[], up.wire);
      actions := actions + [EndEpoch];
    }

    // ----- Output -----

    method EmitFrame(id: int, o: Out) returns (writeId: Option<int>)
      modifies this
      ensures View() == Emit(old(View()), id, o)
      ensures writeId == if HasRoom(old(View()), id) then Some(nextWrite) else None
    {
      hide Near, Aside, Only, Remove;
      if id !in sessions {
        assert Remove(View(), id) == View() by { RemoveNobody(View(), id); }
        return None;
      }
      if |sessions[id].writes| >= cfg.outputFrames {
        RemoveSession(id);
        return None;
      }
      nextWrite := nextWrite + 1;
      sessions := sessions[id := Written(sessions[id], nextWrite, now + cfg.writeTimeout, o)];
      actions := actions + [SendFrame(id, nextWrite, o.payload)];
      return Some(nextWrite);
    }

    lemma RemoveNobody(s: State, id: int)
      requires id !in s.sessions
      ensures Remove(s, id) == s
    {
    }

    method EmitHint(id: int)
      modifies this
      ensures View() == Hint(old(View()), id)
    {
      hide Near, Aside, Only, Remove;
      if id !in sessions || sessions[id].hint.Some? {
        return;
      }
      ghost var s := View();
      var w := EmitFrame(id, Out(WAITING, Notice));
      if w.Some? {
        assert id in sessions;
        sessions := sessions[id := sessions[id].(hint := w)];
      }
    }

    method NotifyAll()
      modifies this
      ensures View() == HintAll(old(View()), old(ids))
    {
      hide Hint, Near, Aside;
      var todo := ids;
      var i := 0;
      while i < |todo|
        invariant i <= |todo| && HintAll(View(), todo[i..]) == HintAll(old(View()), todo)
      {
        assert todo[i..][0] == todo[i] && todo[i..][1..] == todo[i + 1..];
        EmitHint(todo[i]);
        i := i + 1;
      }
      assert todo[i..] == [];
    }

    method BroadcastFrame(p: Bytes)
      modifies this
      ensures View() == Broadcast(old(View()), old(ids), p)
    {
      hide Emit, Near, Aside;
      var todo := ids;
      var i := 0;
      while i < |todo|
        invariant i <= |todo| && Broadcast(View(), todo[i..], p) == Broadcast(old(View()), todo, p)
      {
        assert todo[i..][0] == todo[i] && todo[i..][1..] == todo[i + 1..];
        var w := EmitFrame(todo[i], Out(p, Notice));
        i := i + 1;
      }
      assert todo[i..] == [];
    }

    // ----- Inboxes -----

    method DeliverItem(id: int, command: Bytes)
      requires id in sessions
      modifies this
      ensures View() == Deliver(old(View()), id, command)
    {
      hide Near, Aside, Only, Remove, Downgrade;
      var c := sessions[id];
      var inbox := if c.slot.None? then c.inbox else if c.slot.value in slots then slots[c.slot.value].queue else [];
      if inbox == [] || !cfg.table.responseShape(inbox[0]) {
        fault := true;
        return;
      }
      var w := EmitFrame(id, Out(Downgrade(inbox[0], c.target), Answer(command, FromInbox(inbox[0]))));
      if w.Some? {
        var c' := sessions[id];
        if c.slot.None? {
          sessions := sessions[id := Took(c', inbox[0]).(inbox := inbox[1..])];
        } else {
          sessions := sessions[id := Took(c', inbox[0])];
          slots := slots[c.slot.value := Take(slots[c.slot.value])];
        }
      }
    }

    method EnqueueMultiClient(id: int, p: Bytes)
      modifies this
      ensures View() == EnqueueMulti(old(View()), id, p)
    {
      hide Near, Aside, Only, Remove, Hint, Deliver;
      if id !in sessions {
        return;
      }
      var c := sessions[id];
      if |c.inbox| >= cfg.inboxEntries {
        RemoveSession(id);
        return;
      }
      sessions := sessions[id := Enqueued(c, p).(sync := None)];
      if c.sync.Some? {
        DeliverItem(id, c.sync.value.command);
      } else if c.inbox == [] {
        EmitHint(id);
      }
    }

    method EnqueueEverywhere(multi: seq<int>, p: Bytes)
      modifies this
      ensures View() == EnqueueAll(old(View()), multi, p)
    {
      hide EnqueueMulti, Near, Aside;
      var i := 0;
      while i < |multi|
        invariant i <= |multi| && EnqueueAll(View(), multi[i..], p) == EnqueueAll(old(View()), multi, p)
      {
        assert multi[i..][0] == multi[i] && multi[i..][1..] == multi[i + 1..];
        EnqueueMultiClient(multi[i], p);
        i := i + 1;
      }
      assert multi[i..] == [];
    }

    method OfferToSlot(d: int, p: Bytes)
      modifies this
      ensures View() == OfferSlot(old(View()), d, p)
    {
      hide Near, Aside, Only, Hint, Deliver, Enqueue, Discards;
      if d !in slots {
        return;
      }
      var was := slots[d];
      var discarded := Discards(was, cfg.offlineQueueSize);
      slots := slots[d := Enqueue(was, p, cfg.offlineQueueSize)];
      if discarded || was.attached.None? || was.attached.value !in sessions {
        return;
      }
      var id := was.attached.value;
      var c := sessions[id];
      if c.sync.Some? {
        sessions := sessions[id := c.(sync := None)];
        DeliverItem(id, c.sync.value.command);
      } else if was.queue == [] {
        EmitHint(id);
      }
    }

    method FanOutDedicated(p: Bytes)
      modifies this
      ensures View() == FanOut(old(View()), cfg.slotIds, p)
    {
      hide OfferSlot, Near, Aside;
      var ds := cfg.slotIds;
      var i := 0;
      while i < |ds|
        invariant i <= |ds| && FanOut(View(), ds[i..], p) == FanOut(old(View()), ds, p)
      {
        assert ds[i..][0] == ds[i] && ds[i..][1..] == ds[i + 1..];
        OfferToSlot(ds[i], p);
        i := i + 1;
      }
      assert ds[i..] == [];
    }

    /** The live multi-client sessions, in table order. */
    method SelectMulti() returns (multi: seq<int>)
      ensures multi == MultiIds(View(), ids)
    {
      multi := [];
      var i := |ids|;
      while i > 0
        invariant 0 <= i <= |ids| && multi == MultiIds(View(), ids[i..])
      {
        i := i - 1;
        assert ids[i..][0] == ids[i] && ids[i..][1..] == ids[i + 1..];
        if ids[i] in sessions && sessions[ids[i]].slot.None? {
          multi := [ids[i]] + multi;
        }
      }
      assert ids[0..] == ids;
    }

    method SettleWaits(t: Txn)
      modifies this
      ensures View() == SettleEmpty(old(View()), old(ids), t)
    {
      hide Emit, Near, Aside, Only;
      var todo := ids;
      var i := 0;
      while i < |todo|
        invariant i <= |todo| && SettleEmpty(View(), todo[i..], t) == SettleEmpty(old(View()), todo, t)
      {
        assert todo[i..][0] == todo[i] && todo[i..][1..] == todo[i + 1..];
        var id := todo[i];
        if id in sessions && sessions[id].sync.Some? && sessions[id].sync.value.minimumPop <= t.popSeq {
          var c := sessions[id];
          sessions := sessions[id := c.(sync := None)];
          var w := EmitFrame(id, Out(NO_MORE, Answer(c.sync.value.command, Empty(c.sync.value.registered, t.born))));
        }
        i := i + 1;
      }
      assert todo[i..] == [];
    }

    method AnyoneWaits() returns (waits: bool)
      ensures waits == AnySync(View())
    {
      waits := exists id | id in sessions :: sessions[id].sync.Some?;
    }

    method HandOut(t: Txn, p: Bytes)
      modifies this
      ensures View() == Spread(old(View()), t, p)
    {
      hide FanOut, EnqueueAll, MultiIds, Near, Aside, Onward, Orderly;
      FanOutDedicated(p);
      var multi := SelectMulti();
      if multi == [] && t.hadMulti {
        orphan := Some(p);
      } else {
        EnqueueEverywhere(multi, p);
      }
    }

    /** An empty physical inbox: a newer notification or sync must survive it. */
    method HandleEmpty(t: Txn)
      modifies this
      ensures View() == PopEmpty(old(View()), t)
    {
      hide SettleEmpty, Spread, AnySync, Near, Aside, Onward, Orderly;
      SettleWaits(t);
      var waits := AnyoneWaits();
      var more := (drain.generation > t.generation || waits) && sessions != map[];
      drain := drain.(requested := more, authorized := more);
    }

    /** An item that is kept: remembered, and handed out. */
    method KeepItem(t: Txn, p: Bytes)
      requires Opcode(p) != RESP_NO_MORE_MESSAGES && !(cfg.deduplicate && Dedup.Duplicate(radio.seen, p))
      modifies this
      ensures View() == PopResult(old(View()), t, p)
    {
      hide SettleEmpty, Spread, AnySync, Near, Aside, Onward, Orderly, Dedup.Duplicate, Dedup.Remember;
      radio := radio.(seen := if cfg.deduplicate then Dedup.Remember(radio.seen, p) else radio.seen,
                      heard := radio.heard + [p]);
      pops := pops + [p];
      HandOut(t, p);
      drain := drain.(requested := drain.authorized && sessions != map[]);
    }

    method HandlePop(t: Txn, p: Bytes)
      modifies this
      ensures View() == PopResult(old(View()), t, p)
    {
      hide SettleEmpty, Spread, AnySync, Near, Aside, Onward, Orderly, Dedup.Duplicate, Dedup.Remember;
      if Opcode(p) == RESP_NO_MORE_MESSAGES {
        HandleEmpty(t);
      } else if cfg.deduplicate && Dedup.Duplicate(radio.seen, p) {
        radio := radio.(heard := radio.heard + [p]);
        drain := drain.(requested := drain.authorized && sessions != map[]);
      } else {
        KeepItem(t, p);
      }
    }

    // ----- Scheduling -----

    method Reject(id: int, p: Bytes)
      requires id in sessions && sessions[id].commands != []
      modifies this
      ensures View() == AnswerHead(old(View()), id, p)
    {
      hide Emit, Near, Aside, Only;
      var c := sessions[id];
      sessions := sessions[id := Shift(c)];
      var w := EmitFrame(id, Out(p, Answer(c.commands[0].payload, Local)));
    }

    /** A sync against an empty inbox waits for the next pop, and authorizes it. */
    method RegisterSync(id: int)
      requires id in sessions && sessions[id].commands != []
      modifies this`sessions, this`drain
      ensures View() == Register(old(View()), id)
    {
      hide Near, Aside, Only;
      var c := sessions[id];
      var sync := PendingSync(drain.popSeq + 1, now + cfg.syncTimeout, c.commands[0].payload, |up.wire|);
      sessions := sessions[id := Shift(c).(sync := Some(sync))];
      drain := drain.(requested := true, authorized := true, generation := drain.generation + 1);
    }

    method ChangeScope(id: int)
      requires id in sessions && sessions[id].commands != []
      modifies this
      ensures View() == AnswerRescope(old(View()), id)
    {
      hide Emit, Near, Aside, Only;
      var c := sessions[id];
      var q := c.commands[0].payload;
      sessions := sessions[id := Shift(c).(scope := q)];
      var w := EmitFrame(id, Out(OK, Answer(q, Local)));
    }

    method DeliverToHead(id: int)
      requires id in sessions && sessions[id].commands != []
      modifies this
      ensures View() == DeliverHead(old(View()), id)
    {
      hide Deliver, Near, Aside, Only;
      var c := sessions[id];
      sessions := sessions[id := Shift(c)];
      DeliverItem(id, c.commands[0].payload);
    }

    method DecideHead(id: int)
      requires id in sessions && sessions[id].commands != []
      modifies this
      ensures View() == LocalHead(old(View()), id)
    {
      hide AnswerHead, AnswerRescope, Register, DeliverHead, Near, Aside, Only, Decide;
      var c := sessions[id];
      match Decide(cfg, c.commands[0], now)
      case Forward =>
      case Refuse(p) => Reject(id, p);
      case Rescope => ChangeScope(id);
      case Sync =>
        var inbox := if c.slot.None? then c.inbox else if c.slot.value in slots then slots[c.slot.value].queue else [];
        if inbox == [] {
          RegisterSync(id);
        } else {
          DeliverToHead(id);
        }
    }

    /** Local heads of one session, until one must go upstream. */
    method DecideHeads(id: int)
      requires id in sessions
      modifies this
      ensures View() == LocalHeads(old(View()), id, |old(sessions)[id].commands|)
    {
      hide LocalHead, Decide, Near, Aside, Only;
      ghost var n := |sessions[id].commands|;
      while id in sessions && sessions[id].sync.None? && sessions[id].commands != []
            && !Decide(cfg, sessions[id].commands[0], now).Forward?
        invariant 0 <= n && (id in sessions ==> n == |sessions[id].commands|)
        invariant LocalHeads(View(), id, n) == LocalHeads(old(View()), id, |old(sessions)[id].commands|)
        decreases n
      {
        HeadLeaves(View(), id);
        DecideHead(id);
        n := n - 1;
      }
    }

    method LocalRound()
      modifies this
      ensures View() == LocalPass(old(View()), old(ids))
    {
      hide LocalHeads, Near, Aside;
      var todo := ids;
      var i := 0;
      while i < |todo|
        invariant i <= |todo| && LocalPass(View(), todo[i..]) == LocalPass(old(View()), todo)
      {
        assert todo[i..][0] == todo[i] && todo[i..][1..] == todo[i + 1..];
        var id := todo[i];
        if id in sessions && sessions[id].sync.None? && !(up.active.Some? && up.active.value.owner == id) {
          DecideHeads(id);
        }
        i := i + 1;
      }
      assert todo[i..] == [];
    }

    method SendUpstream(t: Txn, step: Step, frame: Bytes, kind: JobKind)
      modifies this`nextWrite, this`up, this`actions
      ensures View() == SendStep(old(View()), t, step, frame, kind)
    {
      hide Onward, Orderly;
      var w := nextWrite + 1;
      nextWrite := w;
      up := Upstream(Some(t.(step := step, write := Some(w))), up.writes[w := now + cfg.writeTimeout],
                     up.wire + [Asked(frame, Job(kind, t.owner, t.command, t.want))]);
      actions := actions + [SendFrame(0, w, frame)];
    }

    method SendClientCommand(t: Txn)
      modifies this`nextWrite, this`up, this`actions
      ensures View() == SendCommand(old(View()), t)
    {
      hide Onward, Orderly, SendStep;
      SendUpstream(t, Command, Forwarded(t.command), if t.owner == 0 then Pop else ClientCommand);
    }

    method AnyMulti() returns (some: bool)
      ensures some == HasMulti(View())
    {
      some := exists id | id in sessions :: sessions[id].slot.None?;
    }

    method NewTransaction(owner: int, c: Bytes, d: Descriptor) returns (t: Txn)
      ensures t == NewTxn(View(), owner, c, d)
    {
      hide HasMulti;
      var multi := AnyMulti();
      var want := if owner in sessions && d.scopeSend then sessions[owner].scope else DEFAULT_SCOPE;
      t := Txn(owner, c, d, now, now, false, if owner == 0 then drain.popSeq else 0,
               if owner == 0 then drain.generation else 0,
               owner == 0 && multi, Command, want != DEFAULT_SCOPE, d.maintenance, None, None, want, |up.wire|);
    }

    method Start(owner: int, c: Bytes)
      modifies this`nextWrite, this`up, this`actions, this`fault
      ensures View() == Dispatch(old(View()), owner, c)
    {
      hide Onward, Orderly, SendStep, NewTxn;
      var d := cfg.table.descriptor(c);
      if d.None? {
        fault := true;
        return;
      }
      var t := NewTransaction(owner, c, d.value);
      if t.scoped {
        SendUpstream(t, Setup, t.want, SetScope);
      } else {
        SendClientCommand(t);
      }
    }

    /** Key import and factory reset need the only client and an idle radio. */
    method AdmitMaintenance() returns (refusal: Option<Byte>)
      modifies this`radio, this`signing
      ensures var asked := Inquire(old(radio), now);
              var remote := Expire(asked.remote, now);
              var g := ExpireSigning(old(signing), now, cfg.signingTimeout);
              (radio, signing, refusal) ==
              if |sessions| != 1 then (old(radio), old(signing), Some(ERR_BAD_STATE))
              else if AckRing.Quarantined(old(radio).air, now) then (asked, old(signing), Some(ERR_BAD_STATE))
              else if remote.Held? || AckRing.AnyPending(asked.air.ring, now) then
                (asked.(remote := remote), old(signing), Some(ERR_BAD_STATE))
              else (asked.(remote := remote), g, if g.Busy? then Some(ERR_BAD_STATE) else None)
    {
      hide AckRing.Quarantined, AckRing.AnyPending, ExpireSigning, Expire, Inquire;
      if |sessions| != 1 {
        return Some(ERR_BAD_STATE);
      }
      var shut := AckRing.Quarantined(radio.air, now);
      radio := Inquire(radio, now);
      if shut {
        return Some(ERR_BAD_STATE);
      }
      radio := radio.(remote := Expire(radio.remote, now));
      if radio.remote.Held? || AckRing.AnyPending(radio.air.ring, now) {
        return Some(ERR_BAD_STATE);
      }
      signing := ExpireSigning(signing, now, cfg.signingTimeout);
      return if signing.Busy? then Some(ERR_BAD_STATE) else None;
    }

    /** A plain direct message needs the next acknowledgement slot, outside quarantine. */
    method AdmitDm() returns (refusal: Option<Byte>)
      modifies this`radio
      ensures var asked := Inquire(old(radio), now);
              (radio, refusal) ==
              if AckRing.Quarantined(old(radio).air, now) || !AckRing.FreeSlot(asked.air.ring, now) then
                (asked, Some(ERR_BAD_STATE))
              else (asked.(log := asked.log + [AckRing.Launched(now)]), None)
    {
      hide AckRing.Quarantined, AckRing.FreeSlot, Inquire;
      var shut := AckRing.Quarantined(radio.air, now);
      radio := Inquire(radio, now);
      if shut || !AckRing.FreeSlot(radio.air.ring, now) {
        return Some(ERR_BAD_STATE);
      }
      radio := radio.(log := radio.log + [AckRing.Launched(now)]);
      return None;
    }

    /** A remote request needs the shared lease, outside quarantine. */
    method AdmitRemote(owner: int, c: Bytes) returns (refusal: Option<Byte>, unfit: bool)
      modifies this`radio
      ensures var asked := Inquire(old(radio), now);
              var reserved := Reserve(asked.remote, owner, c, now);
              (radio, refusal, unfit) ==
              if AckRing.Quarantined(old(radio).air, now) then (asked, Some(ERR_BAD_STATE), false)
              else (asked.(remote := reserved.0),
                    if reserved.1.Conflict? then Some(ERR_BAD_STATE) else None, reserved.1.Unfit?)
    {
      hide AckRing.Quarantined, Inquire, Reserve;
      var shut := AckRing.Quarantined(radio.air, now);
      radio := Inquire(radio, now);
      if shut {
        return Some(ERR_BAD_STATE), false;
      }
      var reserved := Reserve(radio.remote, owner, c, now);
      radio := radio.(remote := reserved.0);
      return if reserved.1.Conflict? then Some(ERR_BAD_STATE) else None, reserved.1.Unfit?;
    }

    /** Shared-resource admission; the leases are updated by asking. */
    method AdmitCommand(owner: int, c: Bytes) returns (refusal: Option<Byte>)
      modifies this`radio, this`signing, this`fault
      ensures var v := Admission(old(View()), owner, c);
              radio == v.radio && signing == v.signing && fault == (old(fault) || v.fault) && refusal == v.reason
    {
      hide AckRing.Quarantined, AckRing.FreeSlot, AckRing.AnyPending, Reserve, StartSigning, BeginData, BeginFinish,
           ExpireSigning, Expire, Inquire;
      refusal := None;
      var known := cfg.table.descriptor(c);
      if known.None? || c == [] {
        fault := true;
      } else if known.value.maintenance && c[0] != CMD_REBOOT {
        refusal := AdmitMaintenance();
      } else if PlainDm(c) {
        refusal := AdmitDm();
      } else if known.value.remoteLease {
        var unfit: bool;
        refusal, unfit := AdmitRemote(owner, c);
        fault := fault || unfit;
      } else if c[0] == CMD_SIGN_START {
        var started := StartSigning(signing, owner, now, cfg.signingTimeout);
        signing := started.0;
        refusal := if started.1 then None else Some(ERR_BAD_STATE);
      } else if c[0] == CMD_SIGN_DATA {
        var begun := BeginData(signing, owner, c, now, cfg.signingTimeout);
        signing := begun.0;
        fault := fault || |c| < 2;
        refusal := begun.1;
      } else if c[0] == CMD_SIGN_FINISH {
        var begun := BeginFinish(signing, owner, now, cfg.signingTimeout);
        signing := begun.0;
        refusal := begun.1;
      }
    }

    method LaunchHead(id: int)
      requires id in sessions && sessions[id].commands != []
      modifies this
      ensures View() == Launch(old(View()), id)
    {
      hide Onward, Orderly, Dispatch, Admission, AnswerHead, Near;
      var c := sessions[id];
      var q := c.commands[0].payload;
      var refusal := AdmitCommand(id, q);
      if refusal.Some? {
        Reject(id, Err(refusal.value));
      } else {
        sessions := sessions[id := Shift(c)];
        Start(id, q);
      }
    }

    method ServeTurn(id: int)
      modifies this
      ensures View() == Serve(old(View()), id)
    {
      hide Onward, Orderly, Dispatch, Launch;
      if id == 0 {
        if drain.requested && sessions != map[] {
          drain := drain.(requested := false, popSeq := drain.popSeq + 1);
          Start(0, POP);
        }
      } else if id in sessions && sessions[id].sync.None? && sessions[id].commands != [] {
        LaunchHead(id);
      }
    }

    /** The round-robin over clients and the inbox consumer, up to the first dispatch. */
    method RotateOrder()
      requires up.active.None?
      modifies this
      ensures View() == Rotate(old(View()), |old(order)|)
    {
      hide Serve, Onward, Orderly;
      var n: nat := |order|;
      ghost var size: nat := |order|;
      while n > 0 && order != []
        invariant up.active.None? && Rotate(View(), n) == Rotate(old(View()), size)
      {
        var id := order[0];
        ghost var s := View();
        order := order[1..] + [id];
        assert View() == Turn(s);
        ServeTurn(id);
        if up.active.Some? {
          return;
        }
        n := n - 1;
      }
    }

    method RunSchedule(at: Time)
      modifies this
      ensures View() == Schedule(old(View()), at)
    {
      hide LocalPass, Rotate, Near, Aside, Onward;
      if failed {
        return;
      }
      now := at;
      if up.active.Some? && up.active.value.maintenance {
        return;
      }
      LocalRound();
      if up.active.Some? {
        return;
      }
      RotateOrder();
    }

    // ----- Replies. `ok` is false where the source raises a protocol error -----

    /** SENT takes the next place of the acknowledgement ring, unless its token is zero. */
    method AcceptDm(p: Bytes)
      modifies this`radio, this`fault
      ensures var misfit := |p| != 10 || (U32(p, 2) != 0 && !AckRing.FreeSlot(old(radio).air.ring, now));
              && fault == (old(fault) || misfit)
              && radio == if misfit then old(radio)
                          else old(radio).(
                                 air := old(radio).air.(
                                   ring := AckRing.Insert(old(radio).air.ring, U32(p, 2),
                                                          RetainedDeadline(now, U32(p, 6)))),
                                 log := old(radio).log + [AckRing.Accepted(U32(p, 2), U32(p, 6), now)])
    {
      if |p| != 10 {
        fault := true;
        return;
      }
      var token := U32(p, 2);
      var ring := radio.air.ring;
      if token != 0 {
        if !AckRing.FreeSlot(ring, now) {
          fault := true;
          return;
        }
        if ring.next < |ring.slots| {
          var entry := AckRing.Entry(token, RetainedDeadline(now, U32(p, 6)), false);
          ring := AckRing.Ring(ring.slots[ring.next := Some(entry)], (ring.next + 1) % AckRing.CAPACITY);
        }
      }
      radio := radio.(air := radio.air.(ring := ring), log := radio.log + [AckRing.Accepted(token, U32(p, 6), now)]);
    }

    /** SENT turns the tentative reservation into one that waits for its result. */
    method AcceptReservation(p: Bytes)
      requires Opcode(p) == RESP_SENT
      modifies this`radio, this`fault
      ensures var accepted := AcceptRemote(old(radio).remote, p, now);
              && fault == (old(fault) || accepted.None?)
              && radio == if accepted.Some? then old(radio).(remote := accepted.value) else old(radio)
    {
      var r := radio.remote;
      if r.Vacant? || !r.tentative || |p| != 10 {
        fault := true;
        return;
      }
      if !r.kind.Trace? {
        r := r.(tag := U32(p, 2));
      }
      radio := radio.(remote := r.(deadline := Some(RetainedDeadline(now, U32(p, 6))), tentative := false));
    }

    /** What a signing reply leads to; none where the lease raises. */
    method AcceptSigning(g: Option<Signing>)
      modifies this`signing, this`fault
      ensures signing == (if g.Some? then g.value else old(signing)) && fault == (old(fault) || g.None?)
    {
      if g.None? {
        fault := true;
      } else {
        signing := g.value;
      }
    }

    method Accept(t: Txn, p: Bytes)
      modifies this`radio, this`signing, this`fault
      ensures View() == RecordAcceptance(old(View()), t, p)
    {
      hide Onward, Orderly, Listens, Wakeful, AckRing.FreeSlot, AckRing.Insert, AcceptRemote, AcceptStart, DataResponse,
           FinishResponse, RetainedDeadline, U32;
      var c := t.command;
      if PlainDm(c) {
        if Opcode(p) == RESP_SENT {
          AcceptDm(p);
        } else {
          radio := radio.(log := radio.log + [AckRing.Refused]);
        }
      } else if t.desc.remoteLease {
        if Opcode(p) == RESP_SENT {
          AcceptReservation(p);
        } else {
          radio := radio.(remote := Vacant);
        }
      } else if Opcode(c) == CMD_SIGN_START {
        if Opcode(p) == RESP_SIGN_START {
          AcceptSigning(AcceptStart(signing, p, now));
        } else {
          signing := Free;
        }
      } else if Opcode(c) == CMD_SIGN_DATA {
        AcceptSigning(DataResponse(signing, p, now));
      } else if Opcode(c) == CMD_SIGN_FINISH {
        AcceptSigning(FinishResponse(signing, p, now));
      }
    }

    /** A refused scope change ends the command. */
    method RefuseScope(t: Txn, p: Bytes, k: nat)
      modifies this
      ensures View() ==
              Finish(Emit(old(View()).(radio := Abandon(old(radio), t)), t.owner, Out(p, Answer(t.command, Reply(k)))),
                               t.(progress := old(now)))
    {
      hide Onward, Orderly, Finish, Emit, Abandon, Near;
      var t' := t.(progress := now);
      radio := Abandon(radio, t);
      var w := EmitFrame(t.owner, Out(p, Answer(t.command, Reply(k))));
      FinishTransaction(t');
    }

    method HandleScope(t: Txn, p: Bytes) returns (ok: bool)
      requires up.active == Some(t) && (t.step.Setup? || t.step.Restore?)
      modifies this
      ensures ok ==> View() == ScopeResponse(old(View()), t, p)
      ensures !ok ==> FailEpoch(View()) == ScopeResponse(old(View()), t, p)
    {
      hide Onward, Orderly, FailEpoch, Finish, Emit, SendCommand, Abandon, Near;
      if !IsScopeReply(p) {
        return false;
      }
      ghost var s := View();
      var k := |up.wire|;
      var t' := t.(progress := now);
      up := Upstream(Some(t'), up.writes, up.wire + [Got(p)]);
      assert View() == SetActive(Heard(s, p), t');
      ok := true;
      if t.step.Setup? {
        if p[0] == RESP_ERR {
          RefuseScope(t, p, k);
        } else {
          SendClientCommand(t');
        }
      } else if p[0] != RESP_OK {
        ok := false;
      } else {
        FinishTransaction(t');
      }
    }

    method Complete(t: Txn, p: Bytes, emitted: Option<int>)
      modifies this
      ensures View() == CompleteCommand(old(View()), t, p, emitted)
    {
      hide Onward, Orderly, Finish, SendStep, RecordAcceptance;
      Accept(t, p);
      if t.scoped {
        SendUpstream(t, Restore, DEFAULT_SCOPE, ResetScope);
      } else if t.maintenance && emitted.Some? {
        up := up.(active := Some(t.(step := MaintenanceResult, resultWrite := emitted)));
      } else {
        FinishTransaction(t);
      }
    }

    /** The reply is noted, and the target version a client has negotiated. */
    method NoteReply(t: Txn, p: Bytes)
      requires up.active == Some(t)
      modifies this`up, this`sessions
      ensures View() == Relaying(old(View()), t, p)
    {
      hide Onward, Orderly;
      up := Upstream(Some(Progressed(t, p, now)), up.writes, up.wire + [Got(p)]);
      if t.owner in sessions && |t.command| >= 2 && t.command[0] == CMD_DEVICE_QUERY && Opcode(p) == RESP_DEVICE_INFO {
        sessions := sessions[t.owner := sessions[t.owner].(target := t.command[1])];
      }
    }

    method Relay(t: Txn, p: Bytes)
      requires up.active == Some(t)
      modifies this
      ensures View() == ClientReply(old(View()), t, p)
    {
      hide Onward, Orderly, Emit, CompleteCommand, Completes, Visible, Near, Relaying, Progressed;
      var t' := Progressed(t, p, now);
      var o := Out(Visible(p),
                   if Completes(t.desc, p) then Answer(t.command, Reply(|up.wire|)) else Part(Reply(|up.wire|)));
      NoteReply(t, p);
      var w := EmitFrame(t.owner, o);
      if Completes(t.desc, p) {
        Complete(t', p, w);
      }
    }

    method HandleCommandReply(t: Txn, p: Bytes) returns (ok: bool)
      requires up.active == Some(t)
      modifies this
      ensures ok ==> View() == CommandResponse(old(View()), t, p)
      ensures !ok ==> FailEpoch(View()) == CommandResponse(old(View()), t, p)
    {
      hide Onward, Orderly, FailEpoch, ClientReply, PopResult, ValidResponse;
      if !ValidResponse(cfg.table, t.desc, p, t.command, t.contacts) {
        return false;
      }
      assert p != [] by { ValidIsSome(cfg.table, t.desc, p, t.command, t.contacts); }
      if t.owner == 0 {
        up := up.(wire := up.wire + [Got(p)]);
        if p[0] == RESP_ERR {
          return false;
        }
        up := up.(active := None);
        HandlePop(t, p);
        return true;
      }
      Relay(t, p);
      return true;
    }

    lemma ValidIsSome(table: Table, d: Descriptor, p: Bytes, c: Bytes, started: bool)
      requires ValidResponse(table, d, p, c, started)
      ensures p != []
    {
    }

    /** A reply proves the write of the current step complete. */
    method NoteWritten()
      requires up.active.Some?
      modifies this`up
      ensures View() == SettleWrite(old(View()))
    {
      hide Onward, Orderly;
      var t := up.active.value;
      if t.write.Some? {
        var w := t.write.value;
        if t.step.Command? && t.desc.grammar.Contacts? && !t.contacts {
          t := t.(started := now);
        }
        up := up.(active := Some(t.(write := None)), writes := up.writes - {w});
      }
    }

    method HandleReply(p: Bytes) returns (ok: bool)
      modifies this
      ensures ok ==> View() == TxnResponse(old(View()), p)
      ensures !ok ==> FailEpoch(View()) == TxnResponse(old(View()), p)
    {
      hide Onward, Orderly, FailEpoch, ScopeResponse, CommandResponse, SettleWrite;
      if up.active.None? {
        return false;
      }
      StillActive(View());
      NoteWritten();
      var t := up.active.value;
      match t.step
      case Setup => ok := HandleScope(t, p);
      case Restore => ok := HandleScope(t, p);
      case MaintenanceResult => ok := false;
      case Command => ok := HandleCommandReply(t, p);
    }

    lemma StillActive(s: State)
      requires s.up.active.Some?
      ensures SettleWrite(s).up.active.Some?
    {
    }

    // ----- Pushes -----

    method HandleResult(p: Bytes, at: Time)
      modifies this
      ensures View() == RemoteResult(old(View()), p, at)
    {
      hide Onward, Orderly, Emit, MatchPush, Near;
      var m := MatchPush(radio.remote, p, at);
      radio := radio.(remote := m.0);
      fault := fault || m.1.Unreadable?;
      if m.1.Matched? && m.1.owner.Some? {
        var w := EmitFrame(m.1.owner.value, Out(p, Result(m.1.command, m.1.tag)));
      }
    }

    method HandlePush(p: Bytes, at: Time) returns (ok: bool)
      modifies this
      ensures ok ==> View() == Push(old(View()), p, at)
      ensures !ok ==> FailEpoch(View()) == Push(old(View()), p, at)
      ensures !ok ==> old(up.active).Some?
    {
      hide Onward, Orderly, FailEpoch, HintAll, Broadcast, TxnResponse, RemoteResult, AckRing.Settle, Near;
      ok := true;
      if Opcode(p) == PUSH_MSG_WAITING {
        drain := drain.(generation := drain.generation + 1, requested := drain.requested || drain.authorized);
        NotifyAll();
      } else if Opcode(p) == PUSH_SEND_CONFIRMED {
        if |p| != 9 {
          fault := true;
          return;
        }
        radio := radio.(air := radio.air.(ring := AckRing.Settle(radio.air.ring, U32(p, 1))),
                        log := radio.log + [AckRing.Confirmed(U32(p, 1))]);
        BroadcastFrame(p);
      } else if Opcode(p) in RESULT_PUSHES {
        if Opcode(p) == PUSH_TELEMETRY_RESPONSE && |p| >= 8 && |cfg.selfKey| >= 6 && up.active.Some?
           && Opcode(up.active.value.command) == CMD_SEND_TELEMETRY_REQ && |up.active.value.command| == 4
           && p[2..8] == cfg.selfKey[..6] {
          ok := HandleReply(p);
        } else {
          HandleResult(p, at);
        }
      } else {
        BroadcastFrame(p);
      }
    }

    // ----- Deadlines -----

    method AnyLate(writes: map<int, Time>, at: Time) returns (late: bool)
      ensures late == AnyOverdue(writes, at)
    {
      late := exists w | w in writes :: at >= writes[w];
    }

    /** True while the active transaction is within its deadlines; otherwise the epoch has failed. */
    method CheckActiveDeadline(at: Time) returns (inTime: bool)
      modifies this
      ensures inTime == !ResponseOverdue(old(View()), at)
      ensures View() == if inTime then old(View()) else OverdueFail(old(View()))
    {
      hide FailEpoch;
      if up.active.Some? {
        var t := up.active.value;
        if t.step.MaintenanceResult? || t.write.Some? {
          return true;
        }
        if at - t.progress >= cfg.responseTimeout
           || (t.desc.grammar.Contacts? && at - t.started >= cfg.contactsTimeout) {
          debt := up.active;
          Fail();
          return false;
        }
      }
      return true;
    }

    method ExpireClients()
      modifies this
      ensures View() == ExpireSessions(old(View()), old(ids))
    {
      hide Emit, Remove, AnyOverdue, Near, Aside, Only;
      var todo := ids;
      var i := 0;
      while i < |todo|
        invariant i <= |todo| && ExpireSessions(View(), todo[i..]) == ExpireSessions(old(View()), todo)
      {
        assert todo[i..][0] == todo[i] && todo[i..][1..] == todo[i + 1..];
        var id := todo[i];
        if id in sessions {
          var c := sessions[id];
          var late := AnyLate(c.writes, now);
          if late {
            RemoveSession(id);
          } else if c.sync.Some? && now >= c.sync.value.deadline {
            sessions := sessions[id := c.(sync := None)];
            var w := EmitFrame(id, Out(Err(ERR_BAD_STATE), Answer(c.sync.value.command, Local)));
          }
        }
        i := i + 1;
      }
      assert todo[i..] == [];
    }

    // ----- Events -----

    lemma RemoveKeepsPops(s: State, id: int)
      ensures Remove(s, id).pops == s.pops
    {
      hide Remove;
    }

    /** A port-identified client takes over its slot. */
    method TakeSlot(d: int, id: int)
      requires d in slots
      modifies this
      ensures var s1 := if old(slots)[d].attached.Some? then Remove(old(View()), old(slots)[d].attached.value)
                        else old(View());
              View() == if d in s1.slots then s1.(slots := s1.slots[d := s1.slots[d].(attached := Some(id))]) else s1
    {
      hide Remove;
      if slots[d].attached.Some? {
        RemoveSession(slots[d].attached.value);
      }
      if d in slots {
        slots := slots[d := slots[d].(attached := Some(id))];
      }
    }

    /** The new session, handed the orphan if it is a multi-client one. */
    method Join(id: int, slot: Option<int>)
      modifies this
      ensures var s := old(View());
              var handed := if slot.None? && s.orphan.Some? then [s.orphan.value] else [];
              var joined := if slot.Some? && slot.value in s.slots then |s.slots[slot.value].taken| else |s.pops|;
              var c := NewSession(slot, joined, handed);
              var s3 := s.(sessions := s.sessions[id := c], ids := s.ids + [id], order := s.order + [id],
                           orphan := if slot.None? then None else s.orphan);
              View() == if handed != [] then EnqueueMulti(s3, id, handed[0]) else s3
    {
      hide EnqueueMulti, Near, Aside, Only;
      var handed := if slot.None? && orphan.Some? then [orphan.value] else [];
      var joined := if slot.Some? && slot.value in slots then |slots[slot.value].taken| else |pops|;
      sessions := sessions[id := NewSession(slot, joined, handed)];
      ids, order := ids + [id], order + [id];
      if slot.None? {
        orphan := None;
      }
      if handed != [] {
        EnqueueMultiClient(id, handed[0]);
      }
    }

    method Greet(id: int)
      modifies this
      ensures View() == if id in old(sessions) then Hint(old(View()), id) else old(View()).(fault := true)
    {
      hide Hint;
      if id !in sessions {
        fault := true;
      } else {
        EmitHint(id);
      }
    }

    method Admit(id: int, slot: Option<int>, at: Time)
      modifies this
      ensures View() == OnAdmit(old(View()), id, slot, at)
    {
      hide Remove, EnqueueMulti, Hint, Schedule, Near, Aside, Only;
      now := at;
      if failed || (up.active.Some? && up.active.value.maintenance) {
        actions := actions + [CloseSession(id)];
        return;
      }
      if slot.Some? && slot.value !in slots {
        fault := true;
        return;
      }
      if slot.Some? {
        if slots[slot.value].attached.Some? {
          RemoveKeepsPops(View(), slots[slot.value].attached.value);
        }
        TakeSlot(slot.value, id);
      }
      Join(id, slot);
      Greet(id);
      RunSchedule(at);
    }

    method ClientFrame(id: int, p: Bytes, at: Time)
      modifies this
      ensures View() == OnClientFrame(old(View()), id, p, at)
    {
      hide Remove, Schedule;
      now := at;
      if failed || id !in sessions {
        return;
      }
      var c := sessions[id];
      if |c.commands| + (if c.sync.Some? then 1 else 0)
         + (if up.active.Some? && up.active.value.owner == id then 1 else 0)
         >= cfg.commandLimit {
        RemoveSession(id);
      } else {
        sessions := sessions[id := c.(commands := c.commands + [Queued(p, at)],
                                      log := c.log.(submitted := c.log.submitted + [p]))];
      }
      RunSchedule(at);
    }

    method ClientClosed(id: int, at: Time)
      modifies this
      ensures View() == OnClientClosed(old(View()), id, at)
    {
      hide Remove, Schedule;
      now := at;
      RemoveSession(id);
      RunSchedule(at);
    }

    method UpstreamWriteDone(w: int, at: Time)
      modifies this`up
      ensures View() == UpstreamWritten(old(View()), w, at)
    {
      hide Onward, Orderly;
      up := up.(writes := up.writes - {w});
      if up.active.Some? && up.active.value.write == Some(w) {
        var t := up.active.value.(write := None, progress := at);
        if t.step.Command? && t.desc.grammar.Contacts? && !t.contacts {
          t := t.(started := at);
        }
        up := up.(active := Some(t));
      }
    }

    method ClientWriteDone(id: int, w: int)
      requires id in sessions
      modifies this
      ensures View() == ClientWritten(old(View()), id, w)
    {
      hide Finish, Onward, Orderly;
      var c := sessions[id];
      sessions := sessions[id := c.(writes := c.writes - {w}, hint := if c.hint == Some(w) then None else c.hint)];
      if up.active.Some? && up.active.value.maintenance && up.active.value.step.MaintenanceResult?
         && up.active.value.owner == id
         && up.active.value.resultWrite == Some(w) {
        FinishTransaction(up.active.value);
      }
    }

    method WriteCompleted(id: int, ofEpoch: int, w: int, at: Time)
      modifies this
      ensures View() == OnWriteDone(old(View()), id, ofEpoch, w, at)
    {
      hide Schedule, UpstreamWritten, ClientWritten;
      if ofEpoch != epoch || failed {
        return;
      }
      if id == 0 {
        UpstreamWriteDone(w, at);
      } else if id in sessions {
        ClientWriteDone(id, w);
      }
      RunSchedule(at);
    }

    method WriteFailedAt(id: int, ofEpoch: int, at: Time)
      modifies this
      ensures View() == OnWriteFailed(old(View()), id, ofEpoch, at)
    {
      hide Schedule, Remove, FailEpoch;
      if ofEpoch != epoch || failed {
        return;
      }
      now := at;
      if id == 0 {
        Fail();
      } else {
        RemoveSession(id);
        RunSchedule(at);
      }
    }

    method UpstreamFrame(p: Bytes, at: Time)
      modifies this
      ensures View() == OnUpstreamFrame(old(View()), p, at)
    {
      hide Schedule, FailEpoch, OverdueFail, Push, TxnResponse, ResponseOverdue;
      now := at;
      if failed {
        return;
      }
      var inTime := CheckActiveDeadline(at);
      if !inTime {
        return;
      }
      if !cfg.table.responseShape(p) {
        Fail();
        return;
      }
      var ok: bool;
      if IsPush(p) {
        ok := HandlePush(p, at);
      } else {
        ok := HandleReply(p);
      }
      if ok {
        RunSchedule(at);
      } else {
        FailedIsOver(View(), at);
        Fail();
      }
    }

    lemma FailedIsOver(s: State, at: Time)
      ensures Schedule(FailEpoch(s), at) == FailEpoch(s)
    {
      hide LocalPass, Rotate;
      FailsForGood(s);
      hide FailEpoch;
    }

    lemma FailsForGood(s: State)
      ensures FailEpoch(s).failed
    {
      hide Orderly;
    }

    method ExpireShared(at: Time)
      modifies this`radio, this`signing
      ensures View() == ExpireLeases(old(View()), at)
    {
      hide Onward, Orderly;
      radio := radio.(remote := Expire(radio.remote, at));
      if !(up.active.Some? && up.active.value.desc.signing) {
        signing := ExpireSigning(signing, at, cfg.signingTimeout);
      }
    }

    /** Polling only reminds clients to sync. */
    method Poll(at: Time)
      modifies this
      ensures View() == if old(sessions) != map[] && at - old(lastPoll) >= cfg.pollInterval
                        then HintAll(old(View()).(lastPoll := at), old(ids)) else old(View())
    {
      hide HintAll;
      if sessions != map[] && at - lastPoll >= cfg.pollInterval {
        lastPoll := at;
        NotifyAll();
      }
    }

    method Tick(at: Time)
      modifies this
      ensures View() == OnTick(old(View()), at)
    {
      hide Schedule, FailEpoch, OverdueFail, ResponseOverdue, AnyOverdue, ExpireSessions, ExpireLeases, HintAll, Onward,
           Orderly, Near, Aside;
      now := at;
      if failed {
        return;
      }
      var inTime := CheckActiveDeadline(at);
      if !inTime {
        return;
      }
      var late := AnyLate(up.writes, at);
      if late {
        Fail();
        return;
      }
      ExpireClients();
      ExpireShared(at);
      Poll(at);
      RunSchedule(at);
    }

    /** Where draining raises: a frame that cannot be the next one of the owed exchange. */
    predicate Misfit(t: Txn, p: Bytes)
      reads this
    {
      || !cfg.table.responseShape(p)
      || (!IsPush(p) && if t.step.Setup? || t.step.Restore? then !IsScopeReply(p)
                        else !ValidResponse(cfg.table, t.desc, p, t.command, t.contacts))
    }

    /** `clear` says that no reply is owed any more; `raised`, that the source raises an exception, and
        then nothing has changed. */
    method DrainUncertainFrame(p: Bytes, at: Time) returns (clear: bool, raised: bool)
      requires debt.Some? ==> failed && up.active.None?
      modifies this
      ensures View() == OnDrainFrame(old(View()), p, at)
      ensures raised <==> old(debt).Some? && old(Misfit(debt.value, p))
      ensures raised ==> View() == old(View())
      ensures clear <==> debt.None?
    {
      hide PopResult, Push, ValidResponse, Completes, FailEpoch, Onward, Orderly, Listens, Wakeful;
      if debt.None? {
        return true, false;
      }
      if !cfg.table.responseShape(p) {
        return false, true;
      }
      var t := debt.value;
      if IsPush(p) {
        ghost var s := View();
        var ok := HandlePush(p, at);
        PushKeepsDebt(s, p, at);
        return false, !ok;
      }
      if t.step.Setup? || t.step.Restore? {
        if !IsScopeReply(p) {
          return false, true;
        }
        up := up.(wire := up.wire + [Got(p)]);
        debt := None;
        return true, false;
      }
      if !ValidResponse(cfg.table, t.desc, p, t.command, t.contacts) {
        return false, true;
      }
      up := up.(wire := up.wire + [Got(p)]);
      if !Completes(t.desc, p) {
        debt := Some(t.(contacts := t.contacts || Opcode(p) == RESP_CONTACTS_START));
        return false, false;
      }
      debt := None;
      if t.owner == 0 && Opcode(p) != RESP_ERR {
        ghost var s := View();
        HandlePop(t, p);
        PopKeepsDebt(s, t, p);
      }
      return true, false;
    }
  }
}
