/** The results of physical inbox pops keep the invariant. */
module BrokerPops {
  import opened Wire
  import opened Protocol
  import opened Slots
  import opened Broker
  import opened BrokerInvariant
  import opened BrokerClients
  import opened BrokerInbox
  import Dedup

  // ----- Dedicated slots -----

  /** The dedicated session `id` waits on the empty queue of slot `d`. */
  ghost predicate WaitsAt(s: State, d: int, id: int) {
    && d in s.slots && s.slots[d].attached == Some(id) && id in s.sessions && s.sessions[id].slot == Some(d)
    && s.sessions[id].sync.Some? && s.slots[d].queue == [] && s.cfg.offlineQueueSize > 0
  }

  ghost function Arrived(s: State, d: int, p: Bytes): Slot
    requires d in s.slots
  {
    Enqueue(s.slots[d], p, s.cfg.offlineQueueSize)
  }

  lemma OfferIsDelivery(s: State, d: int, p: Bytes, id: int)
    requires WaitsAt(s, d, id)
    ensures Arrived(s, d, p).queue == [p] && Arrived(s, d, p).attached == Some(id)
    ensures OfferSlot(s, d, p) ==
            Deliver(Put(s.(slots := s.slots[d := Arrived(s, d, p)]), id, s.sessions[id].(sync := None)),
                                          id, s.sessions[id].sync.value.command)
  {
    hide Deliver, Hint, Aside, Only;
  }

  ghost function OfferOut(s: State, id: int, p: Bytes): Out
    requires id in s.sessions && s.sessions[id].sync.Some?
  {
    Out(Downgrade(p, s.sessions[id].target), Answer(s.sessions[id].sync.value.command, FromInbox(p)))
  }

  lemma OfferWithRoom(s: State, d: int, p: Bytes, id: int)
    requires WaitsAt(s, d, id) && s.cfg.table.responseShape(p) && HasRoom(s, id)
    ensures var c0 := s.sessions[id].(sync := None);
            var r := OfferSlot(s, d, p);
            r == Put(s, id, SlotConsumed(s, c0, OfferOut(s, id, p), p)).(
                   slots := s.slots[d := Take(Arrived(s, d, p))], nextWrite := r.nextWrite, actions := r.actions)
  {
    hide Deliver, Aside, Only, Downgrade, OfferSlot, Enqueue, Take;
    OfferIsDelivery(s, d, p, id);
    var slot := Arrived(s, d, p);
    var c0 := s.sessions[id].(sync := None);
    var s0 := Put(s.(slots := s.slots[d := slot]), id, c0);
    DeliverSlotWrites(s0, id, s.sessions[id].sync.value.command);
    var c' := SlotConsumed(s, c0, OfferOut(s, id, p), p);
    assert s0.sessions[id := c'] == s.sessions[id := c'];
    assert s.slots[d := slot][d := Take(slot)] == s.slots[d := Take(slot)];
  }

  lemma OfferWithoutRoom(s: State, d: int, p: Bytes, id: int)
    requires WaitsAt(s, d, id) && s.cfg.table.responseShape(p) && !HasRoom(s, id) && s.up.active.None?
    ensures OfferSlot(s, d, p) ==
            Detach(s, id).(slots := Detach(s, id).slots[d := Arrived(s, d, p).(attached := None)])
  {
    OfferIsDelivery(s, d, p, id);
    hide Deliver, Aside, Only, Downgrade, OfferSlot, Finish;
    var slot := Arrived(s, d, p);
    var r := s.(slots := s.slots[d := slot]);
    var c0 := s.sessions[id].(sync := None);
    DeliverRemoves(Put(r, id, c0), id, s.sessions[id].sync.value.command);
    RemovePut(r, id, c0);
    assert r.slots[d := slot.(attached := None)] == Detach(s, id).slots[d := slot.(attached := None)];
  }

  /** A pending sync answered by the broker. */
  lemma SyncAnswerKeeps(s: State, id: int, o: Out, loose: bool, behind: seq<int>)
    requires Core(s, loose, behind) && id in s.sessions && s.sessions[id].sync.Some?
    requires o.role.Answer? && o.role.command == s.sessions[id].sync.value.command
    requires o.role.cause.Local? && o.payload != NO_MORE && o.payload != OK && !IsPush(o.payload)
    ensures Core(Emit(Put(s, id, s.sessions[id].(sync := None)), id, o), loose, behind)
  {
    hide Core, Emit, EmptySeen;
    AnswerKeeps(s, id, s.sessions[id].(sync := None), o, loose, behind);
  }

  lemma OfferAnswersWithRoom(s: State, d: int, p: Bytes, id: int, loose: bool, behind: seq<int>)
    requires Core(s, loose, behind) && WaitsAt(s, d, id) && IsItem(s.cfg.table, p) && HasRoom(s, id)
    ensures Core(OfferSlot(s, d, p), loose, behind)
  {
    hide Core, OfferSlot, Aside, Downgrade, EmptySeen, Only, ItemsOk, SlotOk, Enqueue, Take, Discards;
    SlotHasOneUser(s, loose, behind, d);
    ItemIsVisible(s.cfg.table, p, s.sessions[id].target);
    EnqueueFits(s.cfg.table, s.slots[d], p, s.cfg.offlineQueueSize);
    OfferWithRoom(s, d, p, id);
    hide IsItem;
    var c0 := s.sessions[id].(sync := None);
    var o := OfferOut(s, id, p);
    var r := OfferSlot(s, d, p);
    var s' := Put(s, id, SlotConsumed(s, c0, o, p)).(nextWrite := r.nextWrite, actions := r.actions);
    assert SyncTaken(s, id, c0, o);
    hide HeadTaken, SyncTaken;
    SlotTakenKeeps(s, id, c0, o, p, s', loose, behind);
    var slot := Arrived(s, d, p);
    TakeFits(s.cfg.table, slot, s.cfg.offlineQueueSize);
    TakeStaysAttached(slot);
    NoOtherUser(s, s', id, d);
    SlotChangeKeeps(s', d, Take(slot), loose, behind);
  }

  lemma OfferAnswersWithoutRoom(s: State, d: int, p: Bytes, id: int, loose: bool, behind: seq<int>)
    requires Core(s, loose, behind) && WaitsAt(s, d, id) && IsItem(s.cfg.table, p) && !HasRoom(s, id)
    requires s.up.active.None?
    ensures Core(OfferSlot(s, d, p), loose, behind)
  {
    hide Core, OfferSlot, Aside, Only, Detach, ItemsOk, SlotOk, Enqueue, Discards, Near;
    SlotHasOneUser(s, loose, behind, d);
    EnqueueFits(s.cfg.table, s.slots[d], p, s.cfg.offlineQueueSize);
    OfferWithoutRoom(s, d, p, id);
    hide IsItem;
    DetachKeeps(s, id, loose, behind);
    DetachedSlot(s, id, d);
    UnattachedSlotOk(Arrived(s, d, p));
    SlotChangeKeeps(Detach(s, id), d, Arrived(s, d, p).(attached := None), loose, behind);
  }

  /** A waiting dedicated client is answered by the item that reaches its empty queue. */
  lemma OfferAnswers(s: State, d: int, p: Bytes, id: int, loose: bool, behind: seq<int>)
    requires Core(s, loose, behind) && WaitsAt(s, d, id) && IsItem(s.cfg.table, p) && s.up.active.None?
    ensures Core(OfferSlot(s, d, p), loose, behind)
  {
    hide Core, OfferSlot, IsItem, WaitsAt;
    if HasRoom(s, id) {
      OfferAnswersWithRoom(s, d, p, id, loose, behind);
    } else {
      OfferAnswersWithoutRoom(s, d, p, id, loose, behind);
    }
  }

  lemma UnattachedSlotOk(slot: Slot)
    requires SlotOk(slot)
    ensures SlotOk(slot.(attached := None))
  {
    hide Sub;
  }

  lemma DetachedSlot(s: State, id: int, d: int)
    requires id in s.sessions && d in s.slots && s.slots[d].attached == Some(id) && s.sessions[id].slot == Some(d)
    requires forall x | x in s.sessions && s.sessions[x].slot == Some(d) :: s.slots[d].attached == Some(x)
    ensures var r := Detach(s, id);
            && d in r.slots && r.slots[d].attached.None? && r.cfg == s.cfg
            && (forall x | x in r.sessions && r.sessions[x].slot == Some(d) :: r.sessions[x].sync.None?)
  {
  }

  lemma OfferSlotKeeps(s: State, d: int, p: Bytes, loose: bool, behind: seq<int>)
    requires Core(s, loose, behind) && d in s.slots && IsItem(s.cfg.table, p) && s.up.active.None?
    ensures Core(OfferSlot(s, d, p), loose, behind)
  {
    hide Core, Aside, Only, Hint, Deliver, ItemsOk, SlotOk, Enqueue, Discards, IsItem;
    SlotHasOneUser(s, loose, behind, d);
    assert s.cfg.offlineQueueSize > 0 by { CoreParts(s, loose, behind); }
    var was := s.slots[d];
    if was.attached.Some? && s.sessions[was.attached.value].sync.Some? {
      hide OfferSlot;
      OfferAnswers(s, d, p, was.attached.value, loose, behind);
    } else {
      EnqueueFits(s.cfg.table, was, p, s.cfg.offlineQueueSize);
      var slot := Enqueue(was, p, s.cfg.offlineQueueSize);
      SlotChangeKeeps(s, d, slot, loose, behind);
      if was.attached.Some? {
        HintKeeps(s.(slots := s.slots[d := slot]), was.attached.value, loose, behind);
      }
    }
  }

  lemma {:induction false} FanOutKeeps(s: State, ds: seq<int>, p: Bytes, loose: bool, behind: seq<int>)
    requires Core(s, loose, behind) && IsItem(s.cfg.table, p) && s.up.active.None?
    requires forall d | d in ds :: d in s.slots
    ensures Core(FanOut(s, ds, p), loose, behind)
    ensures FanOut(s, ds, p).up.active.None?
    decreases |ds|
  {
    hide IsItem, OfferSlot;
    if ds != [] {
      OfferSlotKeeps(s, ds[0], p, loose, behind);
      var r := OfferSlot(s, ds[0], p);
      assert r.up.active.None? && forall d | d in ds :: d in r.slots by { OfferSlotFrame(s, ds[0], p, loose, behind); }
      hide Core;
      FanOutKeeps(r, ds[1..], p, loose, behind);
    }
  }

  lemma OfferSlotFrame(s: State, d: int, p: Bytes, loose: bool, behind: seq<int>)
    requires Core(s, loose, behind) && Core(OfferSlot(s, d, p), loose, behind) && s.up.active.None?
    ensures OfferSlot(s, d, p).up.active.None?
    ensures forall x | x in s.slots :: x in OfferSlot(s, d, p).slots
  {
    hide ClientsOk, OutsOk, InboxesOk, SyncsOk, WireOk, TxnsOk, RosterOk, RemoteOk, AirOk, SigningOk, OrphanOk,
         OfferSlot, SlotOk, ItemsOk;
  }

  // ----- An empty inbox -----

  /** What the reply of a pop shows: it was the pop's own, and covers the syncs it may answer. */
  ghost predicate EmptyObserved(s: State, t: Txn) {
    && t.born + 2 == |s.up.wire| && s.up.wire[t.born].Asked? && s.up.wire[t.born].frame == POP
    && s.up.wire[t.born].job.kind.Pop? && s.up.wire[t.born + 1] == Got(NO_MORE)
    && (forall id | id in s.sessions && s.sessions[id].sync.Some? && s.sessions[id].sync.value.minimumPop <= t.popSeq ::
          s.sessions[id].sync.value.registered <= t.born)
  }

  lemma SettleOneKeeps(s: State, id: int, t: Txn)
    requires Core(s, true, []) && EmptyObserved(s, t)
    ensures Core(SettleOne(s, id, t), true, []) && EmptyObserved(SettleOne(s, id, t), t)
  {
    hide Core, Emit;
    if id in s.sessions && s.sessions[id].sync.Some? && s.sessions[id].sync.value.minimumPop <= t.popSeq {
      var c := s.sessions[id];
      var o := Out(NO_MORE, Answer(c.sync.value.command, Empty(c.sync.value.registered, t.born)));
      AnswerKeeps(s, id, c.(sync := None), o, true, []);
      SettledSession(s, id, t);
    }
  }

  lemma SettledSession(s: State, id: int, t: Txn)
    requires id in s.sessions && s.sessions[id].sync.Some? && s.sessions[id].sync.value.minimumPop <= t.popSeq
    ensures id in SettleOne(s, id, t).sessions ==> SettleOne(s, id, t).sessions[id].sync.None?
  {
  }

  lemma {:induction false} SettleEmptyKeeps(s: State, ids: seq<int>, t: Txn)
    requires Core(s, true, []) && EmptyObserved(s, t)
    ensures Core(SettleEmpty(s, ids, t), true, [])
    decreases |ids|
  {
    hide Core, SettleOne, EmptyObserved;
    if ids != [] {
      SettleOneKeeps(s, ids[0], t);
      SettleEmptyKeeps(SettleOne(s, ids[0], t), ids[1..], t);
    }
  }

  // ----- Either result -----

  /** Closing a pop: whoever still waits is covered by the next one. */
  lemma SetDrainKeeps(s: State, requested: bool, authorized: bool)
    requires Core(s, true, [])
    requires forall id | id in s.sessions && s.sessions[id].sync.Some? :: requested && authorized
    ensures Inv(SetDrain(s, requested, authorized))
  {
    hide ClientsOk, OutsOk, InboxesOk, WireOk, TxnsOk, RosterOk, RemoteOk, AirOk, SigningOk, OrphanOk, SlotsOk;
    forall id | id in s.sessions
      ensures SyncOk(s.sessions[id], s.slots, s.drain.(requested := requested, authorized := authorized), s.up, false)
    {
      assert SyncOk(s.sessions[id], s.slots, s.drain, s.up, true);
    }
  }

  lemma EmptyResultKeeps(s: State, t: Txn, p: Bytes)
    requires Core(s, true, []) && Opcode(p) == RESP_NO_MORE_MESSAGES && EmptyObserved(s, t)
    ensures Inv(PopResult(s, t, p))
  {
    hide Core, SettleEmpty, EmptyObserved, Aside, SetDrain, FanOut, EnqueueAll;
    SettleEmptyKeeps(s, s.ids, t);
    var r := SettleEmpty(s, s.ids, t);
    var more := (r.drain.generation > t.generation || AnySync(r)) && r.sessions != map[];
    SetDrainKeeps(r, more, more);
  }

  /** Nobody is left to be told. */
  lemma EmptyResultUnheard(s: State, t: Txn, p: Bytes)
    requires Core(s, true, []) && Opcode(p) == RESP_NO_MORE_MESSAGES && s.sessions == map[]
    ensures Inv(PopResult(s, t, p))
  {
    CoreRoster(s, true, []);
    EmptyRoster(s);
    hide Core, Aside, SetDrain, FanOut, EnqueueAll;
    SetDrainKeeps(s, false, false);
  }

  lemma HeadIsListed(q: seq<int>)
    ensures q != [] ==> q[0] in q
  {
  }

  lemma EmptyRoster(s: State)
    requires s.sessions == map[] && RosterOk(s.sessions.Keys, s.ids, s.order)
    ensures s.ids == []
  {
    HeadIsListed(s.ids);
    assert s.sessions.Keys == {};
  }

  lemma DuplicateKeeps(s: State)
    requires Core(s, true, [])
    ensures Inv(SetDrain(s, s.drain.authorized && s.sessions != map[], s.drain.authorized))
  {
    forall id | id in s.sessions && s.sessions[id].sync.Some?
      ensures s.drain.authorized && s.sessions != map[]
    {
      CoreSession(s, id, true, []);
    }
    hide Core;
    SetDrainKeeps(s, s.drain.authorized && s.sessions != map[], s.drain.authorized);
  }

  /** Before the fan-out every multi-client session is one item behind. */
  lemma ItemNotedKeeps(s: State, seen: seq<string>, p: Bytes, multi: seq<int>)
    requires Core(s, true, [])
    requires forall id | id in s.sessions && s.sessions[id].slot.None? :: id in multi
    ensures Core(s.(radio := s.radio.(seen := seen, heard := s.radio.heard + [p]), pops := s.pops + [p]), true, multi)
  {
    hide ClientsOk, OutsOk, WireOk, TxnsOk, RosterOk, RemoteOk, AirOk, SigningOk, OrphanOk, SlotsOk, SyncsOk, ItemsOk;
    var pops := s.pops + [p];
    forall id | id in s.sessions
      ensures InboxOk(s.cfg.table, s.sessions[id], pops, if id in multi then 1 else 0)
    {
      var c := s.sessions[id];
      assert InboxOk(s.cfg.table, c, s.pops, 0);
      if c.slot.None? {
        assert pops[c.log.joined..|pops| - 1] == s.pops[c.log.joined..];
      }
    }
  }

  lemma {:induction false} MultiIdsDistinct(s: State, ids: seq<int>)
    requires Distinct(ids)
    ensures Distinct(MultiIds(s, ids))
    decreases |ids|
  {
    if ids != [] {
      MultiIdsDistinct(s, ids[1..]);
      var rest := MultiIds(s, ids[1..]);
      assert ids[0] !in rest;
      assert forall j | 0 <= j < |rest| :: rest[j] in rest;
    }
  }

  lemma OrphanKept(s: State, p: Bytes)
    requires Core(s, true, []) && IsItem(s.cfg.table, p)
    requires s.up.active.None? && s.debt.None? && (forall id | id in s.sessions :: s.sessions[id].slot.Some?)
    ensures Core(s.(orphan := Some(p)), true, [])
  {
    hide ClientsOk, OutsOk, InboxesOk, WireOk, TxnsOk, RosterOk, RemoteOk, AirOk, SigningOk, SlotsOk, SyncsOk, IsItem;
  }

  lemma MultiListed(s: State)
    requires RosterOk(s.sessions.Keys, s.ids, s.order)
    ensures Distinct(MultiIds(s, s.ids))
    ensures forall id | id in s.sessions && s.sessions[id].slot.None? :: id in MultiIds(s, s.ids)
    ensures forall id | id in MultiIds(s, s.ids) :: id in s.sessions && s.sessions[id].slot.None?
  {
    MultiIdsDistinct(s, s.ids);
    RosterListsAll(s.sessions, s.ids, s.order);
  }

  /** The fan-out itself: dedicated slots first, then every multi-client session or the orphan. */
  lemma SpreadKeeps(s: State, t: Txn, p: Bytes, multi: seq<int>)
    requires Core(s, true, multi) && multi == MultiIds(s, s.ids) && s.up.active.None? && s.debt.None?
    requires s.pops != [] && s.pops[|s.pops| - 1] == p && IsItem(s.cfg.table, p)
    ensures Core(Spread(s, t, p), true, [])
  {
    hide Onward, Orderly, Core, FanOut, IsItem, RosterOk, MultiIds, EnqueueAll;
    CoreParts(s, true, multi);
    assert forall d | d in s.cfg.slotIds :: d in s.slots by { hide SlotOk, ItemsOk; }
    hide SlotsOk, TxnsOk, ConfigOk, WireOk, ClientsOk, OutsOk, InboxesOk, SyncsOk, OrphanOk, RemoteOk, SigningOk, AirOk;
    FanOutKeeps(s, s.cfg.slotIds, p, true, multi);
    var r := FanOut(s, s.cfg.slotIds, p);
    CoreRoster(r, true, multi);
    assert r.debt.None? && r.pops == s.pops && r.cfg == s.cfg;
    MultiListed(s);
    MultiListed(r);
    var m := MultiIds(r, r.ids);
    BehindSame(r, true, multi, m);
    if m == [] && t.hadMulti {
      OrphanKept(r, p);
    } else {
      EnqueueAllKeeps(r, m, true);
    }
  }

  lemma ItemResultKeeps(s: State, t: Txn, p: Bytes)
    requires Core(s, true, []) && IsItem(s.cfg.table, p) && s.up.active.None? && s.debt.None?
    ensures Inv(PopResult(s, t, p))
  {
    hide Core, IsItem, Spread, SettleEmpty, Dedup.Duplicate, Dedup.Remember, RosterOk, SetDrain, MultiIds, Onward,
         Orderly;
    assert Opcode(p) != RESP_NO_MORE_MESSAGES by { ItemIsNotEmpty(s.cfg.table, p); }
    if s.cfg.deduplicate && Dedup.Duplicate(s.radio.seen, p) {
      DiscardedKeeps(s, p);
      DuplicateKeeps(s.(radio := s.radio.(heard := s.radio.heard + [p])));
    } else {
      CoreRoster(s, true, []);
      MultiListed(s);
      var seen := if s.cfg.deduplicate then Dedup.Remember(s.radio.seen, p) else s.radio.seen;
      var noted := s.(radio := s.radio.(seen := seen, heard := s.radio.heard + [p]), pops := s.pops + [p]);
      var multi := MultiIds(s, s.ids);
      ItemNotedKeeps(s, seen, p, multi);
      MultiIdsSame(s, noted, s.ids);
      SpreadKeeps(noted, t, p, multi);
      DuplicateKeeps(Spread(noted, t, p));
    }
  }

  lemma DiscardedKeeps(s: State, p: Bytes)
    requires Core(s, true, [])
    ensures Core(s.(radio := s.radio.(heard := s.radio.heard + [p])), true, [])
  {
    hide ClientsOk, OutsOk, InboxesOk, WireOk, TxnsOk, RosterOk, RemoteOk, AirOk, SigningOk, OrphanOk, SlotsOk, SyncsOk;
  }

  lemma ItemIsNotEmpty(t: Table, p: Bytes)
    requires IsItem(t, p)
    ensures Opcode(p) != RESP_NO_MORE_MESSAGES
  {
  }

  lemma {:induction false} MultiIdsSame(s: State, r: State, ids: seq<int>)
    requires s.sessions == r.sessions
    ensures MultiIds(s, ids) == MultiIds(r, ids)
  {
    if ids != [] {
      MultiIdsSame(s, r, ids[1..]);
    }
  }

  // ----- Deadlines of sessions -----

  lemma ExpireSessionKeeps(s: State, id: int)
    requires Inv(s)
    ensures Inv(ExpireSession(s, id))
  {
    hide Core, Emit, Remove;
    if id in s.sessions {
      RemoveKeeps(s, id, false, []);
      if s.sessions[id].sync.Some? {
        var o := Out(Err(ERR_BAD_STATE), Answer(s.sessions[id].sync.value.command, Local));
        SyncAnswerKeeps(s, id, o, false, []);
      }
    }
  }

  lemma {:induction false} ExpireSessionsKeeps(s: State, ids: seq<int>)
    requires Inv(s)
    ensures Inv(ExpireSessions(s, ids))
    decreases |ids|
  {
    hide Inv, ExpireSession;
    if ids != [] {
      ExpireSessionKeeps(s, ids[0]);
      ExpireSessionsKeeps(ExpireSession(s, ids[0]), ids[1..]);
    }
  }
}
