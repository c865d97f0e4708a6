/** Answers, hints, virtual syncs and the handing out of popped items keep the invariant. */
module BrokerInbox {
  import opened Wire
  import opened Protocol
  import opened Slots
  import opened Broker
  import opened BrokerInvariant
  import opened BrokerClients

  // ----- Hints and broadcasts -----

  /** Session fields that no invariant but the output bound reads. */
  lemma TweakKeeps(s: State, id: int, c': Session, loose: bool, behind: seq<int>)
    requires Core(s, loose, behind) && id in s.sessions
    requires var c := s.sessions[id];
             c' == c.(hint := c'.hint, writes := c'.writes) && |c'.writes| <= |c.writes|
    ensures Core(Put(s, id, c'), loose, behind)
  {
    hide Core, SentOk, InboxOk, ViewOk, SyncOk, Fifo;
    var c := s.sessions[id];
    CoreSession(s, id, loose, behind);
    CoreView(s, id, loose, behind);
    assert ViewOk(c') by { SameView(c, c'); }
    InboxSame(s.cfg.table, c, c', s.pops, if id in behind then 1 else 0);
    assert Fifo(c', Current(s.up.active, id)) by { SameFifo(c, c', Current(s.up.active, id)); }
    assert SyncOk(c', s.slots, s.drain, s.up, loose) by { SameSync(c, c', s.slots, s.drain, s.up, loose); }
    assert SwapOk(s, id, c', loose, if id in behind then 1 else 0);
    hide SwapOk;
    SwapKeeps(s, id, c', Put(s, id, c'), loose, behind, behind);
  }

  lemma SameFifo(c: Session, c': Session, current: seq<Bytes>)
    requires Fifo(c, current) && c'.log == c.log && c'.sync == c.sync && c'.commands == c.commands
    ensures Fifo(c', current)
  {
    hide Answered, Payloads;
  }

  lemma SameSync(c: Session, c': Session, slots: map<int, Slot>, drain: Drain, up: Upstream, loose: bool)
    requires SyncOk(c, slots, drain, up, loose) && c'.sync == c.sync && c'.inbox == c.inbox && c'.slot == c.slot
    ensures SyncOk(c', slots, drain, up, loose)
  {
  }

  lemma HintKeeps(s: State, id: int, loose: bool, behind: seq<int>)
    requires Core(s, loose, behind)
    ensures Core(Hint(s, id), loose, behind)
  {
    hide Core, Remove, Write;
    var o := Out(WAITING, Notice);
    if id in s.sessions && s.sessions[id].hint.None? {
      NotifyKeeps(s, id, o, loose, behind);
      if HasRoom(s, id) {
        var r := Write(s, id, o);
        WriteKeepsSession(s, id, o);
        TweakKeeps(r, id, r.sessions[id].(hint := Some(r.nextWrite)), loose, behind);
      }
    }
  }

  lemma WriteKeepsSession(s: State, id: int, o: Out)
    requires id in s.sessions
    ensures id in Write(s, id, o).sessions
  {
  }

  lemma {:induction false} HintAllKeeps(s: State, ids: seq<int>, loose: bool, behind: seq<int>)
    requires Core(s, loose, behind)
    ensures Core(HintAll(s, ids), loose, behind)
    decreases |ids|
  {
    hide Core, Hint;
    if ids != [] {
      HintKeeps(s, ids[0], loose, behind);
      HintAllKeeps(Hint(s, ids[0]), ids[1..], loose, behind);
    }
  }

  lemma {:induction false} BroadcastKeeps(s: State, ids: seq<int>, p: Bytes, loose: bool, behind: seq<int>)
    requires Core(s, loose, behind) && IsPush(p)
    ensures Core(Broadcast(s, ids, p), loose, behind)
    decreases |ids|
  {
    hide Core, Emit;
    if ids != [] {
      NotifyKeeps(s, ids[0], Out(p, Notice), loose, behind);
      BroadcastKeeps(Emit(s, ids[0], Out(p, Notice)), ids[1..], p, loose, behind);
    }
  }

  // ----- Answers -----

  /** The frame answers a command and says truthfully why. */
  ghost predicate LocalAnswer(s: State, id: int, o: Out, command: Bytes) {
    && o.role.Answer? && o.role.command == command
    && !o.role.cause.Reply? && !IsPush(o.payload)
    && id in s.sessions
    && (o.role.cause.FromInbox? ==> o.payload == Downgrade(o.role.cause.item, s.sessions[id].target))
    && (o.payload == NO_MORE ==>
          o.role.cause.Empty? && EmptySeen(s.up.wire, o.role.cause.registered, o.role.cause.asked))
  }

  lemma FifoHead(c: Session, c': Session, o: Out)
    requires Fifo(c, []) && c.sync.None? && c.commands != []
    requires o.role.Answer? && o.role.command == c.commands[0].payload
    requires c'.log.sent == c.log.sent + [o] && c'.commands == c.commands[1..] && c'.sync.None?
    requires c'.log.submitted == c.log.submitted
    ensures Fifo(c', [])
  {
    AnsweredGrows(c.log.sent, o);
    assert Payloads(c.commands) == [c.commands[0].payload] + Payloads(c.commands[1..]);
  }

  lemma FifoSync(c: Session, c': Session, o: Out)
    requires Fifo(c, []) && c.sync.Some?
    requires o.role.Answer? && o.role.command == c.sync.value.command
    requires c'.log.sent == c.log.sent + [o] && c'.commands == c.commands && c'.sync.None?
    requires c'.log.submitted == c.log.submitted
    ensures Fifo(c', [])
  {
    AnsweredGrows(c.log.sent, o);
  }

  /** A session whose head command has been taken and answered by `o`. */
  ghost predicate HeadTaken(s: State, id: int, c': Session, o: Out) {
    && id in s.sessions && s.sessions[id].sync.None? && s.sessions[id].commands != [] && !Owns(s.up.active, id)
    && LocalAnswer(s, id, o, s.sessions[id].commands[0].payload)
    && c'.commands == s.sessions[id].commands[1..]
  }

  /** A session whose pending sync has been answered by `o`. */
  ghost predicate SyncTaken(s: State, id: int, c': Session, o: Out) {
    && id in s.sessions && s.sessions[id].sync.Some?
    && LocalAnswer(s, id, o, s.sessions[id].sync.value.command)
    && c'.commands == s.sessions[id].commands
  }

  lemma AnswerSwap(s: State, id: int, c': Session, o: Out, loose: bool, behind: seq<int>, lag: nat)
    requires Core(s, loose, behind)
    requires HeadTaken(s, id, c', o) || SyncTaken(s, id, c', o)
    requires var c := s.sessions[id];
             && c'.log.sent == c.log.sent + [o] && c'.sync.None? && c'.log.submitted == c.log.submitted
             && c'.slot == c.slot && |c'.writes| <= s.cfg.outputFrames
    requires InboxOk(s.cfg.table, c', s.pops, lag)
    ensures SwapOk(s, id, c', loose, lag)
  {
    hide TxnOk, WireOk, SigningOk, AirOk, SlotsOk, RosterOk, RemoteOk, SyncOk, InboxOk, TxnsOk, OrphanOk, StatusOk,
         Fifo, SentOk, OutOk, EmptySeen;
    var c := s.sessions[id];
    assert ClientOk(s.cfg, c, Current(s.up.active, id), Owns(s.up.active, id));
    assert Current(s.up.active, id) == [];
    if SyncTaken(s, id, c', o) {
      FifoSync(c, c', o);
    } else {
      FifoHead(c, c', o);
    }
    assert !IsRelay(o);
    assert SentOk(s.cfg.table, s.up.wire, c.log.sent, id);
    assert ViewOk(c) by { CoreView(s, id, loose, behind); }
    assert OutOk(s.cfg.table, s.up.wire, c.log.sent + [o], |c.log.sent|, id) by { LocalOutOk(s, id, o); }
    SentGrows(s.cfg.table, s.up.wire, c.log.sent, id, o);
    assert SyncOk(c', s.slots, s.drain, s.up, loose) by { NoSyncOk(c', s.slots, s.drain, s.up, loose); }
  }

  lemma LocalOutOk(s: State, id: int, o: Out)
    requires o.role.Answer? && LocalAnswer(s, id, o, o.role.command) && ViewOk(s.sessions[id])
    ensures OutOk(s.cfg.table, s.up.wire, s.sessions[id].log.sent + [o], |s.sessions[id].log.sent|, id)
  {
  }

  lemma NoSyncOk(c: Session, slots: map<int, Slot>, drain: Drain, up: Upstream, loose: bool)
    requires c.sync.None?
    ensures SyncOk(c, slots, drain, up, loose)
  {
  }

  lemma CoreView(s: State, id: int, loose: bool, behind: seq<int>)
    requires Core(s, loose, behind) && id in s.sessions
    ensures ViewOk(s.sessions[id])
  {
    CoreSession(s, id, loose, behind);
    hide Core, ItemsOk, ViewOk;
  }

  /** Answering without touching the inbox. */
  lemma AnswerKeeps(s: State, id: int, c0: Session, o: Out, loose: bool, behind: seq<int>)
    requires Core(s, loose, behind)
    requires HeadTaken(s, id, c0, o) || SyncTaken(s, id, c0, o)
    requires var c := s.sessions[id];
             c0 == c.(commands := c0.commands, sync := None, scope := NextScope(c.scope, o))
    requires !o.role.cause.FromInbox?
    ensures Core(Emit(Put(s, id, c0), id, o), loose, behind)
  {
    var c' := Sending(s, c0, o);
    var lag := if id in behind then 1 else 0;
    if |c0.writes| < s.cfg.outputFrames {
      assert InboxOk(s.cfg.table, s.sessions[id], s.pops, lag);
      CoreView(s, id, loose, behind);
      ViewGrows(s.sessions[id], c', o);
      InboxSame(s.cfg.table, s.sessions[id], c', s.pops, lag);
      AnswerSwap(s, id, c', o, loose, behind, lag);
    }
    hide Core, Emit, SwapOk;
    EmitSwapKeeps(s, id, c0, o, loose, behind, behind);
  }

  lemma AnswerHeadKeeps(s: State, id: int, p: Bytes, loose: bool, behind: seq<int>)
    requires Core(s, loose, behind) && p != NO_MORE && p != OK && !IsPush(p)
    requires id in s.sessions && s.sessions[id].sync.None? && s.sessions[id].commands != [] && !Owns(s.up.active, id)
    ensures Core(AnswerHead(s, id, p), loose, behind)
  {
    hide Core, Emit, EmptySeen;
    var c := s.sessions[id];
    AnswerKeeps(s, id, Shift(c), Out(p, Answer(c.commands[0].payload, Local)), loose, behind);
  }

  lemma RescopeKeeps(s: State, id: int, loose: bool, behind: seq<int>)
    requires Core(s, loose, behind)
    requires id in s.sessions && s.sessions[id].sync.None? && s.sessions[id].commands != [] && !Owns(s.up.active, id)
    requires Opcode(s.sessions[id].commands[0].payload) == CMD_SET_FLOOD_SCOPE_KEY
    ensures Core(AnswerRescope(s, id), loose, behind)
  {
    hide Core, Emit, EmptySeen;
    var c := s.sessions[id];
    AnswerKeeps(s, id, Shift(c).(scope := c.commands[0].payload), Out(OK, Answer(c.commands[0].payload, Local)),
                loose, behind);
  }

  // ----- Registering a sync -----

  lemma RegisterKeeps(s: State, id: int)
    requires Inv(s)
    requires id in s.sessions && s.sessions[id].sync.None? && s.sessions[id].commands != [] && !Owns(s.up.active, id)
    requires InboxOf(s, id) == [] && ValidCommand(s.cfg.table, s.sessions[id].commands[0].payload)
    ensures Inv(Register(s, id))
  {
    hide Core, SwapOk, Register, ValidCommand;
    var drain := s.drain.(requested := true, authorized := true, generation := s.drain.generation + 1);
    var s0 := s.(drain := drain);
    var c' := Registered(s, id);
    DrainChangeKeeps(s, drain);
    RegisterSwap(s, id, s0);
    RegisterShape(s, id);
    SwapKeeps(s0, id, c', Register(s, id), false, [], []);
  }

  /** The session once its head has become a pending sync. */
  ghost function Registered(s: State, id: int): Session
    requires id in s.sessions && s.sessions[id].commands != []
  {
    var c := s.sessions[id];
    var sync := PendingSync(s.drain.popSeq + 1, s.now + s.cfg.syncTimeout, c.commands[0].payload, |s.up.wire|);
    Shift(c).(sync := Some(sync))
  }

  lemma RegisterShape(s: State, id: int)
    requires id in s.sessions && s.sessions[id].commands != []
    ensures var drain := s.drain.(requested := true, authorized := true, generation := s.drain.generation + 1);
            Register(s, id) == Put(s.(drain := drain), id, Registered(s, id))
  {
    hide Aside, Only;
  }

  /** Asking for more pops keeps every waiting sync covered. */
  lemma DrainChangeKeeps(s: State, drain: Drain)
    requires Inv(s) && drain.popSeq == s.drain.popSeq
    requires (s.drain.authorized ==> drain.authorized) && (s.drain.requested ==> drain.requested)
    ensures Inv(s.(drain := drain))
  {
    hide WireOk, RemoteOk, SigningOk, SlotsOk, OutsOk, InboxesOk, ClientsOk, ConfigOk, RosterOk, AirOk, TxnsOk,
         OrphanOk;
    forall id | id in s.sessions
      ensures SyncOk(s.sessions[id], s.slots, drain, s.up, false)
    {
      assert SyncOk(s.sessions[id], s.slots, s.drain, s.up, false);
    }
  }

  lemma RegisterSwap(s: State, id: int, s0: State)
    requires Inv(s) && AtHead(s, id) && InboxOf(s, id) == []
    requires s0 == s.(drain := s.drain.(requested := true, authorized := true, generation := s.drain.generation + 1))
    ensures SwapOk(s0, id, Registered(s, id), false, 0)
  {
    var c := s.sessions[id];
    var c' := Registered(s, id);
    hide Core, SentOk, Fifo, InboxOk, ViewOk, SyncOk, ClientOk, Current, InboxOf;
    CoreSession(s, id, false, []);
    CoreView(s, id, false, []);
    RegisterClient(s.cfg, c, c', s.up.active, id);
    assert ViewOk(c') by { SameView(c, c'); }
    InboxSame(s.cfg.table, c, c', s.pops, 0);
    RegisterSync(s, id, s0);
  }

  lemma RegisterClient(cfg: Config, c: Session, c': Session, active: Option<Txn>, id: int)
    requires ClientOk(cfg, c, Current(active, id), Owns(active, id)) && !Owns(active, id)
    requires c.sync.None? && c.commands != [] && c' == Shift(c).(sync := c'.sync)
    requires c'.sync.Some? && c'.sync.value.command == c.commands[0].payload
    ensures ClientOk(cfg, c', Current(active, id), Owns(active, id))
  {
    FifoRegister(c, c');
    hide Fifo;
  }

  lemma RegisterSync(s: State, id: int, s0: State)
    requires Inv(s) && AtHead(s, id) && InboxOf(s, id) == []
    requires s0 == s.(drain := s.drain.(requested := true, authorized := true, generation := s.drain.generation + 1))
    ensures SyncOk(Registered(s, id), s.slots, s0.drain, s.up, false)
  {
    hide Core, ItemsOk, SlotOk, ClientsOk, OutsOk, InboxesOk, WireOk, RemoteOk, AirOk, SigningOk, OrphanOk, TxnsOk,
         ConfigOk, RosterOk, ViewOk, SyncOk, ClientOk, SentOk, InboxOk;
    CoreParts(s, false, []);
    CoreSession(s, id, false, []);
    var c := s.sessions[id];
    assert c.inbox == [] by { SlottedInbox(s.cfg.table, c, s.pops); }
    RegisteredSync(s, id, s0.drain);
  }

  lemma SlottedInbox(t: Table, c: Session, pops: seq<Bytes>)
    requires InboxOk(t, c, pops, 0)
    ensures c.slot.Some? ==> c.inbox == []
  {
    hide ItemsOk, ViewOk;
  }

  lemma RegisteredSync(s: State, id: int, drain: Drain)
    requires AtHead(s, id) && s.sessions[id].inbox == [] && drain.requested && drain.authorized
    requires var c := s.sessions[id]; c.slot.Some? ==> c.slot.value in s.slots && s.slots[c.slot.value].queue == []
    requires drain.popSeq == s.drain.popSeq && (PopInFlight(s.up.active) ==> s.up.active.value.popSeq <= drain.popSeq)
    ensures SyncOk(Registered(s, id), s.slots, drain, s.up, false)
  {
  }

  lemma SameView(c: Session, c': Session)
    requires ViewOk(c) && c'.log.sent == c.log.sent && c'.log.taken == c.log.taken && c'.target == c.target
    requires c'.scope == c.scope
    ensures ViewOk(c')
  {
  }

  lemma FifoRegister(c: Session, c': Session)
    requires Fifo(c, []) && c.sync.None? && c.commands != []
    requires c'.sync.Some? && c'.sync.value.command == c.commands[0].payload
    requires c'.log == c.log && c'.commands == c.commands[1..]
    ensures Fifo(c', [])
  {
    assert Payloads(c.commands) == [c.commands[0].payload] + Payloads(c.commands[1..]);
  }

  // ----- Delivering -----

  lemma ItemIsVisible(t: Table, item: Bytes, target: Byte)
    requires IsItem(t, item)
    ensures Downgrade(item, target) != NO_MORE && !IsPush(Downgrade(item, target))
  {
    assert item[0] != RESP_NO_MORE_MESSAGES;
    assert Downgrade(item, target)[0] != NO_MORE[0];
  }

  ghost function Delivery(c: Session, command: Bytes): Out
    requires c.inbox != []
  {
    Out(Downgrade(c.inbox[0], c.target), Answer(command, FromInbox(c.inbox[0])))
  }

  ghost function Consumed(c: Session): Session
    requires c.inbox != []
  {
    Took(c, c.inbox[0]).(inbox := c.inbox[1..])
  }

  lemma DeliverWrites(s: State, id: int, command: Bytes)
    requires id in s.sessions && s.sessions[id].slot.None? && s.sessions[id].inbox != [] && HasRoom(s, id)
    requires s.cfg.table.responseShape(s.sessions[id].inbox[0])
    ensures var c := s.sessions[id];
            var r := Deliver(s, id, command);
            r == Put(s, id, Consumed(Sending(s, c, Delivery(c, command)))).(
                   nextWrite := r.nextWrite, actions := r.actions)
  {
    var c := s.sessions[id];
    var mid := Write(s, id, Delivery(c, command));
    assert mid.sessions[id := Consumed(mid.sessions[id])] == s.sessions[id := Consumed(mid.sessions[id])];
  }

  /** `c0` is the multi-client session with an item in its inbox and the command to answer taken. */
  ghost predicate ReadyToDeliver(s: State, id: int, c0: Session, command: Bytes, lag: nat) {
    && id in s.sessions && c0.slot.None? && c0.slot == s.sessions[id].slot
    && c0.inbox != [] && IsItem(s.cfg.table, c0.inbox[0])
    && (HeadTaken(s, id, c0, Delivery(c0, command)) || SyncTaken(s, id, c0, Delivery(c0, command)))
    && c0 == s.sessions[id].(commands := c0.commands, sync := None, inbox := c0.inbox)
    && InboxOk(s.cfg.table, c0, s.pops, lag)
  }

  lemma DeliverSwap(s: State, id: int, c0: Session, command: Bytes, loose: bool, behind: seq<int>, lag: nat)
    requires Core(s, loose, behind) && ReadyToDeliver(s, id, c0, command, lag) && |c0.writes| < s.cfg.outputFrames
    ensures SwapOk(s, id, Consumed(Sending(s, c0, Delivery(c0, command))), loose, lag)
  {
    var o := Delivery(c0, command);
    var c' := Consumed(Sending(s, c0, o));
    InboxView(s.cfg.table, c0, s.pops, lag);
    ViewGrows(c0, c', o);
    InboxTaken(s.cfg.table, c0, c', s.pops, lag);
    hide Core, SwapOk, InboxOk, IsItem;
    AnswerSwap(s, id, c', o, loose, behind, lag);
  }

  lemma DeliverMultiKeeps(s: State, id: int, c0: Session, command: Bytes, loose: bool, behind: seq<int>,
                          behind': seq<int>)
    requires Core(s, loose, behind) && ReadyToDeliver(s, id, c0, command, if id in behind' then 1 else 0)
    requires forall x | x in s.sessions && x != id :: x in behind <==> x in behind'
    ensures Core(Deliver(Put(s, id, c0), id, command), loose, behind')
  {
    hide Core, InboxOk, HeadTaken, SyncTaken, Deliver, Remove;
    var s0 := Put(s, id, c0);
    if |c0.writes| < s.cfg.outputFrames {
      DeliverSwap(s, id, c0, command, loose, behind, if id in behind' then 1 else 0);
      hide SwapOk;
      DeliverWrites(s0, id, command);
      var c' := Consumed(Sending(s, c0, Delivery(c0, command)));
      assert s0.sessions[id := c'] == s.sessions[id := c'];
      SwapKeeps(s, id, c', Deliver(s0, id, command), loose, behind, behind');
    } else {
      assert Deliver(s0, id, command) == Remove(s0, id) by { DeliverRemoves(s0, id, command); }
      RemovePut(s, id, c0);
      RemoveKeeps(s, id, loose, behind);
      CoreRoster(s, loose, behind);
      RemoveLoses(s, id);
      BehindSame(Remove(s, id), loose, behind, behind');
    }
  }

  lemma DeliverRemoves(s: State, id: int, command: Bytes)
    requires id in s.sessions && !HasRoom(s, id) && InboxOf(s, id) != [] && s.cfg.table.responseShape(InboxOf(s, id)[0])
    ensures Deliver(s, id, command) == Remove(s, id)
  {
  }

  lemma CoreSession(s: State, id: int, loose: bool, behind: seq<int>)
    requires Core(s, loose, behind) && id in s.sessions
    ensures ClientOk(s.cfg, s.sessions[id], Current(s.up.active, id), Owns(s.up.active, id))
    ensures SentOk(s.cfg.table, s.up.wire, s.sessions[id].log.sent, id)
    ensures InboxOk(s.cfg.table, s.sessions[id], s.pops, if id in behind then 1 else 0)
    ensures SyncOk(s.sessions[id], s.slots, s.drain, s.up, loose)
  {
    hide ClientOk, SentOk, InboxOk, SyncOk, WireOk, TxnOk, SlotsOk, RosterOk, RemoteOk, AirOk, SigningOk;
  }

  lemma CoreRoster(s: State, loose: bool, behind: seq<int>)
    requires Core(s, loose, behind)
    ensures RosterOk(s.sessions.Keys, s.ids, s.order)
  {
  }

  lemma InboxTaken(t: Table, c: Session, c': Session, pops: seq<Bytes>, lag: nat)
    requires InboxOk(t, c, pops, lag) && c.inbox != [] && c.slot.None? && ViewOk(c')
    requires c'.slot == c.slot && c'.log.joined == c.log.joined && c'.log.handed == c.log.handed
    requires c'.inbox == c.inbox[1..] && c'.log.taken == c.log.taken + [c.inbox[0]]
    ensures InboxOk(t, c', pops, lag)
  {
    assert c'.log.taken + c'.inbox == c.log.taken + c.inbox;
  }

  // ----- Dedicated slots -----

  lemma SlotChangeKeeps(s: State, d: int, slot: Slot, loose: bool, behind: seq<int>)
    requires Core(s, loose, behind) && d in s.slots
    requires SlotOk(slot) && |slot.queue| <= s.cfg.offlineQueueSize && ItemsOk(s.cfg.table, slot.queue)
    requires slot.attached == s.slots[d].attached
    requires slot.queue == [] || forall x | x in s.sessions && s.sessions[x].slot == Some(d) :: s.sessions[x].sync.None?
    ensures Core(s.(slots := s.slots[d := slot]), loose, behind)
  {
    hide TxnOk, WireOk, SigningOk, AirOk, RosterOk, RemoteOk, SentOk, TxnsOk, OrphanOk, Fifo, ClientsOk, OutsOk,
         InboxesOk, SlotOk, ItemsOk;
    var slots := s.slots[d := slot];
    forall x | x in s.sessions
      ensures SyncOk(s.sessions[x], slots, s.drain, s.up, loose)
    {
      assert SyncOk(s.sessions[x], s.slots, s.drain, s.up, loose);
    }
  }

  /** Only the attached session uses a slot. */
  lemma SlotHasOneUser(s: State, loose: bool, behind: seq<int>, d: int)
    requires Core(s, loose, behind) && d in s.slots
    ensures forall x | x in s.sessions && s.sessions[x].slot == Some(d) :: s.slots[d].attached == Some(x)
    ensures s.slots[d].attached.Some? ==>
              s.slots[d].attached.value in s.sessions && s.sessions[s.slots[d].attached.value].slot == Some(d)
    ensures forall x | x in s.sessions && s.sessions[x].slot == Some(d) && s.sessions[x].sync.Some? ::
              s.slots[d].queue == []
    ensures SlotOk(s.slots[d]) && |s.slots[d].queue| <= s.cfg.offlineQueueSize && ItemsOk(s.cfg.table, s.slots[d].queue)
  {
    hide TxnOk, WireOk, SigningOk, AirOk, RosterOk, RemoteOk, SentOk, TxnsOk, OrphanOk, Fifo, ClientsOk, OutsOk,
         InboxesOk, SlotOk, ItemsOk;
    forall x | x in s.sessions && s.sessions[x].slot == Some(d) && s.sessions[x].sync.Some?
      ensures s.slots[d].queue == []
    {
      assert SyncOk(s.sessions[x], s.slots, s.drain, s.up, loose);
    }
  }

  lemma TakeFits(t: Table, slot: Slot, limit: nat)
    requires SlotOk(slot) && |slot.queue| <= limit && ItemsOk(t, slot.queue) && slot.queue != []
    ensures SlotOk(Take(slot)) && |Take(slot).queue| <= limit && ItemsOk(t, Take(slot).queue)
  {
    TakeConserves(slot);
    hide SlotOk;
    assert forall i | 0 <= i < |slot.queue| - 1 :: slot.queue[1..][i] == slot.queue[i + 1];
  }

  lemma EnqueueFits(t: Table, slot: Slot, p: Bytes, limit: nat)
    requires SlotOk(slot) && |slot.queue| <= limit && ItemsOk(t, slot.queue) && IsItem(t, p) && limit > 0
    ensures var e := Enqueue(slot, p, limit);
            SlotOk(e) && |e.queue| <= limit && ItemsOk(t, e.queue) && e.attached == slot.attached
    ensures slot.queue == [] ==> !Discards(slot, limit) && Enqueue(slot, p, limit).queue == [p]
    ensures Discards(slot, limit) ==> slot.queue != []
  {
    EnqueueConserves(slot, p, limit);
    hide SlotOk, IsItem;
  }

  ghost function SlotDelivery(s: State, d: int, c: Session, command: Bytes): Out
    requires d in s.slots && s.slots[d].queue != []
  {
    Out(Downgrade(s.slots[d].queue[0], c.target), Answer(command, FromInbox(s.slots[d].queue[0])))
  }

  /** A dedicated session once the item at the head of its slot was sent to it. */
  ghost function SlotConsumed(s: State, c: Session, o: Out, item: Bytes): Session {
    Took(Sending(s, c, o), item)
  }

  lemma DeliverSlotWrites(s: State, id: int, command: Bytes)
    requires id in s.sessions && s.sessions[id].slot.Some? && HasRoom(s, id)
    requires var d := s.sessions[id].slot.value;
             d in s.slots && s.slots[d].queue != [] && s.cfg.table.responseShape(s.slots[d].queue[0])
    ensures var c := s.sessions[id];
            var d := c.slot.value;
            var r := Deliver(s, id, command);
            r == Put(s, id, SlotConsumed(s, c, SlotDelivery(s, d, c, command), s.slots[d].queue[0])).(
                   slots := s.slots[d := Take(s.slots[d])], nextWrite := r.nextWrite, actions := r.actions)
  {
    var c := s.sessions[id];
    var d := c.slot.value;
    var c' := SlotConsumed(s, c, SlotDelivery(s, d, c, command), s.slots[d].queue[0]);
    assert s.sessions[id := Sending(s, c, SlotDelivery(s, d, c, command))][id := c'] == s.sessions[id := c'];
    hide Aside, Only, Take, Downgrade, Remove;
  }

  /** The session side of a delivery from a slot. */
  lemma SlotTakenKeeps(s: State, id: int, c0: Session, o: Out, item: Bytes, s': State, loose: bool, behind: seq<int>)
    requires Core(s, loose, behind) && id in s.sessions && s.sessions[id].slot.Some? && |c0.writes| < s.cfg.outputFrames
    requires c0 == s.sessions[id].(commands := c0.commands, sync := None)
    requires o.role.Answer? && o.role.cause == FromInbox(item)
    requires HeadTaken(s, id, c0, o) || SyncTaken(s, id, c0, o)
    requires s' == Put(s, id, SlotConsumed(s, c0, o, item)).(nextWrite := s'.nextWrite, actions := s'.actions)
    ensures Core(s', loose, behind)
  {
    hide Core, ViewOk, InboxOk, SentOk, ClientOk, SyncOk, SwapOk, LocalAnswer, ItemsOk;
    var c' := SlotConsumed(s, c0, o, item);
    var lag := if id in behind then 1 else 0;
    SlotTakenInbox(s, id, c0, o, item, loose, behind);
    AnswerSwap(s, id, c', o, loose, behind, lag);
    SwapKeeps(s, id, c', s', loose, behind, behind);
  }

  lemma SlotTakenInbox(s: State, id: int, c0: Session, o: Out, item: Bytes, loose: bool, behind: seq<int>)
    requires Core(s, loose, behind) && id in s.sessions && s.sessions[id].slot.Some?
    requires c0 == s.sessions[id].(commands := c0.commands, sync := None)
    requires o.role.Answer? && o.role.cause == FromInbox(item)
    ensures InboxOk(s.cfg.table, SlotConsumed(s, c0, o, item), s.pops, if id in behind then 1 else 0)
  {
    hide Core, SentOk, ClientOk, SyncOk, ItemsOk, ViewOk;
    CoreView(s, id, loose, behind);
    CoreSession(s, id, loose, behind);
    assert ViewOk(SlotConsumed(s, c0, o, item)) by { SlotView(s, s.sessions[id], c0, o, item); }
  }

  lemma SlotView(s: State, c: Session, c0: Session, o: Out, item: Bytes)
    requires ViewOk(c) && c0 == c.(commands := c0.commands, sync := None)
    requires o.role.Answer? && o.role.cause == FromInbox(item)
    ensures ViewOk(SlotConsumed(s, c0, o, item))
  {
    hide ViewOk;
    ViewGrows(c, SlotConsumed(s, c0, o, item), o);
  }

  lemma ItemsHaveShape(t: Table, q: seq<Bytes>)
    requires ItemsOk(t, q) && q != []
    ensures t.responseShape(q[0])
  {
    assert IsItem(t, q[0]);
  }

  lemma DeliverSlotShape(s: State, id: int, d: int, c0: Session, command: Bytes)
    requires id in s.sessions && c0.slot == Some(d) && d in s.slots && s.slots[d].queue != []
    requires HasRoom(Put(s, id, c0), id) && s.cfg.table.responseShape(s.slots[d].queue[0])
    ensures var r := Deliver(Put(s, id, c0), id, command);
            r == Put(s, id, SlotConsumed(s, c0, SlotDelivery(s, d, c0, command), s.slots[d].queue[0])).(
                   slots := s.slots[d := Take(s.slots[d])], nextWrite := r.nextWrite, actions := r.actions)
  {
    hide Deliver, Downgrade, Take;
    DeliverSlotWrites(Put(s, id, c0), id, command);
    var c' := SlotConsumed(s, c0, SlotDelivery(s, d, c0, command), s.slots[d].queue[0]);
    assert s.sessions[id := c0][id := c'] == s.sessions[id := c'];
  }

  lemma SlotDeliveredKeeps(s: State, id: int, d: int, c0: Session, command: Bytes, r: State, loose: bool,
                           behind: seq<int>)
    requires Core(s, loose, behind) && id in s.sessions && s.sessions[id].slot == Some(d) && d in s.slots
    requires c0 == s.sessions[id].(commands := c0.commands, sync := None) && |c0.writes| < s.cfg.outputFrames
    requires s.slots[d].queue != [] && HeadTaken(s, id, c0, SlotDelivery(s, d, c0, command))
    requires r == Put(s, id, SlotConsumed(s, c0, SlotDelivery(s, d, c0, command), s.slots[d].queue[0])).(
                    slots := s.slots[d := Take(s.slots[d])], nextWrite := r.nextWrite, actions := r.actions)
    ensures Core(r, loose, behind)
  {
    hide Core, SlotOk, IsItem, ItemsOk, Downgrade, HeadTaken, SyncTaken, Take;
    SlotHasOneUser(s, loose, behind, d);
    var o := SlotDelivery(s, d, c0, command);
    var item := s.slots[d].queue[0];
    var s' := Put(s, id, SlotConsumed(s, c0, o, item)).(nextWrite := r.nextWrite, actions := r.actions);
    SlotTakenKeeps(s, id, c0, o, item, s', loose, behind);
    TakeFits(s.cfg.table, s.slots[d], s.cfg.offlineQueueSize);
    TakeStaysAttached(s.slots[d]);
    NoOtherUser(s, s', id, d);
    SlotChangeKeeps(s', d, Take(s.slots[d]), loose, behind);
  }

  lemma TakeStaysAttached(slot: Slot)
    requires slot.queue != []
    ensures Take(slot).attached == slot.attached
  {
  }

  lemma NoOtherUser(s: State, s': State, id: int, d: int)
    requires id in s'.sessions && s'.sessions[id].sync.None? && d in s.slots
    requires forall x | x in s.sessions && s.sessions[x].slot == Some(d) :: s.slots[d].attached == Some(x)
    requires id in s.sessions && s.sessions[id].slot == Some(d)
    requires s'.sessions == s.sessions[id := s'.sessions[id]]
    ensures forall x | x in s'.sessions && s'.sessions[x].slot == Some(d) :: s'.sessions[x].sync.None?
  {
    assert s.slots[d].attached == Some(id);
  }

  /** The oldest item of the slot's queue answers a command. */
  lemma DeliverSlotKeeps(s: State, id: int, d: int, c0: Session, command: Bytes, loose: bool, behind: seq<int>)
    requires Core(s, loose, behind) && id in s.sessions && s.sessions[id].slot == Some(d) && d in s.slots
    requires c0 == s.sessions[id].(commands := c0.commands, sync := None)
    requires s.slots[d].queue != [] && HeadTaken(s, id, c0, SlotDelivery(s, d, c0, command))
    ensures Core(Deliver(Put(s, id, c0), id, command), loose, behind)
  {
    hide Core, Remove, SyncTaken, SlotOk, IsItem, Deliver, Downgrade, EmptySeen;
    SlotHasOneUser(s, loose, behind, d);
    ItemsHaveShape(s.cfg.table, s.slots[d].queue);
    hide ItemsOk;
    var s0 := Put(s, id, c0);
    if HasRoom(s0, id) {
      DeliverSlotShape(s, id, d, c0, command);
      hide HeadTaken;
      SlotDeliveredKeeps(s, id, d, c0, command, Deliver(s0, id, command), loose, behind);
    } else {
      DeliverRemoves(s0, id, command);
      RemovePut(s, id, c0);
      RemoveKeeps(s, id, loose, behind);
    }
  }

  ghost predicate AtHead(s: State, id: int) {
    id in s.sessions && s.sessions[id].sync.None? && s.sessions[id].commands != [] && !Owns(s.up.active, id)
  }

  lemma HeadIsDeliverable(s: State, id: int, lag: nat)
    requires AtHead(s, id) && s.sessions[id].slot.None? && s.sessions[id].inbox != []
    requires InboxOk(s.cfg.table, s.sessions[id], s.pops, lag)
    ensures ReadyToDeliver(s, id, Shift(s.sessions[id]), s.sessions[id].commands[0].payload, lag)
  {
    var c := s.sessions[id];
    assert IsItem(s.cfg.table, c.inbox[0]);
    InboxSame(s.cfg.table, c, Shift(c), s.pops, lag);
    ItemIsVisible(s.cfg.table, c.inbox[0], c.target);
    hide InboxOk, IsItem, EmptySeen, Downgrade;
  }

  lemma SyncIsDeliverable(s: State, id: int, c0: Session, lag: nat)
    requires id in s.sessions && s.sessions[id].sync.Some? && s.sessions[id].slot.None? && s.sessions[id].inbox == []
    requires c0.inbox != [] && c0 == s.sessions[id].(inbox := c0.inbox, sync := None)
    requires InboxOk(s.cfg.table, c0, s.pops, lag)
    ensures ReadyToDeliver(s, id, c0, s.sessions[id].sync.value.command, lag)
  {
    assert IsItem(s.cfg.table, c0.inbox[0]);
    ItemIsVisible(s.cfg.table, c0.inbox[0], c0.target);
    hide InboxOk, IsItem, EmptySeen, Downgrade;
  }

  lemma DeliverHeadMulti(s: State, id: int, loose: bool, behind: seq<int>)
    requires Core(s, loose, behind) && AtHead(s, id) && s.sessions[id].slot.None? && s.sessions[id].inbox != []
    ensures Core(DeliverHead(s, id), loose, behind)
  {
    var c := s.sessions[id];
    var lag := if id in behind then 1 else 0;
    assert InboxOk(s.cfg.table, c, s.pops, lag);
    hide Core, InboxOk, Deliver, ReadyToDeliver;
    HeadIsDeliverable(s, id, lag);
    DeliverMultiKeeps(s, id, Shift(c), c.commands[0].payload, loose, behind, behind);
  }

  lemma DeliverHeadSlot(s: State, id: int, loose: bool, behind: seq<int>)
    requires Core(s, loose, behind) && AtHead(s, id) && s.sessions[id].slot.Some? && InboxOf(s, id) != []
    ensures Core(DeliverHead(s, id), loose, behind)
  {
    hide Core, Deliver, EmptySeen, Downgrade, SlotOk, IsItem;
    var c := s.sessions[id];
    var d := c.slot.value;
    SlotHasOneUser(s, loose, behind, d);
    ItemIsVisible(s.cfg.table, s.slots[d].queue[0], c.target);
    hide ItemsOk;
    DeliverSlotKeeps(s, id, d, Shift(c), c.commands[0].payload, loose, behind);
  }

  // ----- Fan-out of one popped item -----

  lemma InboxArrives(t: Table, c: Session, pops: seq<Bytes>)
    requires InboxOk(t, c, pops, 1) && c.slot.None? && pops != [] && IsItem(t, pops[|pops| - 1])
    ensures InboxOk(t, Enqueued(c, pops[|pops| - 1]).(sync := None), pops, 0)
  {
    hide IsItem;
    var n := |pops| - 1;
    assert pops[c.log.joined..] == pops[c.log.joined..n] + [pops[n]];
    assert c.log.taken + (c.inbox + [pops[n]]) == c.log.taken + c.inbox + [pops[n]];
  }

  lemma EnqueueMultiKeeps(s: State, id: int, rest: seq<int>, loose: bool)
    requires Core(s, loose, [id] + rest) && id !in rest
    requires id in s.sessions ==> s.sessions[id].slot.None?
    requires s.pops != [] && IsItem(s.cfg.table, s.pops[|s.pops| - 1])
    ensures Core(EnqueueMulti(s, id, s.pops[|s.pops| - 1]), loose, rest)
  {
    var behind := [id] + rest;
    var p := s.pops[|s.pops| - 1];
    if id !in s.sessions {
      BehindSame(s, loose, behind, rest);
    } else {
      var c := s.sessions[id];
      if |c.inbox| >= s.cfg.inboxEntries {
        RemoveKeeps(s, id, loose, behind);
        CoreRoster(s, loose, behind);
        RemoveLoses(s, id);
        hide Core, Remove;
        BehindSame(Remove(s, id), loose, behind, rest);
      } else {
        ArriveKeeps(s, id, rest, loose);
      }
    }
  }

  ghost predicate Arriving(s: State, id: int) {
    && id in s.sessions && s.sessions[id].slot.None? && |s.sessions[id].inbox| < s.cfg.inboxEntries
    && s.pops != [] && IsItem(s.cfg.table, s.pops[|s.pops| - 1])
  }

  lemma EnqueueMultiDelivers(s: State, id: int, p: Bytes)
    requires id in s.sessions && |s.sessions[id].inbox| < s.cfg.inboxEntries && s.sessions[id].sync.Some?
    ensures var c := s.sessions[id];
            EnqueueMulti(s, id, p) == Deliver(Put(s, id, Enqueued(c, p).(sync := None)), id, c.sync.value.command)
  {
    hide Deliver, Aside, Remove, Hint;
  }

  lemma ArriveAnswers(s: State, id: int, rest: seq<int>, loose: bool)
    requires Core(s, loose, [id] + rest) && id !in rest && Arriving(s, id) && s.sessions[id].sync.Some?
    ensures Core(EnqueueMulti(s, id, s.pops[|s.pops| - 1]), loose, rest)
  {
    hide Core, Deliver, IsItem, EnqueueMulti, Aside, ReadyToDeliver, ClientOk, SentOk, ItemsOk, ViewOk;
    CoreSession(s, id, loose, [id] + rest);
    var p := s.pops[|s.pops| - 1];
    var c := s.sessions[id];
    var c0 := Enqueued(c, p).(sync := None);
    InboxArrives(s.cfg.table, c, s.pops);
    assert c.inbox == [];
    hide InboxOk, SyncOk;
    SyncIsDeliverable(s, id, c0, 0);
    EnqueueMultiDelivers(s, id, p);
    DeliverMultiKeeps(s, id, c0, c.sync.value.command, loose, [id] + rest, rest);
  }

  lemma EnqueueMultiWaits(s: State, id: int, p: Bytes)
    requires id in s.sessions && |s.sessions[id].inbox| < s.cfg.inboxEntries && s.sessions[id].sync.None?
    ensures var r := Put(s, id, Enqueued(s.sessions[id], p).(sync := None));
            EnqueueMulti(s, id, p) == (if s.sessions[id].inbox == [] then Hint(r, id) else r)
  {
    hide Deliver, Aside, Remove, Hint;
  }

  lemma ArrivedKeeps(s: State, id: int, c0: Session, rest: seq<int>, loose: bool)
    requires Core(s, loose, [id] + rest) && id !in rest && id in s.sessions && s.sessions[id].sync.None?
    requires c0 == s.sessions[id].(inbox := c0.inbox) && InboxOk(s.cfg.table, c0, s.pops, 0)
    ensures Core(Put(s, id, c0), loose, rest)
  {
    hide Core, InboxOk, SwapOk;
    ArriveSwap(s, id, c0, loose, [id] + rest);
    SwapKeeps(s, id, c0, Put(s, id, c0), loose, [id] + rest, rest);
  }

  lemma ArriveWaits(s: State, id: int, rest: seq<int>, loose: bool)
    requires Core(s, loose, [id] + rest) && id !in rest && Arriving(s, id) && s.sessions[id].sync.None?
    ensures Core(EnqueueMulti(s, id, s.pops[|s.pops| - 1]), loose, rest)
  {
    hide Core, IsItem, EnqueueMulti, Hint, Aside, ClientOk, SentOk, ItemsOk, SyncOk, InboxOk, ViewOk;
    CoreSession(s, id, loose, [id] + rest);
    var p := s.pops[|s.pops| - 1];
    var c0 := Enqueued(s.sessions[id], p).(sync := None);
    InboxArrives(s.cfg.table, s.sessions[id], s.pops);
    ArrivedKeeps(s, id, c0, rest, loose);
    HintKeeps(Put(s, id, c0), id, loose, rest);
    EnqueueMultiWaits(s, id, p);
  }

  lemma ArriveKeeps(s: State, id: int, rest: seq<int>, loose: bool)
    requires Core(s, loose, [id] + rest) && id !in rest && Arriving(s, id)
    ensures Core(EnqueueMulti(s, id, s.pops[|s.pops| - 1]), loose, rest)
  {
    hide Core, EnqueueMulti, IsItem;
    if s.sessions[id].sync.Some? {
      ArriveAnswers(s, id, rest, loose);
    } else {
      ArriveWaits(s, id, rest, loose);
    }
  }

  lemma ArriveSwap(s: State, id: int, c0: Session, loose: bool, behind: seq<int>)
    requires Core(s, loose, behind) && id in s.sessions && s.sessions[id].sync.None?
    requires c0 == s.sessions[id].(inbox := c0.inbox) && InboxOk(s.cfg.table, c0, s.pops, 0)
    ensures SwapOk(s, id, c0, loose, 0)
  {
    hide TxnOk, WireOk, SigningOk, AirOk, SlotsOk, RosterOk, RemoteOk, SentOk, TxnsOk, OrphanOk, StatusOk, InboxOk;
    assert ClientOk(s.cfg, s.sessions[id], Current(s.up.active, id), Owns(s.up.active, id));
    assert SentOk(s.cfg.table, s.up.wire, s.sessions[id].log.sent, id);
  }

  lemma {:induction false} EnqueueAllKeeps(s: State, ids: seq<int>, loose: bool)
    requires Core(s, loose, ids) && Distinct(ids)
    requires forall x | x in ids && x in s.sessions :: s.sessions[x].slot.None?
    requires s.pops != [] && IsItem(s.cfg.table, s.pops[|s.pops| - 1])
    ensures Core(EnqueueAll(s, ids, s.pops[|s.pops| - 1]), loose, [])
    decreases |ids|
  {
    hide Core, IsItem;
    if ids != [] {
      var p := s.pops[|s.pops| - 1];
      var r := EnqueueMulti(s, ids[0], p);
      assert ids == [ids[0]] + ids[1..];
      EnqueueMultiKeeps(s, ids[0], ids[1..], loose);
      hide EnqueueMulti;
      EnqueueAllKeeps(r, ids[1..], loose);
    }
  }
}
