/**
 The broker: its state, and one function per event handler and helper of the source. Fields
 marked history record what happened; no decision depends on them.
 */
module Broker {
  import opened Wire
  import opened Protocol
  import opened Leases
  import opened Slots
  import AckRing
  import Dedup

  datatype Config = Config(
    table: Table, selfKey: Bytes, slotIds: seq<int>,
    commandLimit: nat, inboxEntries: nat, offlineQueueSize: nat, outputFrames: nat,
    commandAge: Time, syncTimeout: Time, writeTimeout: Time, responseTimeout: Time, contactsTimeout: Time,
    signingTimeout: Time, uncertaintyTimeout: Time, pollInterval: Time,
    deduplicate: bool, keyExport: bool, keyImport: bool, factoryReset: bool)

  ghost predicate ConfigOk(c: Config) {
    && TableOk(c.table)
    && c.commandLimit > 0 && c.inboxEntries > 0 && c.offlineQueueSize > 0 && c.outputFrames > 0
    && c.commandAge > 0 && c.syncTimeout > 0 && c.writeTimeout > 0 && 0 < c.responseTimeout <= c.contactsTimeout
    && c.signingTimeout > 0 && c.uncertaintyTimeout > 0 && c.pollInterval > 0
    && |c.selfKey| >= 6
    && (forall i, j | 0 <= i < j < |c.slotIds| :: c.slotIds[i] != c.slotIds[j])
  }

  // ----- Sessions -----

  datatype Queued = Queued(payload: Bytes, at: Time)

  /** `command` and `registered` are history: the sync command waiting, and how much had crossed
      the upstream connection when it was registered. */
  datatype PendingSync = PendingSync(minimumPop: int, deadline: Time, command: Bytes, registered: nat)

  /** Why a frame went to a client. */
  datatype Cause =
    | Local                                   // decided by the broker alone
    | Reply(k: nat)                           // the reply at that place of the upstream history
    | FromInbox(item: Bytes)                  // the client's oldest inbox item
    | Empty(registered: nat, asked: nat)      // a pop asked there found the physical inbox empty

  datatype Role =
    | Answer(command: Bytes, cause: Cause)    // ends that command
    | Part(cause: Cause)                      // a frame of a reply stream that is not its last
    | Result(command: Bytes, tag: nat)        // the late radio result of that accepted command
    | Notice                                  // any other push

  datatype Out = Out(payload: Bytes, role: Role)

  /** History of one session: what it submitted and was sent, and the inbox items it took. `joined` is
      where the stream it reads from stood when it came: the popped items for a multi-client
      session, the items its slot had delivered for a dedicated one. `handed` is the orphan. */
  datatype Log = Log(submitted: seq<Bytes>, sent: seq<Out>, joined: nat, handed: seq<Bytes>, taken: seq<Bytes>)

  datatype Session = Session(
    slot: Option<int>, commands: seq<Queued>, inbox: seq<Bytes>, writes: map<int, Time>, target: Byte,
    scope: Bytes, sync: Option<PendingSync>, hint: Option<int>, log: Log)

  // ----- Upstream -----

  datatype Step = Command | Setup | Restore | MaintenanceResult

  /** `want` is the scope the command must run under, read from its owner's session at dispatch.
      `born` is history: the place of the transaction's first frame in the upstream history. */
  datatype Txn = Txn(
    owner: int, command: Bytes, desc: Descriptor, started: Time, progress: Time, contacts: bool,
    popSeq: int, generation: int, hadMulti: bool, step: Step, scoped: bool, maintenance: bool,
    write: Option<int>, resultWrite: Option<int>, want: Bytes, born: nat)

  datatype JobKind = SetScope | ClientCommand | Pop | ResetScope

  datatype Job = Job(kind: JobKind, owner: int, command: Bytes, want: Bytes)

  /** One frame crossing the upstream connection. Asynchronous pushes are not recorded. */
  datatype WireEvent =
    | Asked(frame: Bytes, job: Job)
    | Got(payload: Bytes)

  /** `wire` is history. */
  datatype Upstream = Upstream(active: Option<Txn>, writes: map<int, Time>, wire: seq<WireEvent>)

  datatype Drain = Drain(requested: bool, authorized: bool, popSeq: int, generation: int)

  /** History of one companion: `log`, the calls made on the acknowledgement ring and its quarantine;
      `heard`, the items popped from it; `since`, how many items had been kept when it was met. */
  datatype RadioState = RadioState(
    air: AckRing.Radio, remote: Remote, seen: seq<string>, log: seq<AckRing.Call>, heard: seq<Bytes>, since: nat)

  datatype Action =
    | SendFrame(session: int, writeId: int, payload: Bytes)
    | CloseSession(session: int)
    | EndEpoch

  /** `ids` is the key order of the session table. History: `pops`, the items taken from physical
      inboxes and not discarded as duplicates; `base`, how many items the companion had given before
      this epoch; `actions`. `fault` records an exception no handler catches. */
  datatype State = State(
    cfg: Config, epoch: int, now: Time, failed: bool, fault: bool,
    sessions: map<int, Session>, ids: seq<int>, order: seq<int>, nextWrite: int,
    up: Upstream, debt: Option<Txn>, drain: Drain, lastPoll: Time,
    orphan: Option<Bytes>, slots: map<int, Slot>, radio: RadioState, signing: Signing,
    pops: seq<Bytes>, base: nat, actions: seq<Action>)

  function Fresh(cfg: Config, epoch: int, now: Time, orphan: Option<Bytes>, slots: map<int, Slot>,
                 radio: RadioState): State {
    State(cfg, epoch, 0, false, false, map[], [], [0], 0, Upstream(None, map[], []), None,
          Drain(false, false, 0, 0), now, orphan, slots, radio, Free, [], |radio.heard|, [])
  }

  function NewSession(slot: Option<int>, joined: nat, handed: seq<Bytes>): Session {
    Session(slot, [], [], map[], 0, DEFAULT_SCOPE, None, None, Log([], [], joined, handed, []))
  }

  function Without(q: seq<int>, id: int): (r: seq<int>)
    ensures forall x :: x in r <==> x in q && x != id
    ensures id !in q ==> r == q
    ensures |r| <= |q|
    ensures Orderly(q, r)
  {
    if q == [] then []
    else
      var rest := Without(q[1..], id);
      ConsOrderly(q, rest);
      (if q[0] == id then [] else [q[0]]) + rest
  }

  lemma ConsOrderly(q: seq<int>, rest: seq<int>)
    requires q != [] && Orderly(q[1..], rest) && forall x | x in rest :: x in q[1..]
    ensures Orderly(q, rest) && Orderly(q, [q[0]] + rest)
  {
    forall x, y | Before(q[1..], x, y)
      ensures Before(q, x, y)
    {
      var i, j :| 0 <= i < j < |q[1..]| && q[1..][i] == x && q[1..][j] == y;
      assert q[i + 1] == x && q[j + 1] == y;
    }
    forall x, y | Before([q[0]] + rest, x, y)
      ensures Before(q, x, y)
    {
      var i, j :| 0 <= i < j < |[q[0]] + rest| && ([q[0]] + rest)[i] == x && ([q[0]] + rest)[j] == y;
      assert rest[j - 1] == y && y in rest;
      if i == 0 {
        var k :| 0 <= k < |q[1..]| && q[1..][k] == y;
        assert q[0] == x && q[k + 1] == y;
      } else {
        assert rest[i - 1] == x;
        assert Before(rest, x, y);
      }
    }
  }

  predicate IsActiveOwner(s: State, id: int) {
    s.up.active.Some? && s.up.active.value.owner == id
  }

  predicate AwaitingResultWrite(s: State, id: int) {
    && s.up.active.Some? && s.up.active.value.maintenance
    && s.up.active.value.step.MaintenanceResult? && s.up.active.value.owner == id
  }

  /** How many commands of a session have left its queue. */
  ghost function Handled(c: Session): int {
    |c.log.submitted| - |c.commands|
  }

  /** A session is served: its queue only shrinks, and a sync starts to wait only by leaving it. */
  ghost predicate Moves(c: Session, c': Session) {
    && c'.slot == c.slot && c'.log.joined == c.log.joined && c'.log.handed == c.log.handed
    && c'.log.submitted == c.log.submitted && Handled(c) <= Handled(c')
    && (c'.sync.Some? ==> c.sync.Some? || Handled(c) < Handled(c'))
  }

  ghost predicate Before(q: seq<int>, x: int, y: int) {
    exists i, j :: 0 <= i < j < |q| && q[i] == x && q[j] == y
  }

  /** Nobody overtakes anybody. */
  ghost predicate Orderly(q: seq<int>, q': seq<int>) {
    forall x, y | Before(q', x, y) :: Before(q, x, y)
  }

  /** Draining is wanted only for somebody. */
  ghost predicate Wakeful(s: State) {
    s.drain.requested || s.drain.authorized ==> s.sessions != map[]
  }

  /** Frames were handed only to the companion and to sessions that were there. */
  ghost predicate Spoken(s: State, r: State) {
    forall i | |s.actions| <= i < |r.actions| && r.actions[i].SendFrame? ::
      r.actions[i].session == 0 || r.actions[i].session in s.sessions
  }

  /** No item was popped. */
  ghost predicate Listens(s: State, r: State) {
    && r.pops == s.pops && r.base == s.base && r.radio.seen == s.radio.seen
    && r.radio.heard == s.radio.heard && r.radio.since == s.radio.since
  }

  /** No item was popped, and nothing was accepted for signing. */
  ghost predicate Quietly(s: State, r: State) {
    Listens(s, r) && NothingSigned(s.signing, r.signing)
  }

  /** What every handler keeps, once it has read the clock. */
  ghost predicate Onward(s: State, r: State) {
    && r.cfg == s.cfg && r.epoch == s.epoch && r.now == s.now && s.actions <= r.actions && Spoken(s, r)
    && (s.failed ==> r.failed)
    && (Wakeful(s) ==> Wakeful(r)) && s.drain.popSeq <= r.drain.popSeq
    && (forall id | id in r.sessions :: id in s.sessions && Moves(s.sessions[id], r.sessions[id]))
  }

  /** What failing the epoch and serving clients have in common: the clock, the upstream history and
      the popped items stay, no session appears or changes its kind, and actions are only added. */
  ghost predicate Near(s: State, r: State) {
    && r.cfg == s.cfg && r.epoch == s.epoch && r.now == s.now && r.orphan == s.orphan && Quietly(s, r)
    && r.lastPoll == s.lastPoll && r.up.wire == s.up.wire && r.drain.popSeq == s.drain.popSeq
    && (s.failed ==> r.failed)
    && (!r.failed ==> r.up == s.up && r.debt == s.debt)
    && s.actions <= r.actions && Spoken(s, r)
    && Orderly(s.order, r.order) && (Wakeful(s) ==> Wakeful(r))
    && (forall id | id in r.sessions :: id in s.sessions && Moves(s.sessions[id], r.sessions[id]))
  }

  /** Serving clients leaves the upstream side alone; only a maintenance result that is waiting to
      be written can end the epoch on the way. */
  ghost predicate Aside(s: State, r: State) {
    && Near(s, r)
    && (s.up.active.None? || !s.up.active.value.step.MaintenanceResult? ==>
          r.failed == s.failed && r.up == s.up && r.debt == s.debt)
  }

  /** No session but `id` was touched, though some may have left. */
  ghost predicate Only(s: State, r: State, id: int) {
    forall x | x in r.sessions && x != id :: x in s.sessions && r.sessions[x] == s.sessions[x]
  }

  // ----- Leaving and failing -----

  function DetachSlot(slots: map<int, Slot>, slot: Option<int>, id: int): map<int, Slot> {
    if slot.Some? && slot.value in slots && slots[slot.value].attached == Some(id) then
      slots[slot.value := slots[slot.value].(attached := None)]
    else slots
  }

  function Detach(s: State, id: int): (r: State)
    requires id in s.sessions
    ensures Aside(s, r) && Only(s, r, id)
  {
    var rest := s.sessions - {id};
    s.(sessions := rest, ids := Without(s.ids, id), order := Without(s.order, id),
       slots := DetachSlot(s.slots, s.sessions[id].slot, id),
       radio := s.radio.(remote := RemoteOwnerGone(s.radio.remote, id)),
       signing := if IsActiveOwner(s, id) then s.signing else SigningOwnerGone(s.signing, id),
       drain := if rest == map[] then s.drain.(requested := false, authorized := false) else s.drain,
       actions := s.actions + [CloseSession(id)])
  }

  function DetachAll(s: State, ids: seq<int>): (r: State)
    decreases |ids|
    ensures Aside(s, r) && forall x | x in r.sessions :: x in s.sessions && r.sessions[x] == s.sessions[x]
  {
    if ids == [] then s
    else DetachAll(if ids[0] in s.sessions then Detach(s, ids[0]) else s, ids[1..])
  }

  /** What a lost connection leaves behind of the radio work in flight. */
  function AfterLoss(r: RadioState, active: Option<Txn>, now: Time, timeout: Time): RadioState {
    if active.None? then r
    else
      var t := active.value;
      if t.step.Setup? then Abandon(r, t)
      else if !t.step.Command? || !(t.desc.remoteLease || PlainDm(t.command)) then r
      else
        var air := AckRing.Quarantine(r.air, now, timeout, PlainDm(t.command));
        var disowned := Disown(r.remote, air.until.value);
        r.(air := air, log := r.log + [AckRing.Lost(now, PlainDm(t.command))],
           remote := if t.desc.remoteLease && disowned.Some? then disowned.value else r.remote)
  }

  /** The debt a failure leaves: the command whose reply is still awaited. */
  function DebtAfter(debt: Option<Txn>, active: Option<Txn>): Option<Txn> {
    if active.Some? && !active.value.step.MaintenanceResult? && debt.None? then active else debt
  }

  function FailEpoch(s: State): (r: State)
    ensures Near(s, r) && forall x | x in r.sessions :: x in s.sessions && r.sessions[x] == s.sessions[x]
  {
    if s.failed then s
    else
      var t := s.up.active;
      var marked := s.(failed := true, debt := DebtAfter(s.debt, t),
                       radio := AfterLoss(s.radio, t, s.now, s.cfg.uncertaintyTimeout));
      var empty := DetachAll(marked, marked.ids);
      // Removing the owner of a delivered maintenance result finishes its transaction.
      var signing := if t.Some? && t.value.owner in s.sessions && t.value.owner in s.ids
                        && AwaitingResultWrite(s, t.value.owner)
                     then SigningOwnerGone(empty.signing, t.value.owner) else empty.signing;
      empty.(signing := signing, up := empty.up.(active := None, writes := map[]),
             actions := empty.actions + [EndEpoch])
  }

  function Finish(s: State, t: Txn): (r: State)
    ensures Onward(s, r) && Orderly(s.order, r.order) && Quietly(s, r)
  {
    var released := s.(up := s.up.(active := None),
                       signing := if t.owner in s.sessions then s.signing else SigningOwnerGone(s.signing, t.owner));
    if t.maintenance then FailEpoch(released) else released
  }

  function Remove(s: State, id: int): (r: State)
    ensures Aside(s, r) && Only(s, r, id)
  {
    if id !in s.sessions then s
    else
      var gone := Detach(s, id);
      if AwaitingResultWrite(gone, id) then Finish(gone, gone.up.active.value) else gone
  }

  // ----- Output to clients -----

  predicate HasRoom(s: State, id: int) {
    id in s.sessions && |s.sessions[id].writes| < s.cfg.outputFrames
  }

  function Put(s: State, id: int, c: Session): State {
    s.(sessions := s.sessions[id := c])
  }

  function Written(c: Session, w: int, deadline: Time, o: Out): Session {
    c.(writes := c.writes[w := deadline], log := c.log.(sent := c.log.sent + [o]))
  }

  /** A frame accepted into the session's output. */
  function Write(s: State, id: int, o: Out): (r: State)
    requires id in s.sessions
    ensures Aside(s, r) && Only(s, r, id)
  {
    var w := s.nextWrite + 1;
    Put(s, id, Written(s.sessions[id], w, s.now + s.cfg.writeTimeout, o)).(
      nextWrite := w, actions := s.actions + [SendFrame(id, w, o.payload)])
  }

  function Emit(s: State, id: int, o: Out): (r: State)
    ensures Aside(s, r) && Only(s, r, id)
  {
    if HasRoom(s, id) then Write(s, id, o) else Remove(s, id)
  }

  function Hint(s: State, id: int): (r: State)
    ensures Aside(s, r) && Only(s, r, id)
  {
    if id !in s.sessions || s.sessions[id].hint.Some? then s
    else if HasRoom(s, id) then
      var r := Write(s, id, Out(WAITING, Notice));
      Put(r, id, r.sessions[id].(hint := Some(r.nextWrite)))
    else Remove(s, id)
  }

  function HintAll(s: State, ids: seq<int>): (r: State)
    decreases |ids|
    ensures Aside(s, r)
  {
    if ids == [] then s else HintAll(Hint(s, ids[0]), ids[1..])
  }

  function Broadcast(s: State, ids: seq<int>, p: Bytes): (r: State)
    decreases |ids|
    ensures Aside(s, r)
  {
    if ids == [] then s else Broadcast(Emit(s, ids[0], Out(p, Notice)), ids[1..], p)
  }

  /** Taking the head of a session's queue. */
  function Shift(c: Session): Session
    requires c.commands != []
  {
    c.(commands := c.commands[1..])
  }

  /** The head command answered by the broker itself. */
  function AnswerHead(s: State, id: int, p: Bytes): (r: State)
    requires id in s.sessions && s.sessions[id].commands != []
    ensures Aside(s, r) && Only(s, r, id)
  {
    var c := s.sessions[id];
    Emit(Put(s, id, Shift(c)), id, Out(p, Answer(c.commands[0].payload, Local)))
  }

  function InboxOf(s: State, id: int): seq<Bytes>
    requires id in s.sessions
  {
    var c := s.sessions[id];
    if c.slot.None? then c.inbox else if c.slot.value in s.slots then s.slots[c.slot.value].queue else []
  }

  function Took(c: Session, item: Bytes): Session {
    c.(log := c.log.(taken := c.log.taken + [item]))
  }

  /** Consuming the oldest inbox item, once output has taken it. */
  function Consume(s: State, id: int): (r: State)
    requires id in s.sessions
    ensures Aside(s, r) && Only(s, r, id)
  {
    var c := s.sessions[id];
    if c.slot.None? then
      if c.inbox == [] then s
      else Put(s, id, Took(c, c.inbox[0]).(inbox := c.inbox[1..]))
    else
      var d := c.slot.value;
      if d in s.slots && s.slots[d].queue != [] then
        Put(s, id, Took(c, s.slots[d].queue[0])).(slots := s.slots[d := Take(s.slots[d])])
      else s
  }

  /** The oldest inbox item sent as the answer to `command`. */
  function Deliver(s: State, id: int, command: Bytes): (r: State)
    requires id in s.sessions
    ensures Aside(s, r) && Only(s, r, id)
  {
    var q := InboxOf(s, id);
    if q == [] || !s.cfg.table.responseShape(q[0]) then s.(fault := true)
    else if HasRoom(s, id) then
      Consume(Write(s, id, Out(Downgrade(q[0], s.sessions[id].target), Answer(command, FromInbox(q[0])))), id)
    else Remove(s, id)
  }

  // ----- Virtual inbox -----

  function Enqueued(c: Session, p: Bytes): Session {
    c.(inbox := c.inbox + [p])
  }

  function EnqueueMulti(s: State, id: int, p: Bytes): (r: State)
    ensures Aside(s, r) && Only(s, r, id)
  {
    if id !in s.sessions then s
    else
      var c := s.sessions[id];
      if |c.inbox| >= s.cfg.inboxEntries then Remove(s, id)
      else
        var r := Put(s, id, Enqueued(c, p).(sync := None));
        if c.sync.Some? then Deliver(r, id, c.sync.value.command)
        else if c.inbox == [] then Hint(r, id)
        else r
  }

  function EnqueueAll(s: State, ids: seq<int>, p: Bytes): (r: State)
    decreases |ids|
    ensures Aside(s, r)
  {
    if ids == [] then s else EnqueueAll(EnqueueMulti(s, ids[0], p), ids[1..], p)
  }

  function OfferSlot(s: State, d: int, p: Bytes): (r: State)
    ensures Aside(s, r)
  {
    if d !in s.slots then s
    else
      var was := s.slots[d];
      var r := s.(slots := s.slots[d := Enqueue(was, p, s.cfg.offlineQueueSize)]);
      if Discards(was, s.cfg.offlineQueueSize) || was.attached.None? || was.attached.value !in s.sessions then r
      else
        var id := was.attached.value;
        var c := s.sessions[id];
        if c.sync.Some? then Deliver(Put(r, id, c.(sync := None)), id, c.sync.value.command)
        else if was.queue == [] then Hint(r, id)
        else r
  }

  function FanOut(s: State, ds: seq<int>, p: Bytes): (r: State)
    decreases |ds|
    ensures Aside(s, r)
  {
    if ds == [] then s else FanOut(OfferSlot(s, ds[0], p), ds[1..], p)
  }

  function MultiIds(s: State, ids: seq<int>): (r: seq<int>)
    ensures forall x :: x in r <==> x in ids && x in s.sessions && s.sessions[x].slot.None?
  {
    if ids == [] then []
    else (if ids[0] in s.sessions && s.sessions[ids[0]].slot.None? then [ids[0]] else []) + MultiIds(s, ids[1..])
  }

  predicate AnySync(s: State) {
    exists id | id in s.sessions :: s.sessions[id].sync.Some?
  }

  /** An empty physical inbox answers the waits old enough to be covered by that pop. */
  function SettleOne(s: State, id: int, t: Txn): (r: State)
    ensures Aside(s, r) && Only(s, r, id)
  {
    if id in s.sessions && s.sessions[id].sync.Some? && s.sessions[id].sync.value.minimumPop <= t.popSeq then
      var c := s.sessions[id];
      Emit(Put(s, id, c.(sync := None)), id,
           Out(NO_MORE, Answer(c.sync.value.command, Empty(c.sync.value.registered, t.born))))
    else s
  }

  function SettleEmpty(s: State, ids: seq<int>, t: Txn): (r: State)
    decreases |ids|
    ensures Aside(s, r)
  {
    if ids == [] then s else SettleEmpty(SettleOne(s, ids[0], t), ids[1..], t)
  }

  function SetDrain(s: State, requested: bool, authorized: bool): State {
    s.(drain := s.drain.(requested := requested, authorized := authorized))
  }

  /** One item handed to every dedicated slot and to every multi-client session, or kept as the
      orphan when the multi-client sessions it was popped for have left. */
  function Spread(s: State, t: Txn, p: Bytes): (r: State)
    ensures Onward(s, r) && Orderly(s.order, r.order) && NothingSigned(s.signing, r.signing)
  {
    var r := FanOut(s, s.cfg.slotIds, p);
    var multi := MultiIds(r, r.ids);
    if multi == [] && t.hadMulti then r.(orphan := Some(p)) else EnqueueAll(r, multi, p)
  }

  /** The physical inbox was empty: covered waits are answered, and draining goes on if there is reason. */
  function PopEmpty(s: State, t: Txn): (r: State)
    ensures Onward(s, r) && Orderly(s.order, r.order) && NothingSigned(s.signing, r.signing)
  {
    var r := SettleEmpty(s, s.ids, t);
    var more := (r.drain.generation > t.generation || AnySync(r)) && r.sessions != map[];
    SetDrain(r, more, more)
  }

  function PopResult(s: State, t: Txn, p: Bytes): (r: State)
    ensures Onward(s, r) && Orderly(s.order, r.order) && NothingSigned(s.signing, r.signing)
  {
    if Opcode(p) == RESP_NO_MORE_MESSAGES then PopEmpty(s, t)
    else if s.cfg.deduplicate && Dedup.Duplicate(s.radio.seen, p) then
      SetDrain(s.(radio := s.radio.(heard := s.radio.heard + [p])),
               s.drain.authorized && s.sessions != map[], s.drain.authorized)
    else
      var seen := if s.cfg.deduplicate then Dedup.Remember(s.radio.seen, p) else s.radio.seen;
      var r := Spread(s.(radio := s.radio.(seen := seen, heard := s.radio.heard + [p]), pops := s.pops + [p]), t, p);
      SetDrain(r, r.drain.authorized && r.sessions != map[], r.drain.authorized)
  }

  // ----- Scheduling -----

  datatype LocalAction = Refuse(p: Bytes) | Sync | Rescope | Forward

  /** What the broker does by itself with the head of a queue. */
  function Decide(cfg: Config, q: Queued, now: Time): LocalAction {
    if CommandError(cfg.table, q.payload).Some? then Refuse(Err(CommandError(cfg.table, q.payload).value))
    else if now - q.at >= cfg.commandAge then Refuse(Err(ERR_BAD_STATE))
    else if Opcode(q.payload) == CMD_SYNC_NEXT_MESSAGE then Sync
    else if Opcode(q.payload) == CMD_SET_FLOOD_SCOPE_KEY then Rescope
    else if Opcode(q.payload) == CMD_EXPORT_PRIVATE_KEY && !cfg.keyExport then Refuse(DISABLED)
    else if Opcode(q.payload) == CMD_IMPORT_PRIVATE_KEY && !cfg.keyImport then Refuse(Err(ERR_UNSUPPORTED_CMD))
    else if Opcode(q.payload) == CMD_FACTORY_RESET && !cfg.factoryReset then Refuse(Err(ERR_UNSUPPORTED_CMD))
    else Forward
  }

  function Register(s: State, id: int): (r: State)
    requires id in s.sessions && s.sessions[id].commands != []
    ensures Aside(s, r) && Only(s, r, id)
  {
    var c := s.sessions[id];
    var sync := PendingSync(s.drain.popSeq + 1, s.now + s.cfg.syncTimeout, c.commands[0].payload, |s.up.wire|);
    var r := Put(s, id, Shift(c).(sync := Some(sync))).(
               drain := s.drain.(requested := true, authorized := true, generation := s.drain.generation + 1));
    assert id in r.sessions;
    r
  }

  function AnswerRescope(s: State, id: int): (r: State)
    requires id in s.sessions && s.sessions[id].commands != []
    ensures Aside(s, r) && Only(s, r, id)
  {
    var c := s.sessions[id];
    var q := c.commands[0].payload;
    Emit(Put(s, id, Shift(c).(scope := q)), id, Out(OK, Answer(q, Local)))
  }

  function DeliverHead(s: State, id: int): (r: State)
    requires id in s.sessions && s.sessions[id].commands != []
    ensures Aside(s, r) && Only(s, r, id)
  {
    var c := s.sessions[id];
    Deliver(Put(s, id, Shift(c)), id, c.commands[0].payload)
  }

  /** One local decision about the head of a queue. */
  function LocalHead(s: State, id: int): (r: State)
    requires id in s.sessions && s.sessions[id].commands != []
    ensures Aside(s, r) && Only(s, r, id)
  {
    match Decide(s.cfg, s.sessions[id].commands[0], s.now)
    case Forward => s
    case Refuse(p) => AnswerHead(s, id, p)
    case Rescope => AnswerRescope(s, id)
    case Sync => if InboxOf(s, id) == [] then Register(s, id) else DeliverHead(s, id)
  }

  predicate Idle(s: State, id: int) {
    id !in s.sessions || s.sessions[id].sync.Some? || s.sessions[id].commands == []
  }

  /** At most `n` local decisions for one session, until one of its commands must go upstream. */
  function LocalHeads(s: State, id: int, n: nat): (r: State)
    decreases n
    ensures Aside(s, r) && Only(s, r, id)
  {
    if n == 0 || Idle(s, id) || Decide(s.cfg, s.sessions[id].commands[0], s.now).Forward? then s
    else LocalHeads(LocalHead(s, id), id, n - 1)
  }

  function LocalPass(s: State, ids: seq<int>): (r: State)
    decreases |ids|
    ensures Aside(s, r)
  {
    if ids == [] then s
    else
      var id := ids[0];
      var r := if id !in s.sessions || s.sessions[id].sync.Some? || IsActiveOwner(s, id) then s
               else LocalHeads(s, id, |s.sessions[id].commands|);
      LocalPass(r, ids[1..])
  }

  /** A frame handed to the upstream writer on behalf of transaction `t`. */
  function SendStep(s: State, t: Txn, step: Step, frame: Bytes, kind: JobKind): (r: State)
    ensures Onward(s, r) && Orderly(s.order, r.order) && Quietly(s, r)
  {
    var w := s.nextWrite + 1;
    s.(nextWrite := w,
       up := Upstream(Some(t.(step := step, write := Some(w))), s.up.writes[w := s.now + s.cfg.writeTimeout],
                      s.up.wire + [Asked(frame, Job(kind, t.owner, t.command, t.want))]),
       actions := s.actions + [SendFrame(0, w, frame)])
  }

  function SendCommand(s: State, t: Txn): (r: State)
    ensures Onward(s, r) && Orderly(s.order, r.order) && Quietly(s, r)
  {
    SendStep(s, t, Command, Forwarded(t.command), if t.owner == 0 then Pop else ClientCommand)
  }

  predicate HasMulti(s: State) {
    exists id | id in s.sessions :: s.sessions[id].slot.None?
  }

  function NewTxn(s: State, owner: int, c: Bytes, d: Descriptor): Txn {
    var want := if owner in s.sessions && d.scopeSend then s.sessions[owner].scope else DEFAULT_SCOPE;
    Txn(owner, c, d, s.now, s.now, false, if owner == 0 then s.drain.popSeq else 0,
        if owner == 0 then s.drain.generation else 0, owner == 0 && HasMulti(s), Command, want != DEFAULT_SCOPE,
        d.maintenance, None, None, want, |s.up.wire|)
  }

  function Dispatch(s: State, owner: int, c: Bytes): (r: State)
    ensures Onward(s, r) && Orderly(s.order, r.order) && Quietly(s, r)
  {
    if s.cfg.table.descriptor(c).None? then s.(fault := true)
    else
      var t := NewTxn(s, owner, c, s.cfg.table.descriptor(c).value);
      if t.scoped then SendStep(s, t, Setup, t.want, SetScope) else SendCommand(s, t)
  }

  /** Shared-resource admission of a command: the leases after the check, and a refusal if any. */
  datatype Verdict = Verdict(radio: RadioState, signing: Signing, reason: Option<Byte>, fault: bool)

  function Inquire(r: RadioState, now: Time): RadioState {
    r.(air := AckRing.AfterCheck(r.air, now), log := r.log + [AckRing.Checked(now)])
  }

  function Admission(s: State, owner: int, c: Bytes): (v: Verdict)
    ensures v.radio.seen == s.radio.seen && v.radio.heard == s.radio.heard && v.radio.since == s.radio.since
    ensures NothingSigned(s.signing, v.signing)
  {
    var bad := Some(ERR_BAD_STATE);
    if s.cfg.table.descriptor(c).None? || c == [] then Verdict(s.radio, s.signing, None, true)
    else
      var d := s.cfg.table.descriptor(c).value;
      var asked := Inquire(s.radio, s.now);
      var shut := AckRing.Quarantined(s.radio.air, s.now);
      if d.maintenance && c[0] != CMD_REBOOT then
        var remote := Expire(asked.remote, s.now);
        var signing := ExpireSigning(s.signing, s.now, s.cfg.signingTimeout);
        if |s.sessions| != 1 then Verdict(s.radio, s.signing, bad, false)
        else if shut then Verdict(asked, s.signing, bad, false)
        else if remote.Held? || AckRing.AnyPending(asked.air.ring, s.now) then
          Verdict(asked.(remote := remote), s.signing, bad, false)
        else Verdict(asked.(remote := remote), signing, if signing.Busy? then bad else None, false)
      else if PlainDm(c) then
        if shut || !AckRing.FreeSlot(asked.air.ring, s.now) then Verdict(asked, s.signing, bad, false)
        else Verdict(asked.(log := asked.log + [AckRing.Launched(s.now)]), s.signing, None, false)
      else if d.remoteLease then
        if shut then Verdict(asked, s.signing, bad, false)
        else
          var reserved := Reserve(asked.remote, owner, c, s.now);
          Verdict(asked.(remote := reserved.0), s.signing,
                  if reserved.1.Conflict? then bad else None, reserved.1.Unfit?)
      else if c[0] == CMD_SIGN_START then
        var started := StartSigning(s.signing, owner, s.now, s.cfg.signingTimeout);
        Verdict(s.radio, started.0, if started.1 then None else bad, false)
      else if c[0] == CMD_SIGN_DATA then
        var begun := BeginData(s.signing, owner, c, s.now, s.cfg.signingTimeout);
        Verdict(s.radio, begun.0, begun.1, |c| < 2)
      else if c[0] == CMD_SIGN_FINISH then
        var begun := BeginFinish(s.signing, owner, s.now, s.cfg.signingTimeout);
        Verdict(s.radio, begun.0, begun.1, false)
      else Verdict(s.radio, s.signing, None, false)
  }

  /** The leases after an admission. */
  function Charged(s: State, v: Verdict): (r: State)
    requires v.radio.seen == s.radio.seen && v.radio.heard == s.radio.heard && v.radio.since == s.radio.since
    requires NothingSigned(s.signing, v.signing)
    ensures Onward(s, r) && Orderly(s.order, r.order) && Quietly(s, r)
  {
    s.(radio := v.radio, signing := v.signing, fault := s.fault || v.fault)
  }

  /** The head of a queue put through admission: dispatched, or refused. */
  function Launch(s: State, id: int): (r: State)
    requires id in s.sessions && s.sessions[id].commands != []
    ensures Onward(s, r) && Orderly(s.order, r.order) && Quietly(s, r)
  {
    var c := s.sessions[id].commands[0].payload;
    var r := Charged(s, Admission(s, id, c));
    var reason := Admission(s, id, c).reason;
    if reason.Some? then AnswerHead(r, id, Err(reason.value)) else Dispatch(Put(r, id, Shift(s.sessions[id])), id, c)
  }

  function LaunchPop(s: State): (r: State)
    ensures Onward(s, r) && Orderly(s.order, r.order) && Quietly(s, r)
  {
    Dispatch(s.(drain := s.drain.(requested := false, popSeq := s.drain.popSeq + 1)), 0, POP)
  }

  /** Whose turn it is goes to the back of the order. */
  function Turn(s: State): State
    requires s.order != []
  {
    s.(order := s.order[1..] + [s.order[0]])
  }

  function Serve(s: State, id: int): (r: State)
    ensures Onward(s, r) && Orderly(s.order, r.order) && Quietly(s, r)
  {
    if id == 0 then if s.drain.requested && s.sessions != map[] then LaunchPop(s) else s
    else if id !in s.sessions || s.sessions[id].sync.Some? || s.sessions[id].commands == [] then s
    else Launch(s, id)
  }

  function Rotate(s: State, n: nat): (r: State)
    decreases n
    ensures Onward(s, r) && Quietly(s, r)
  {
    if n == 0 || s.order == [] then s
    else
      var r := Serve(Turn(s), s.order[0]);
      if r.up.active.Some? then r else Rotate(r, n - 1)
  }

  function Schedule(s: State, now: Time): (r: State)
    ensures s.actions <= r.actions && Spoken(s, r)
    ensures r.cfg == s.cfg && Quietly(s, r) && (Wakeful(s) ==> Wakeful(r)) && s.drain.popSeq <= r.drain.popSeq
  {
    if s.failed then s
    else
      var s1 := s.(now := now);
      if s1.up.active.Some? && s1.up.active.value.maintenance then s1
      else
        var s2 := LocalPass(s1, s1.ids);
        if s2.up.active.Some? then s2 else Rotate(s2, |s2.order|)
  }

  // ----- Upstream replies -----

  /** A reply proves the write of the current step complete. */
  function SettleWrite(s: State): (r: State)
    ensures Onward(s, r) && Orderly(s.order, r.order) && Quietly(s, r)
  {
    if s.up.active.None? || s.up.active.value.write.None? then s
    else
      var t := s.up.active.value;
      var t' := t.(write := None,
                   started := if t.step.Command? && t.desc.grammar.Contacts? && !t.contacts then s.now else t.started);
      s.(up := s.up.(active := Some(t'), writes := s.up.writes - {t.write.value}))
  }

  function Heard(s: State, p: Bytes): State {
    s.(up := s.up.(wire := s.up.wire + [Got(p)]))
  }

  function SetActive(s: State, t: Txn): State {
    s.(up := s.up.(active := Some(t)))
  }

  /** What the final reply to a command means for the leases. */
  function Outcome(r: RadioState, g: Signing, t: Txn, p: Bytes, now: Time): Verdict {
    var c := t.command;
    if PlainDm(c) && Opcode(p) == RESP_SENT then
      if |p| != 10 || (U32(p, 2) != 0 && !AckRing.FreeSlot(r.air.ring, now)) then Verdict(r, g, None, true)
      else
        var ring := AckRing.Insert(r.air.ring, U32(p, 2), RetainedDeadline(now, U32(p, 6)));
        Verdict(r.(air := r.air.(ring := ring), log := r.log + [AckRing.Accepted(U32(p, 2), U32(p, 6), now)]),
                g, None, false)
    else if PlainDm(c) then Verdict(r.(log := r.log + [AckRing.Refused]), g, None, false)
    else if t.desc.remoteLease then
      if Opcode(p) == RESP_SENT then
        var accepted := AcceptRemote(r.remote, p, now);
        Verdict(if accepted.Some? then r.(remote := accepted.value) else r, g, None, accepted.None?)
      else Verdict(r.(remote := Vacant), g, None, false)
    else if Opcode(c) == CMD_SIGN_START then
      if Opcode(p) == RESP_SIGN_START then SigningVerdict(r, g, AcceptStart(g, p, now))
      else Verdict(r, Free, None, false)
    else if Opcode(c) == CMD_SIGN_DATA then SigningVerdict(r, g, DataResponse(g, p, now))
    else if Opcode(c) == CMD_SIGN_FINISH then SigningVerdict(r, g, FinishResponse(g, p, now))
    else Verdict(r, g, None, false)
  }

  function SigningVerdict(r: RadioState, g: Signing, g': Option<Signing>): Verdict {
    Verdict(r, if g'.Some? then g'.value else g, None, g'.None?)
  }

  function RecordAcceptance(s: State, t: Txn, p: Bytes): (r: State)
    ensures Onward(s, r) && Orderly(s.order, r.order) && Listens(s, r)
  {
    var v := Outcome(s.radio, s.signing, t, p, s.now);
    s.(radio := v.radio, signing := v.signing, fault := s.fault || v.fault)
  }

  /** The command of a scoped transaction never left: its radio reservations are given up. */
  function Abandon(r: RadioState, t: Txn): RadioState {
    r.(remote := if t.desc.remoteLease then Vacant else r.remote,
       log := if PlainDm(t.command) then r.log + [AckRing.Refused] else r.log)
  }

  /** Replies to the hidden scope changes around a scoped command. */
  function ScopeResponse(s: State, t: Txn, p: Bytes): (r: State)
    ensures Onward(s, r) && Orderly(s.order, r.order) && Quietly(s, r)
  {
    if !IsScopeReply(p) then FailEpoch(s)
    else
      var k := |s.up.wire|;
      var t' := t.(progress := s.now);
      var r := SetActive(Heard(s, p), t');
      if t.step.Setup? then
        if p[0] == RESP_ERR then
          Finish(Emit(r.(radio := Abandon(r.radio, t)), t.owner, Out(p, Answer(t.command, Reply(k)))), t')
        else SendCommand(r, t')
      else if p[0] != RESP_OK then FailEpoch(r)
      else Finish(r, t')
  }

  /** The end of a client's command: leases, then the hidden restore, the wait for a maintenance
      result to be written, or release. `emitted` is the write of the reply, if the owner took it. */
  function CompleteCommand(s: State, t: Txn, p: Bytes, emitted: Option<int>): (r: State)
    ensures Onward(s, r) && Orderly(s.order, r.order) && Listens(s, r)
  {
    var r := RecordAcceptance(s, t, p);
    if t.scoped then SendStep(r, t, Restore, DEFAULT_SCOPE, ResetScope)
    else if t.maintenance && emitted.Some? then SetActive(r, t.(step := MaintenanceResult, resultWrite := emitted))
    else Finish(r, t)
  }

  /** The transaction once a reply is in: progress, and the start of a contacts stream. */
  function Progressed(t: Txn, p: Bytes, now: Time): Txn {
    t.(progress := now, contacts := t.contacts || (t.desc.grammar.Contacts? && Opcode(p) == RESP_CONTACTS_START))
  }

  function Retarget(s: State, t: Txn, p: Bytes): State {
    if t.owner in s.sessions && |t.command| >= 2 && t.command[0] == CMD_DEVICE_QUERY && Opcode(p) == RESP_DEVICE_INFO
    then Put(s, t.owner, s.sessions[t.owner].(target := t.command[1]))
    else s
  }

  /** The state in which a valid reply to a client's command is passed on. */
  function Relaying(s: State, t: Txn, p: Bytes): (r: State)
    ensures Onward(s, r) && Orderly(s.order, r.order) && Quietly(s, r)
  {
    Retarget(SetActive(Heard(s, p), Progressed(t, p, s.now)), t, p)
  }

  function Relayed(s: State, t: Txn, p: Bytes): Out {
    Out(Visible(p), if Completes(t.desc, p) then Answer(t.command, Reply(|s.up.wire|)) else Part(Reply(|s.up.wire|)))
  }

  /** The state after the reply was handed to its owner. */
  function Handed(s: State, t: Txn, p: Bytes): (r: State)
    ensures Onward(s, r) && Orderly(s.order, r.order) && Quietly(s, r)
  {
    Emit(Relaying(s, t, p), t.owner, Relayed(s, t, p))
  }

  /** The write of the reply, if its owner took it. */
  function HandedAs(s: State, t: Txn, p: Bytes): Option<int> {
    if HasRoom(Relaying(s, t, p), t.owner) then Some(Handed(s, t, p).nextWrite) else None
  }

  /** A valid reply to a client's own command. */
  function ClientReply(s: State, t: Txn, p: Bytes): (r: State)
    ensures Onward(s, r) && Orderly(s.order, r.order) && Listens(s, r)
  {
    var e := Handed(s, t, p);
    if Completes(t.desc, p) then CompleteCommand(e, Progressed(t, p, s.now), p, HandedAs(s, t, p)) else e
  }

  function CommandResponse(s: State, t: Txn, p: Bytes): (r: State)
    ensures Onward(s, r) && Orderly(s.order, r.order)
  {
    if !ValidResponse(s.cfg.table, t.desc, p, t.command, t.contacts) then FailEpoch(s)
    else if t.owner != 0 then ClientReply(s, t, p)
    else if p[0] == RESP_ERR then FailEpoch(Heard(s, p))
    else PopResult(Heard(s, p).(up := Heard(s, p).up.(active := None)), t, p)
  }

  function TxnResponse(s: State, p: Bytes): (r: State)
    ensures Onward(s, r) && Orderly(s.order, r.order)
  {
    if s.up.active.None? then FailEpoch(s)
    else
      var r := SettleWrite(s);
      var t := r.up.active.value;
      match t.step
      case Setup => ScopeResponse(r, t, p)
      case Restore => ScopeResponse(r, t, p)
      case MaintenanceResult => FailEpoch(r)
      case Command => CommandResponse(r, t, p)
  }

  // ----- Pushes -----

  const RESULT_PUSHES: set<Byte> := {PUSH_LOGIN_SUCCESS, PUSH_LOGIN_FAILURE, PUSH_STATUS_RESPONSE, PUSH_TRACE_DATA,
                                     PUSH_TELEMETRY_RESPONSE, PUSH_BINARY_RESPONSE, PUSH_PATH_DISCOVERY_RESPONSE}

  /** A push-coded reply to the active self-telemetry command. */
  predicate IsSelfTelemetry(s: State, p: Bytes) {
    && Opcode(p) == PUSH_TELEMETRY_RESPONSE && |p| >= 8 && |s.cfg.selfKey| >= 6
    && s.up.active.Some? && Opcode(s.up.active.value.command) == CMD_SEND_TELEMETRY_REQ
    && |s.up.active.value.command| == 4
    && p[2..8] == s.cfg.selfKey[..6]
  }

  function RemoteResult(s: State, p: Bytes, now: Time): (r: State)
    ensures Onward(s, r) && Orderly(s.order, r.order) && Quietly(s, r)
  {
    var m := MatchPush(s.radio.remote, p, now);
    var r := s.(radio := s.radio.(remote := m.0), fault := s.fault || m.1.Unreadable?);
    if m.1.Matched? && m.1.owner.Some? then Emit(r, m.1.owner.value, Out(p, Result(m.1.command, m.1.tag))) else r
  }

  function Push(s: State, p: Bytes, now: Time): (r: State)
    ensures Onward(s, r) && Orderly(s.order, r.order)
  {
    if Opcode(p) == PUSH_MSG_WAITING then
      var noted := s.(drain := s.drain.(generation := s.drain.generation + 1,
                                        requested := s.drain.requested || s.drain.authorized));
      HintAll(noted, noted.ids)
    else if Opcode(p) == PUSH_SEND_CONFIRMED then
      if |p| != 9 then s.(fault := true)
      else
        var token := U32(p, 1);
        var settled := s.(radio := s.radio.(air := s.radio.air.(ring := AckRing.Settle(s.radio.air.ring, token)),
                                            log := s.radio.log + [AckRing.Confirmed(token)]));
        Broadcast(settled, settled.ids, p)
    else if Opcode(p) in RESULT_PUSHES then
      if IsSelfTelemetry(s, p) then TxnResponse(s, p) else RemoteResult(s, p, now)
    else Broadcast(s, s.ids, p)
  }

  // ----- Deadlines -----

  predicate ResponseOverdue(s: State, now: Time) {
    && s.up.active.Some?
    && var t := s.up.active.value;
       && !t.step.MaintenanceResult? && t.write.None?
       && (now - t.progress >= s.cfg.responseTimeout ||
           (t.desc.grammar.Contacts? && now - t.started >= s.cfg.contactsTimeout))
  }

  predicate AnyOverdue(writes: map<int, Time>, now: Time) {
    exists w | w in writes :: now >= writes[w]
  }

  function ExpireSession(s: State, id: int): (r: State)
    ensures Aside(s, r) && Only(s, r, id)
  {
    if id !in s.sessions then s
    else if AnyOverdue(s.sessions[id].writes, s.now) then Remove(s, id)
    else
      var c := s.sessions[id];
      if c.sync.Some? && s.now >= c.sync.value.deadline then
        Emit(Put(s, id, c.(sync := None)), id, Out(Err(ERR_BAD_STATE), Answer(c.sync.value.command, Local)))
      else s
  }

  function ExpireSessions(s: State, ids: seq<int>): (r: State)
    decreases |ids|
    ensures Aside(s, r)
  {
    if ids == [] then s else ExpireSessions(ExpireSession(s, ids[0]), ids[1..])
  }

  function ExpireLeases(s: State, now: Time): (r: State)
    ensures Onward(s, r) && Orderly(s.order, r.order) && Quietly(s, r)
  {
    s.(radio := s.radio.(remote := Expire(s.radio.remote, now)),
       signing := if s.up.active.Some? && s.up.active.value.desc.signing then s.signing
                  else ExpireSigning(s.signing, now, s.cfg.signingTimeout))
  }

  // ----- Events -----

  datatype Event =
    | Admit(id: int, slot: Option<int>, now: Time)
    | ClientFrame(id: int, payload: Bytes, now: Time)
    | ClientClosed(id: int, now: Time)
    | WriteDone(id: int, epoch: int, writeId: int, now: Time)
    | WriteFailed(id: int, epoch: int, now: Time)
    | UpstreamFrame(payload: Bytes, now: Time)
    | Tick(now: Time)
    | Fail
    | DrainFrame(payload: Bytes, now: Time)
    | Reconnect(key: Bytes, now: Time)

  function OnAdmit(s: State, id: int, slot: Option<int>, now: Time): (r: State)
    ensures r.cfg == s.cfg && (Wakeful(s) ==> Wakeful(r))
  {
    var s0 := s.(now := now);
    if s.failed || (s.up.active.Some? && s.up.active.value.maintenance) then
      s0.(actions := s0.actions + [CloseSession(id)])
    else if slot.Some? && slot.value !in s.slots then s0.(fault := true)
    else
      var s1 := if slot.Some? && s0.slots[slot.value].attached.Some?
                then Remove(s0, s0.slots[slot.value].attached.value) else s0;
      var s2 := if slot.Some? && slot.value in s1.slots
                then s1.(slots := s1.slots[slot.value := s1.slots[slot.value].(attached := Some(id))]) else s1;
      var handed := if slot.None? && s2.orphan.Some? then [s2.orphan.value] else [];
      var joined := if slot.Some? && slot.value in s2.slots then |s2.slots[slot.value].taken| else |s.pops|;
      var c := NewSession(slot, joined, handed);
      var s3 := s2.(sessions := s2.sessions[id := c], ids := s2.ids + [id], order := s2.order + [id],
                    orphan := if slot.None? then None else s2.orphan);
      var s4 := if handed != [] then EnqueueMulti(s3, id, handed[0]) else s3;
      Schedule(if id in s4.sessions then Hint(s4, id) else s4.(fault := true), now)
  }

  predicate QueueFull(s: State, id: int)
    requires id in s.sessions
  {
    |s.sessions[id].commands| + (if s.sessions[id].sync.Some? then 1 else 0) + (if IsActiveOwner(s, id) then 1 else 0)
      >= s.cfg.commandLimit
  }

  function OnClientFrame(s: State, id: int, p: Bytes, now: Time): (r: State)
    ensures r.cfg == s.cfg && (Wakeful(s) ==> Wakeful(r))
  {
    var s0 := s.(now := now);
    if s.failed || id !in s.sessions then s0
    else if QueueFull(s0, id) then Schedule(Remove(s0, id), now)
    else
      var c := s.sessions[id];
      Schedule(Put(s0, id, c.(commands := c.commands + [Queued(p, now)],
                              log := c.log.(submitted := c.log.submitted + [p]))), now)
  }

  function OnClientClosed(s: State, id: int, now: Time): (r: State)
    ensures r.cfg == s.cfg && (Wakeful(s) ==> Wakeful(r))
  {
    Schedule(Remove(s.(now := now), id), now)
  }

  /** The transaction whose frame has left: its reply is awaited from now on. */
  function Departed(t: Txn, now: Time): Txn {
    t.(write := None, progress := now,
       started := if t.step.Command? && t.desc.grammar.Contacts? && !t.contacts then now else t.started)
  }

  function UpstreamWritten(s: State, w: int, now: Time): (r: State)
    ensures Onward(s, r) && Orderly(s.order, r.order) && Quietly(s, r)
  {
    var t := s.up.active;
    s.(up := s.up.(writes := s.up.writes - {w},
                   active := if t.Some? && t.value.write == Some(w) then Some(Departed(t.value, now)) else t))
  }

  function Acknowledged(c: Session, w: int): Session {
    c.(writes := c.writes - {w}, hint := if c.hint == Some(w) then None else c.hint)
  }

  /** The frame has left the session's output. */
  function WriteAcknowledged(s: State, id: int, w: int): (r: State)
    requires id in s.sessions
    ensures Onward(s, r) && Orderly(s.order, r.order) && Quietly(s, r)
  {
    Put(s, id, Acknowledged(s.sessions[id], w))
  }

  function ClientWritten(s: State, id: int, w: int): (r: State)
    requires id in s.sessions
    ensures Onward(s, r) && Orderly(s.order, r.order) && Quietly(s, r)
  {
    var r := WriteAcknowledged(s, id, w);
    if AwaitingResultWrite(r, id) && r.up.active.value.resultWrite == Some(w) then Finish(r, r.up.active.value) else r
  }

  function OnWriteDone(s: State, id: int, epoch: int, w: int, now: Time): (r: State)
    ensures r.cfg == s.cfg && (Wakeful(s) ==> Wakeful(r))
  {
    if epoch != s.epoch || s.failed then s
    else Schedule(if id == 0 then UpstreamWritten(s, w, now)
                  else if id in s.sessions then ClientWritten(s, id, w)
                  else s,
                  now)
  }

  function OnWriteFailed(s: State, id: int, epoch: int, now: Time): (r: State)
    ensures r.cfg == s.cfg && (Wakeful(s) ==> Wakeful(r))
  {
    if epoch != s.epoch || s.failed then s
    else if id == 0 then FailEpoch(s.(now := now))
    else Schedule(Remove(s.(now := now), id), now)
  }

  function OverdueFail(s: State): (r: State)
    ensures r.cfg == s.cfg && (Wakeful(s) ==> Wakeful(r))
  {
    FailEpoch(s.(debt := s.up.active))
  }

  function OnUpstreamFrame(s: State, p: Bytes, now: Time): (r: State)
    ensures r.cfg == s.cfg && (Wakeful(s) ==> Wakeful(r))
  {
    var s0 := s.(now := now);
    if s.failed then s0
    else if ResponseOverdue(s0, now) then OverdueFail(s0)
    else if !s.cfg.table.responseShape(p) then FailEpoch(s0)
    else Schedule(if IsPush(p) then Push(s0, p, now) else TxnResponse(s0, p), now)
  }

  function OnTick(s: State, now: Time): (r: State)
    ensures r.cfg == s.cfg && (Wakeful(s) ==> Wakeful(r))
  {
    var s0 := s.(now := now);
    if s.failed then s0
    else if ResponseOverdue(s0, now) then OverdueFail(s0)
    else if AnyOverdue(s.up.writes, now) then FailEpoch(s0)
    else
      var s1 := ExpireLeases(ExpireSessions(s0, s0.ids), now);
      var s2 := if s1.sessions != map[] && now - s1.lastPoll >= s1.cfg.pollInterval
                then HintAll(s1.(lastPoll := now), s1.ids) else s1;
      Schedule(s2, now)
  }

  /** A frame read from the poisoned connection while a reply is owed. A frame that does not fit
      ends the drain by an exception and changes nothing. */
  function OnDrainFrame(s: State, p: Bytes, now: Time): (r: State)
    ensures r.cfg == s.cfg && (Wakeful(s) ==> Wakeful(r))
  {
    if s.debt.None? || !s.cfg.table.responseShape(p) then s
    else if IsPush(p) then Push(s, p, now)
    else
      var t := s.debt.value;
      if t.step.Setup? || t.step.Restore? then
        if IsScopeReply(p) then Heard(s, p).(debt := None) else s
      else if !ValidResponse(s.cfg.table, t.desc, p, t.command, t.contacts) then s
      else if !Completes(t.desc, p) then
        Heard(s, p).(debt := Some(t.(contacts := t.contacts || Opcode(p) == RESP_CONTACTS_START)))
      else
        var cleared := Heard(s, p).(debt := None);
        if t.owner == 0 && Opcode(p) != RESP_ERR then PopResult(cleared, t, p) else cleared
  }

  /** The state of a companion met after that many items. */
  function FreshRadioState(since: nat): RadioState {
    RadioState(AckRing.FreshRadio(), Vacant, [], [], [], since)
  }

  /** A new epoch after a failed one. What belongs to the companion survives only if startup finds
      the same public key. */
  function OnReconnect(s: State, key: Bytes, now: Time): State {
    var cfg := s.cfg.(selfKey := key);
    var next := if key == s.cfg.selfKey then Fresh(cfg, s.epoch + 1, now, s.orphan, s.slots, s.radio)
                else Fresh(cfg, s.epoch + 1, now, None, map d | d in s.slots :: Clear(s.slots[d]),
                           FreshRadioState(|s.pops|));
    next.(pops := s.pops)
  }

  function StepEvent(s: State, e: Event): State {
    match e
    case Admit(id, slot, now) => OnAdmit(s, id, slot, now)
    case ClientFrame(id, p, now) => OnClientFrame(s, id, p, now)
    case ClientClosed(id, now) => OnClientClosed(s, id, now)
    case WriteDone(id, epoch, w, now) => OnWriteDone(s, id, epoch, w, now)
    case WriteFailed(id, epoch, now) => OnWriteFailed(s, id, epoch, now)
    case UpstreamFrame(p, now) => OnUpstreamFrame(s, p, now)
    case Tick(now) => OnTick(s, now)
    case Fail => FailEpoch(s)
    case DrainFrame(p, now) => OnDrainFrame(s, p, now)
    case Reconnect(key, now) => OnReconnect(s, key, now)
  }
}
