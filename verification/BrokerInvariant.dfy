/** What holds of the broker in every reachable state, one predicate per concern. Each predicate
    names only the parts of the state it speaks about. */
module BrokerInvariant {
  import opened Wire
  import opened Protocol
  import opened Leases
  import opened Slots
  import opened Broker
  import AckRing

  // ----- The upstream history -----

  /** Whether a reply ends the exchange a job started. */
  ghost predicate Final(t: Table, j: Job, p: Bytes) {
    j.kind.ClientCommand? && t.descriptor(j.command).Some? ==> Completes(t.descriptor(j.command).value, p)
  }

  /** The job whose reply is still owed, if any. */
  ghost function Owed(t: Table, w: seq<WireEvent>): Option<Job> {
    if w == [] then None
    else
      var last := w[|w| - 1];
      if last.Asked? then Some(last.job)
      else
        var before := Owed(t, w[..|w| - 1]);
        if before.Some? && Final(t, before.value, last.payload) then None else before
  }

  /** The flood scope the companion is in: an acknowledged scope change takes effect, a refused
      one does not. */
  ghost function PhysicalScope(w: seq<WireEvent>): Bytes {
    if w == [] then DEFAULT_SCOPE
    else
      var last := w[|w| - 1];
      var before := w[..|w| - 1];
      if last.Got? && last.payload == OK && before != [] && before[|before| - 1].Asked?
         && (before[|before| - 1].job.kind.SetScope? || before[|before| - 1].job.kind.ResetScope?)
      then before[|before| - 1].frame
      else PhysicalScope(before)
  }

  /** Only scope-sensitive commands ever want another scope than the default one. */
  ghost predicate WantOk(t: Table, j: Job) {
    && (j.kind.Pop? ==> j.want == DEFAULT_SCOPE)
    && (j.kind.ClientCommand? ==>
          t.descriptor(j.command).Some? && (t.descriptor(j.command).value.scopeSend || j.want == DEFAULT_SCOPE))
  }

  /** Nothing is asked while a reply is owed, and every command and pop is asked under the scope
      it wants. */
  ghost predicate Disciplined(t: Table, w: seq<WireEvent>) {
    w == [] ||
    var last := w[|w| - 1];
    var before := w[..|w| - 1];
    && Disciplined(t, before)
    && (last.Asked? ==>
          && Owed(t, before).None? && WantOk(t, last.job)
          && (last.job.kind.ClientCommand? || last.job.kind.Pop? ==> PhysicalScope(before) == last.job.want))
  }

  ghost function JobOf(t: Txn): Job {
    Job(match t.step
        case Setup => SetScope
        case Restore => ResetScope
        case _ => if t.owner == 0 then Pop else ClientCommand,
        t.owner, t.command, t.want)
  }

  ghost predicate AwaitsReply(active: Option<Txn>) {
    active.Some? && !active.value.step.MaintenanceResult?
  }

  /** The last thing heard refuses a hidden pop or scope restore. */
  ghost predicate RefusedHidden(w: seq<WireEvent>) {
    && |w| >= 2 && w[|w| - 1].Got? && Opcode(w[|w| - 1].payload) == RESP_ERR
    && w[|w| - 2].Asked? && (w[|w| - 2].job.kind.Pop? || w[|w| - 2].job.kind.ResetScope?)
  }

  ghost function Awaited(active: Option<Txn>): Option<Txn> {
    if AwaitsReply(active) then active else None
  }

  /** The debt of a failed connection: the command whose reply is still owed. The refusal of a pop or
      of a restore leaves a debt as well, though nothing is owed any more. */
  ghost predicate DebtOk(t: Table, debt: Option<Txn>, w: seq<WireEvent>) {
    if debt.None? then Owed(t, w).None?
    else
      && !debt.value.step.MaintenanceResult?
      && (|| Owed(t, w) == Some(JobOf(debt.value))
          || (RefusedHidden(w) && Owed(t, w).None? && w[|w| - 2].job == JobOf(debt.value)))
  }

  /** The upstream history agrees with the active transaction. */
  ghost predicate WireOk(t: Table, up: Upstream) {
    && Disciplined(t, up.wire) && !RefusedHidden(up.wire)
    && Owed(t, up.wire) == (if AwaitsReply(up.active) then Some(JobOf(up.active.value)) else None)
    && PhysicalScope(up.wire) ==
         (if up.active.Some? && up.active.value.scoped && !up.active.value.step.Setup? then up.active.value.want
          else DEFAULT_SCOPE)
    && (up.active.Some? && !up.active.value.desc.grammar.Contacts? && AwaitsReply(up.active) ==>
          up.wire != [] && up.wire[|up.wire| - 1].Asked?)
    && (up.active.Some? && up.active.value.step.Setup? ==>
          up.wire != [] && up.wire[|up.wire| - 1] == Asked(up.active.value.want, JobOf(up.active.value)))
    && (up.active.Some? && up.active.value.step.Restore? ==>
          up.wire != [] && up.wire[|up.wire| - 1] == Asked(DEFAULT_SCOPE, JobOf(up.active.value)))
    && (PopInFlight(up.active) ==>
          up.active.value.born + 1 == |up.wire| && up.wire[up.active.value.born] == Asked(POP, JobOf(up.active.value)))
    && up.writes.Keys == (if up.active.Some? && up.active.value.write.Some? then {up.active.value.write.value} else {})
  }

  ghost predicate PopInFlight(active: Option<Txn>) {
    active.Some? && active.value.owner == 0
  }

  ghost predicate TxnOk(cfg: Config, t: Txn) {
    && ValidCommand(cfg.table, t.command)
    && t.desc == cfg.table.descriptor(t.command).value
    && t.maintenance == t.desc.maintenance
    && (t.owner == 0 ==> t.command == POP && !t.scoped && t.step.Command? && t.want == DEFAULT_SCOPE)
    && (t.owner != 0 ==>
          && Opcode(t.command) != CMD_SYNC_NEXT_MESSAGE && Opcode(t.command) != CMD_SET_FLOOD_SCOPE_KEY
          && !t.hadMulti)
    && t.scoped == (t.want != DEFAULT_SCOPE)
    && (t.scoped ==> t.desc.scopeSend)
    && (t.step.Setup? || t.step.Restore? ==> t.scoped)
    && (t.step.MaintenanceResult? ==> t.maintenance && t.write.None?)
    && (t.contacts ==> t.desc.grammar.Contacts?)
  }

  ghost predicate TxnsOk(cfg: Config, active: Option<Txn>, debt: Option<Txn>) {
    && (active.Some? ==> TxnOk(cfg, active.value))
    && (debt.Some? ==> TxnOk(cfg, debt.value))
  }

  // ----- Sessions -----

  ghost predicate Distinct(q: seq<int>) {
    forall i, j | 0 <= i < j < |q| :: q[i] != q[j]
  }

  /** The table, its key order and the scheduling order list the same sessions; 0 is the inbox. */
  ghost predicate RosterOk(keys: set<int>, ids: seq<int>, order: seq<int>) {
    && Distinct(ids) && Distinct(order)
    && (forall x :: x in ids <==> x in keys)
    && (forall x :: x in order <==> x in keys || x == 0)
    && (forall x | x in keys :: x > 0)
  }

  /** The commands a session has been given a terminal answer for, in order. */
  ghost function Answered(sent: seq<Out>): seq<Bytes> {
    if sent == [] then []
    else
      var last := sent[|sent| - 1];
      Answered(sent[..|sent| - 1]) + (if last.role.Answer? then [last.role.command] else [])
  }

  ghost function Waiting(c: Session): seq<Bytes> {
    if c.sync.Some? then [c.sync.value.command] else []
  }

  ghost function Payloads(q: seq<Queued>): seq<Bytes> {
    seq(|q|, i requires 0 <= i < |q| => q[i].payload)
  }

  ghost predicate Owns(active: Option<Txn>, id: int) {
    active.Some? && active.value.owner == id
  }

  /** The command of that session that is upstream and unanswered. */
  ghost function Current(active: Option<Txn>, id: int): seq<Bytes> {
    if Owns(active, id) && (active.value.step.Setup? || active.value.step.Command?) then [active.value.command] else []
  }

  /** Terminal answers, then the wait or the command upstream, then the queue: what was submitted. */
  ghost predicate Fifo(c: Session, current: seq<Bytes>) {
    Answered(c.log.sent) + Waiting(c) + current + Payloads(c.commands) == c.log.submitted
  }

  ghost predicate ClientOk(cfg: Config, c: Session, current: seq<Bytes>, owns: bool) {
    && Fifo(c, current)
    && (c.sync.Some? ==> !owns)
    && |c.commands| + |Waiting(c)| + (if owns then 1 else 0) <= cfg.commandLimit
    && |c.writes| <= cfg.outputFrames
  }

  ghost predicate ClientsOk(cfg: Config, sessions: map<int, Session>, active: Option<Txn>) {
    forall id | id in sessions :: ClientOk(cfg, sessions[id], Current(active, id), Owns(active, id))
  }

  // ----- Why frames were sent -----

  /** A pop asked after that point of the history found the physical inbox empty. */
  ghost predicate EmptySeen(w: seq<WireEvent>, registered: nat, asked: nat) {
    && registered <= asked && asked + 1 < |w|
    && w[asked].Asked? && w[asked].frame == POP && w[asked].job.kind.Pop?
    && w[asked + 1] == Got(NO_MORE)
  }

  /** A reply that arrives now is for that session to see: it answers its command, or refuses the
      hidden scope change before it. */
  ghost predicate DueTo(t: Table, w: seq<WireEvent>, p: Bytes, id: int) {
    && Owed(t, w).Some? && Owed(t, w).value.owner == id
    && (Owed(t, w).value.kind.ClientCommand? || (Owed(t, w).value.kind.SetScope? && Opcode(p) == RESP_ERR))
  }

  /** The places of all the replies that session must see. */
  ghost function Due(t: Table, w: seq<WireEvent>, id: int): seq<nat> {
    if w == [] then []
    else
      var n := |w| - 1;
      Due(t, w[..n], id) + (if w[n].Got? && DueTo(t, w[..n], w[n].payload, id) then [n] else [])
  }

  ghost predicate IsRelay(o: Out) {
    (o.role.Answer? || o.role.Part?) && o.role.cause.Reply?
  }

  /** The places of the replies that were passed on. */
  ghost function Relays(sent: seq<Out>): seq<nat> {
    if sent == [] then []
    else
      var o := sent[|sent| - 1];
      Relays(sent[..|sent| - 1]) + (if IsRelay(o) then [o.role.cause.k] else [])
  }

  /** The frame is the visible form of an ordinary reply owed to that session. */
  ghost predicate ReplyTo(t: Table, w: seq<WireEvent>, k: nat, id: int, o: Out) {
    && k < |w| && w[k].Got?
    && o.payload == Visible(w[k].payload)
    && DueTo(t, w[..k], w[k].payload, id)
    && var j := Owed(t, w[..k]).value;
       && (o.role.Answer? ==> o.role.command == j.command && Final(t, j, w[k].payload))
       && (o.role.Part? ==> !Final(t, j, w[k].payload))
  }

  /** That frame accepted the command, under that tag unless the command chose its own. */
  ghost predicate AcceptedAt(sent: seq<Out>, j: int, c: Bytes, tag: nat) {
    && 0 <= j < |sent| && sent[j].role.Answer? && sent[j].role.command == c
    && |sent[j].payload| == 10 && sent[j].payload[0] == RESP_SENT
    && (Opcode(c) == CMD_SEND_TRACE_PATH || U32(sent[j].payload, 2) == tag)
  }

  ghost predicate Accepted(sent: seq<Out>, n: nat, c: Bytes, tag: nat) {
    exists j :: 0 <= j < n && AcceptedAt(sent, j, c, tag)
  }

  /** The push is a result that command can have, accepted under that tag. */
  ghost predicate ResultOf(c: Bytes, tag: nat, p: Bytes) {
    && Leasable(c)
    && if c[0] == CMD_SEND_LOGIN then
         (Opcode(p) == PUSH_LOGIN_SUCCESS || Opcode(p) == PUSH_LOGIN_FAILURE) && |p| >= 8 && p[2..8] == c[1..7]
       else if c[0] == CMD_SEND_STATUS_REQ then Opcode(p) == PUSH_STATUS_RESPONSE && |p| >= 8 && p[2..8] == c[1..7]
       else if c[0] == CMD_SEND_TELEMETRY_REQ then
         Opcode(p) == PUSH_TELEMETRY_RESPONSE && |p| >= 8 && p[2..8] == c[4..10]
       else if c[0] == CMD_SEND_PATH_DISCOVERY_REQ then
         Opcode(p) == PUSH_PATH_DISCOVERY_RESPONSE && |p| >= 8 && p[2..8] == c[2..8]
       else if c[0] == CMD_SEND_TRACE_PATH then
         Opcode(p) == PUSH_TRACE_DATA && |p| >= 12 && U32(p, 4) == U32(c, 1) && U32(p, 8) == U32(c, 5)
       else Opcode(p) == PUSH_BINARY_RESPONSE && |p| >= 6 && U32(p, 2) == tag
  }

  /** A late result goes to a client that was told its command is accepted. */
  ghost predicate ResultDue(sent: seq<Out>, n: nat, o: Out) {
    && o.role.Result? && Accepted(sent, n, o.role.command, o.role.tag)
    && ResultOf(o.role.command, o.role.tag, o.payload)
  }

  // ----- A client's own view -----

  /** The protocol target a client has negotiated, told from the frames it was sent. */
  ghost function NextTarget(x: Byte, o: Out): Byte {
    if o.role.Answer? && o.role.cause.Reply? && |o.role.command| >= 2 && o.role.command[0] == CMD_DEVICE_QUERY
       && Opcode(o.payload) == RESP_DEVICE_INFO
    then o.role.command[1] else x
  }

  ghost function TargetOf(sent: seq<Out>): Byte {
    if sent == [] then 0 else NextTarget(TargetOf(sent[..|sent| - 1]), sent[|sent| - 1])
  }

  /** The flood scope a client has been told it is in. */
  ghost function NextScope(x: Bytes, o: Out): Bytes {
    if o.role.Answer? && o.role.cause.Local? && Opcode(o.role.command) == CMD_SET_FLOOD_SCOPE_KEY && o.payload == OK
    then o.role.command else x
  }

  ghost function ScopeOf(sent: seq<Out>): Bytes {
    if sent == [] then DEFAULT_SCOPE else NextScope(ScopeOf(sent[..|sent| - 1]), sent[|sent| - 1])
  }

  ghost function ItemIn(o: Out): seq<Bytes> {
    if o.role.Answer? && o.role.cause.FromInbox? then [o.role.cause.item] else []
  }

  /** The inbox items a client has been sent. */
  ghost function Delivered(sent: seq<Out>): seq<Bytes> {
    if sent == [] then [] else Delivered(sent[..|sent| - 1]) + ItemIn(sent[|sent| - 1])
  }

  ghost predicate ViewOk(c: Session) {
    c.target == TargetOf(c.log.sent) && c.scope == ScopeOf(c.log.sent) && c.log.taken == Delivered(c.log.sent)
  }

  ghost predicate OutOk(t: Table, w: seq<WireEvent>, sent: seq<Out>, i: nat, id: int)
    requires i < |sent|
  {
    var o := sent[i];
    && (o.payload == NO_MORE ==>
          o.role.Answer? && o.role.cause.Empty? && EmptySeen(w, o.role.cause.registered, o.role.cause.asked))
    && (o.role.Notice? || o.role.Result? ==> IsPush(o.payload))
    && (o.role.Answer? && IsPush(o.payload) ==> IsSelfRequest(o.role.command))
    && (o.role.Part? ==> !IsPush(o.payload))
    && (o.role.Answer? && o.role.cause.Reply? ==> ReplyTo(t, w, o.role.cause.k, id, o))
    && (o.role.Part? ==> o.role.cause.Reply? && ReplyTo(t, w, o.role.cause.k, id, o))
    && (o.role.Result? ==> ResultDue(sent, i, o))
    && (o.role.Answer? && o.role.cause.FromInbox? ==>
          o.payload == Downgrade(o.role.cause.item, TargetOf(sent[..i])))
  }

  /** Every frame is justified, and the replies owed to the session were all passed on, once each
      and in order. */
  ghost predicate SentOk(t: Table, w: seq<WireEvent>, sent: seq<Out>, id: int) {
    && (forall i | 0 <= i < |sent| :: OutOk(t, w, sent, i, id))
    && Relays(sent) == Due(t, w, id)
  }

  ghost predicate OutsOk(t: Table, sessions: map<int, Session>, w: seq<WireEvent>) {
    forall id | id in sessions :: SentOk(t, w, sessions[id].log.sent, id)
  }

  // ----- Inboxes -----

  ghost predicate ItemsOk(t: Table, q: seq<Bytes>) {
    forall i | 0 <= i < |q| :: IsItem(t, q[i])
  }

  /** A multi-client session has taken, or still holds, the orphan it was handed and then every
      item popped since it joined (`lag` of them excepted), once each and in order. */
  ghost predicate InboxOk(t: Table, c: Session, pops: seq<Bytes>, lag: nat) {
    && ItemsOk(t, c.inbox)
    && ViewOk(c)
    && (c.slot.Some? ==> c.inbox == [])
    && (c.slot.None? ==>
          && c.log.joined + lag <= |pops|
          && c.log.taken + c.inbox == c.log.handed + pops[c.log.joined..|pops| - lag])
  }

  /** `behind` holds the sessions the newest item has not reached so far. */
  ghost predicate InboxesOk(t: Table, sessions: map<int, Session>, pops: seq<Bytes>, behind: seq<int>) {
    forall id | id in sessions :: InboxOk(t, sessions[id], pops, if id in behind then 1 else 0)
  }

  ghost predicate SlotsOk(cfg: Config, slots: map<int, Slot>, sessions: map<int, Session>) {
    && (forall d :: d in slots <==> d in cfg.slotIds)
    && (forall d | d in slots ::
          SlotOk(slots[d]) && |slots[d].queue| <= cfg.offlineQueueSize && ItemsOk(cfg.table, slots[d].queue))
    && (forall d | d in slots && slots[d].attached.Some? ::
          slots[d].attached.value in sessions && sessions[slots[d].attached.value].slot == Some(d))
    && (forall id | id in sessions && sessions[id].slot.Some? ::
          sessions[id].slot.value in slots && slots[sessions[id].slot.value].attached == Some(id))
  }

  /** `loose` sets aside the demand for a coming pop, while the result of one is being handed out. */
  ghost predicate SyncOk(c: Session, slots: map<int, Slot>, drain: Drain, up: Upstream, loose: bool) {
    c.sync.Some? ==>
      && c.inbox == []
      && (c.slot.Some? ==> c.slot.value in slots && slots[c.slot.value].queue == [])
      && drain.authorized
      && (loose || drain.requested || PopInFlight(up.active))
      && c.sync.value.minimumPop <= drain.popSeq + 1
      && c.sync.value.registered <= |up.wire|
      && (PopInFlight(up.active) && c.sync.value.minimumPop <= up.active.value.popSeq ==>
            c.sync.value.registered <= up.active.value.born)
  }

  /** No wakeup is lost: a waiting sync means a drain is requested or a pop is in flight. */
  ghost predicate SyncsOk(sessions: map<int, Session>, slots: map<int, Slot>, drain: Drain, up: Upstream, loose: bool) {
    && (PopInFlight(up.active) ==> up.active.value.popSeq <= drain.popSeq)
    && (forall id | id in sessions :: SyncOk(sessions[id], slots, drain, up, loose))
  }

  ghost predicate PopWithMulti(t: Option<Txn>) {
    t.Some? && t.value.owner == 0 && t.value.hadMulti
  }

  ghost predicate OrphanOk(t: Table, orphan: Option<Bytes>, sessions: map<int, Session>, active: Option<Txn>,
                           debt: Option<Txn>) {
    orphan.Some? ==>
      && IsItem(t, orphan.value)
      && (forall id | id in sessions :: sessions[id].slot.Some?)
      && !PopWithMulti(active) && !PopWithMulti(debt)
  }

  // ----- Leases -----

  ghost predicate LeasedUpstream(active: Option<Txn>) {
    active.Some? && active.value.desc.remoteLease && (active.value.step.Setup? || active.value.step.Command?)
  }

  ghost predicate RemoteOk(r: Remote, sessions: map<int, Session>, active: Option<Txn>) {
    && (LeasedUpstream(active) <==> r.Held? && r.tentative)
    && (r.Held? && r.tentative ==>
          && r.deadline.None? && r.command == active.value.command
          && (r.owner.Some? ==> r.owner.value == active.value.owner))
    && (r.Held? && !r.tentative ==> r.deadline.Some?)
    && (r.Held? ==> Stems(r))
    && (r.Held? && r.owner.Some? ==>
          && r.owner.value in sessions
          && (!r.tentative ==>
                Accepted(sessions[r.owner.value].log.sent, |sessions[r.owner.value].log.sent|, r.command, r.tag)))
  }

  ghost function Sum(q: seq<nat>): nat {
    if q == [] then 0 else Sum(q[..|q| - 1]) + q[|q| - 1]
  }

  ghost predicate SigningUpstream(active: Option<Txn>, opcode: Byte) {
    active.Some? && active.value.step.Command? && Opcode(active.value.command) == opcode
  }

  ghost predicate SigningOk(g: Signing, active: Option<Txn>) {
    && (g.Busy? ==>
          && g.accepted == Sum(g.chunks)
          && (g.limit.Some? ==> g.accepted + (if g.pending.Some? then g.pending.value else 0) <= g.limit.value)
          && (g.limit.None? ==> g.tentative && g.pending.None? && !g.finishing && g.accepted == 0)
          && (g.tentative ==> g.limit.None?))
    && (SigningUpstream(active, CMD_SIGN_START) <==> g.Busy? && g.tentative)
    && (SigningUpstream(active, CMD_SIGN_DATA) <==> g.Busy? && g.pending.Some?)
    && (SigningUpstream(active, CMD_SIGN_FINISH) <==> g.Busy? && g.finishing)
    && (g.Busy? && (g.tentative || g.pending.Some? || g.finishing) ==> g.owner == active.value.owner)
    && (g.Busy? && g.pending.Some? ==> g.pending.value == |active.value.command| - 1)
  }

  ghost predicate DmUpstream(active: Option<Txn>) {
    active.Some? && PlainDm(active.value.command) && (active.value.step.Setup? || active.value.step.Command?)
  }

  /** The mirrored ring is what the calls recorded so far lead to, and each of them was in order. */
  ghost predicate AirOk(uncertainty: Time, air: AckRing.Radio, log: seq<AckRing.Call>, active: Option<Txn>, now: Time) {
    && AckRing.RadioOk(air)
    && AckRing.LogOk(log, uncertainty)
    && AckRing.Replay(log, uncertainty) == air
    && (AckRing.InFlight(log) <==> DmUpstream(active))
    && (DmUpstream(active) ==> AckRing.FreeSlot(air.ring, now))
  }

  // ----- Scope and maintenance -----

  ghost predicate ScopeTied(sessions: map<int, Session>, active: Option<Txn>) {
    active.Some? && active.value.owner in sessions && active.value.desc.scopeSend ==>
      sessions[active.value.owner].scope == active.value.want
  }

  /** A key import or factory reset runs with no other client present. */
  ghost predicate Exclusive(sessions: map<int, Session>, active: Option<Txn>) {
    active.Some? && active.value.maintenance && Opcode(active.value.command) != CMD_REBOOT ==>
      forall id | id in sessions :: id == active.value.owner
  }

  ghost predicate StatusOk(s: State) {
    && ConfigOk(s.cfg) && !s.fault
    && (s.failed ==> s.sessions == map[] && s.up.active.None?)
    && (s.debt.Some? ==> s.failed)
  }

  /** The invariant, also in the middle of handing out the result of a pop. */
  ghost predicate Core(s: State, loose: bool, behind: seq<int>) {
    && StatusOk(s)
    && RosterOk(s.sessions.Keys, s.ids, s.order)
    && TxnsOk(s.cfg, s.up.active, s.debt)
    && (if s.failed then Disciplined(s.cfg.table, s.up.wire) && DebtOk(s.cfg.table, s.debt, s.up.wire)
        else WireOk(s.cfg.table, s.up))
    && ClientsOk(s.cfg, s.sessions, s.up.active)
    && OutsOk(s.cfg.table, s.sessions, s.up.wire)
    && InboxesOk(s.cfg.table, s.sessions, s.pops, behind)
    && SlotsOk(s.cfg, s.slots, s.sessions)
    && SyncsOk(s.sessions, s.slots, s.drain, s.up, loose)
    && OrphanOk(s.cfg.table, s.orphan, s.sessions, s.up.active, s.debt)
    && RemoteOk(s.radio.remote, s.sessions, s.up.active)
    && (!s.failed ==> SigningOk(s.signing, s.up.active))
    && AirOk(s.cfg.uncertaintyTimeout, s.radio.air, s.radio.log, s.up.active, s.now)
    && ScopeTied(s.sessions, s.up.active)
    && Exclusive(s.sessions, s.up.active)
  }

  ghost predicate Inv(s: State) {
    Core(s, false, [])
  }
}
