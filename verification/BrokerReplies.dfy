/** Ordinary upstream replies keep the invariant. */
module BrokerReplies {
  import opened Wire
  import opened Protocol
  import opened Leases
  import opened Broker
  import opened BrokerInvariant
  import opened BrokerClients
  import opened BrokerInbox
  import opened BrokerWire
  import AckRing

  // ----- Bookkeeping fields of the active transaction -----

  ghost predicate SameTxn(t: Txn, t': Txn) {
    t' == t.(started := t'.started, progress := t'.progress, write := t'.write, contacts := t'.contacts)
  }

  lemma TouchSessions(s: State, t: Txn, t': Txn)
    requires ClientsOk(s.cfg, s.sessions, Some(t)) && SameTxn(t, t')
    ensures ClientsOk(s.cfg, s.sessions, Some(t'))
  {
    forall id | id in s.sessions
      ensures ClientOk(s.cfg, s.sessions[id], Current(Some(t'), id), Owns(Some(t'), id))
    {
      assert ClientOk(s.cfg, s.sessions[id], Current(Some(t), id), Owns(Some(t), id));
    }
  }

  lemma TouchSyncs(s: State, t: Txn, t': Txn, up: Upstream, loose: bool)
    requires SyncsOk(s.sessions, s.slots, s.drain, s.up, loose) && s.up.active == Some(t) && SameTxn(t, t')
    requires up.active == Some(t') && |s.up.wire| <= |up.wire|
    ensures SyncsOk(s.sessions, s.slots, s.drain, up, loose)
  {
    forall id | id in s.sessions
      ensures SyncOk(s.sessions[id], s.slots, s.drain, up, loose)
    {
      assert SyncOk(s.sessions[id], s.slots, s.drain, s.up, loose);
    }
  }

  lemma TouchLeases(s: State, t: Txn, t': Txn)
    requires SameTxn(t, t')
    ensures RemoteOk(s.radio.remote, s.sessions, Some(t)) ==> RemoteOk(s.radio.remote, s.sessions, Some(t'))
    ensures SigningOk(s.signing, Some(t)) ==> SigningOk(s.signing, Some(t'))
    ensures AirOk(s.cfg.uncertaintyTimeout, s.radio.air, s.radio.log, Some(t), s.now) ==>
              AirOk(s.cfg.uncertaintyTimeout, s.radio.air, s.radio.log, Some(t'), s.now)
    ensures ScopeTied(s.sessions, Some(t)) ==> ScopeTied(s.sessions, Some(t'))
    ensures Exclusive(s.sessions, Some(t)) ==> Exclusive(s.sessions, Some(t'))
    ensures OrphanOk(s.cfg.table, s.orphan, s.sessions, Some(t), s.debt) ==>
              OrphanOk(s.cfg.table, s.orphan, s.sessions, Some(t'), s.debt)
  {
  }

  /** Timestamps, write ids and the contacts phase of the active transaction. */
  lemma TouchKeeps(s: State, t': Txn, up: Upstream)
    requires Inv(s) && s.up.active.Some? && SameTxn(s.up.active.value, t') && up.active == Some(t')
    requires TxnOk(s.cfg, t') && WireOk(s.cfg.table, up) && up.wire == s.up.wire
    ensures Inv(s.(up := up))
  {
    var t := s.up.active.value;
    TouchLeases(s, t, t');
    TouchSessions(s, t, t');
    TouchSyncs(s, t, t', up, false);
    hide WireOk, RemoteOk, SigningOk, SlotsOk, SyncsOk, OutsOk, InboxesOk, ClientsOk, TxnOk, ConfigOk, RosterOk, AirOk,
         OrphanOk, ScopeTied, Exclusive;
  }

  lemma WireSettled(t: Table, up: Upstream, x: Txn, x': Txn)
    requires WireOk(t, up) && up.active == Some(x) && SameTxn(x, x') && x'.write.None?
    ensures WireOk(t, Upstream(Some(x'), up.writes - (if x.write.Some? then {x.write.value} else {}), up.wire))
  {
    hide Disciplined, Owed, PhysicalScope;
  }

  lemma SettleWriteKeeps(s: State)
    requires Inv(s) && !s.failed && s.up.active.Some?
    ensures var r := SettleWrite(s);
            && Inv(r) && r == s.(up := r.up) && r.up.wire == s.up.wire && r.up.active.Some?
            && r.up.active.value.write.None? && SameTxn(s.up.active.value, r.up.active.value)
            && r.up.active.value.contacts == s.up.active.value.contacts
  {
    var t := s.up.active.value;
    if t.write.Some? {
      assert WireOk(s.cfg.table, s.up) && TxnOk(s.cfg, t);
      hide Core, WireOk;
      var t' := SettleWrite(s).up.active.value;
      WireSettled(s.cfg.table, s.up, t, t');
      assert TxnOk(s.cfg, t');
      hide TxnOk;
      TouchKeeps(s, t', SettleWrite(s).up);
    }
  }

  // ----- The owner's answer -----

  /** An answered transaction that is kept for a scope restore or a maintenance result. */
  ghost predicate Lingers(t: Txn, t': Txn) {
    && t'.owner == t.owner && (t'.step.Restore? || t'.step.MaintenanceResult?)
    && t'.desc == t.desc && t'.want == t.want && t'.maintenance == t.maintenance && t'.command == t.command
    && t'.hadMulti == t.hadMulti
  }

  /** The upstream side once the final reply `p` of transaction `t` is in. */
  ghost predicate Released(s: State, t: Txn, p: Bytes, up: Upstream) {
    && s.up.active == Some(t) && (t.step.Setup? || t.step.Command?) && t.owner != 0
    && Extends(s.up.wire, p, up.wire)
    && (up.active.Some? ==> Lingers(t, up.active.value))
  }

  /** A reply owed to transaction `t` is for nobody but its owner. */
  lemma DueToOwner(s: State, t: Txn, p: Bytes)
    requires Inv(s) && !s.failed && s.up.active == Some(t) && !t.step.MaintenanceResult?
    ensures Owed(s.cfg.table, s.up.wire) == Some(JobOf(t))
    ensures forall id | id != t.owner :: !DueTo(s.cfg.table, s.up.wire, p, id)
    ensures DueTo(s.cfg.table, s.up.wire, p, t.owner) <==>
              (t.step.Command? && t.owner != 0) || (t.step.Setup? && Opcode(p) == RESP_ERR)
  {
    assert WireOk(s.cfg.table, s.up);
    hide Core, Owed, Disciplined, PhysicalScope;
  }

  /** Without an owner left, releasing concerns no session. */
  lemma ReleasedUnheard(s: State, t: Txn, p: Bytes, up: Upstream)
    requires Inv(s) && !s.failed && Released(s, t, p, up) && t.owner !in s.sessions
    ensures ClientsOk(s.cfg, s.sessions, up.active) && OutsOk(s.cfg.table, s.sessions, up.wire)
    ensures SyncsOk(s.sessions, s.slots, s.drain, up, false)
    ensures OrphanOk(s.cfg.table, s.orphan, s.sessions, up.active, s.debt)
    ensures ScopeTied(s.sessions, up.active) && Exclusive(s.sessions, up.active)
  {
    hide Core, DueTo, Owed, OutsOk, Fifo, WireOk, RemoteOk, SigningOk, SlotsOk, InboxesOk, TxnsOk, ConfigOk, RosterOk,
         AirOk;
    CoreParts(s, false, []);
    DueToOwner(s, t, p);
    OutsExtend(s.cfg.table, s.sessions, s.up.wire, p, up.wire);
    assert |s.up.wire| <= |up.wire|;
    hide Extends;
    forall id | id in s.sessions
      ensures ClientOk(s.cfg, s.sessions[id], Current(up.active, id), Owns(up.active, id))
      ensures SyncOk(s.sessions[id], s.slots, s.drain, up, false)
    {
      assert ClientOk(s.cfg, s.sessions[id], Current(s.up.active, id), Owns(s.up.active, id));
      assert SyncOk(s.sessions[id], s.slots, s.drain, s.up, false);
    }
  }

  lemma FifoReply(c: Session, c': Session, o: Out, command: Bytes)
    requires Fifo(c, [command]) && c.sync.None? && o.role.Answer? && o.role.command == command
    requires c'.log.sent == c.log.sent + [o] && c'.commands == c.commands && c'.sync.None?
    requires c'.log.submitted == c.log.submitted
    ensures Fifo(c', [])
  {
    AnsweredGrows(c.log.sent, o);
  }

  /** The owner's session after the final reply was written to it. */
  ghost predicate Replied(s: State, t: Txn, p: Bytes, c': Session, o: Out) {
    && t.owner in s.sessions
    && var c := s.sessions[t.owner];
       && c' == c.(writes := c'.writes, target := NextTarget(c.target, o), log := c.log.(sent := c.log.sent + [o]))
       && |c'.writes| <= s.cfg.outputFrames
       && o.role == Answer(t.command, Reply(|s.up.wire|)) && o.payload == Visible(p) && o.payload != NO_MORE
       && (IsPush(p) ==> IsSelfRequest(t.command))
  }

  lemma RepliedClient(s: State, t: Txn, p: Bytes, up: Upstream, c': Session, o: Out)
    requires Inv(s) && Released(s, t, p, up) && Replied(s, t, p, c', o)
    ensures ClientOk(s.cfg, c', Current(up.active, t.owner), Owns(up.active, t.owner))
    ensures SyncOk(c', s.slots, s.drain, up, false)
    ensures InboxOk(s.cfg.table, c', s.pops, 0)
  {
    hide Core, InboxOk, SentOk, ViewOk, Extends, Fifo, Visible;
    CoreSession(s, t.owner, false, []);
    var c := s.sessions[t.owner];
    CoreView(s, t.owner, false, []);
    ViewGrows(c, c', o);
    InboxSame(s.cfg.table, c, c', s.pops, 0);
    FifoReply(c, c', o, t.command);
  }

  /** Passing on the reply that just arrived. */
  lemma RelayOut(t: Table, w: seq<WireEvent>, p: Bytes, id: int, sent: seq<Out>, o: Out)
    requires DueTo(t, w, p, id) && IsRelay(o) && o.role.cause.k == |w| && o.payload == Visible(p)
    requires o.payload != NO_MORE
    requires IsPush(o.payload) ==> o.role.Answer? && IsSelfRequest(o.role.command)
    requires o.role.Answer? ==> o.role.command == Owed(t, w).value.command && Final(t, Owed(t, w).value, p)
    requires o.role.Part? ==> !Final(t, Owed(t, w).value, p)
    ensures OutOk(t, w + [Got(p)], sent + [o], |sent|, id)
  {
    hide Owed, Final, Visible, EmptySeen, TargetOf;
    assert (w + [Got(p)])[..|w|] == w;
  }

  lemma RelaySent(t: Table, w: seq<WireEvent>, p: Bytes, id: int, sent: seq<Out>, o: Out)
    requires SentOk(t, w, sent, id)
    requires DueTo(t, w, p, id) && IsRelay(o) && o.role.cause.k == |w| && o.payload == Visible(p)
    requires o.payload != NO_MORE
    requires IsPush(o.payload) ==> o.role.Answer? && IsSelfRequest(o.role.command)
    requires o.role.Answer? ==> o.role.command == Owed(t, w).value.command && Final(t, Owed(t, w).value, p)
    requires o.role.Part? ==> !Final(t, Owed(t, w).value, p)
    ensures SentOk(t, w + [Got(p)], sent + [o], id)
  {
    hide Owed, Final, Visible, SentOk, OutOk, DueTo, IsPush, IsSelfRequest;
    RelayOut(t, w, p, id, sent, o);
    SentRelays(t, w, p, sent, id, o);
  }

  lemma RepliedCode(s: State, t: Txn, p: Bytes, c': Session, o: Out)
    requires Replied(s, t, p, c', o)
    ensures IsPush(o.payload) ==> IsSelfRequest(t.command)
  {
    hide IsSelfRequest;
    VisibleOpcode(p);
  }

  lemma RepliedOut(s: State, t: Txn, p: Bytes, up: Upstream, c': Session, o: Out)
    requires Inv(s) && !s.failed && Released(s, t, p, up) && Replied(s, t, p, c', o)
    requires Final(s.cfg.table, JobOf(t), p) && (t.step.Setup? ==> Opcode(p) == RESP_ERR)
    ensures SentOk(s.cfg.table, up.wire, c'.log.sent, t.owner)
  {
    hide Core, Owed, Final, WireOk, SentOk, DueTo, OutOk, Extends, Visible, IsPush, IsSelfRequest;
    var sent := s.sessions[t.owner].log.sent;
    DueToOwner(s, t, p);
    assert SentOk(s.cfg.table, s.up.wire, sent, t.owner) by { CoreSession(s, t.owner, false, []); }
    RepliedCode(s, t, p, c', o);
    RelaySent(s.cfg.table, s.up.wire, p, t.owner, sent, o);
    SentExtends(s.cfg.table, s.up.wire, p, up.wire, sent + [o], t.owner);
  }

  lemma ReleasedOthers(s: State, t: Txn, p: Bytes, up: Upstream)
    requires Inv(s) && !s.failed && Released(s, t, p, up)
    ensures forall id | id in s.sessions && id != t.owner ::
              && ClientOk(s.cfg, s.sessions[id], Current(up.active, id), Owns(up.active, id))
              && SyncOk(s.sessions[id], s.slots, s.drain, up, false)
    ensures OutsOk(s.cfg.table, s.sessions - {t.owner}, up.wire)
  {
    hide Core, DueTo, Owed, WireOk, RemoteOk, SigningOk, SlotsOk, TxnsOk, ConfigOk, RosterOk, AirOk, Fifo, SentOk,
         InboxesOk, OrphanOk;
    CoreParts(s, false, []);
    DueToOwner(s, t, p);
    assert OutsOk(s.cfg.table, s.sessions - {t.owner}, s.up.wire);
    hide OutsOk;
    OutsExtend(s.cfg.table, s.sessions - {t.owner}, s.up.wire, p, up.wire);
    assert |s.up.wire| <= |up.wire|;
    hide Extends;
    forall id | id in s.sessions && id != t.owner
      ensures ClientOk(s.cfg, s.sessions[id], Current(up.active, id), Owns(up.active, id))
      ensures SyncOk(s.sessions[id], s.slots, s.drain, up, false)
    {
      assert ClientOk(s.cfg, s.sessions[id], Current(s.up.active, id), Owns(s.up.active, id));
      assert SyncOk(s.sessions[id], s.slots, s.drain, s.up, false);
    }
  }

  /** One session changed and the others stayed: the facts kept per session. */
  lemma SwapTables(s: State, id: int, c': Session, up: Upstream)
    requires id in s.sessions && InboxesOk(s.cfg.table, s.sessions, s.pops, [])
    requires ClientOk(s.cfg, c', Current(up.active, id), Owns(up.active, id))
    requires SentOk(s.cfg.table, up.wire, c'.log.sent, id)
    requires InboxOk(s.cfg.table, c', s.pops, 0) && SyncOk(c', s.slots, s.drain, up, false)
    requires PopInFlight(up.active) ==> up.active.value.popSeq <= s.drain.popSeq
    requires forall x | x in s.sessions && x != id ::
               && ClientOk(s.cfg, s.sessions[x], Current(up.active, x), Owns(up.active, x))
               && SyncOk(s.sessions[x], s.slots, s.drain, up, false)
    requires OutsOk(s.cfg.table, s.sessions - {id}, up.wire)
    ensures var sessions := s.sessions[id := c'];
            && ClientsOk(s.cfg, sessions, up.active) && OutsOk(s.cfg.table, sessions, up.wire)
            && SyncsOk(sessions, s.slots, s.drain, up, false) && InboxesOk(s.cfg.table, sessions, s.pops, [])
  {
    hide SentOk, InboxOk, ClientOk, SyncOk, Current, Owns;
    var sessions := s.sessions[id := c'];
    forall x | x in sessions
      ensures SentOk(s.cfg.table, up.wire, sessions[x].log.sent, x)
    {
      if x != id {
        assert x in s.sessions - {id};
      }
    }
    assert forall x | x in sessions :: InboxOk(s.cfg.table, sessions[x], s.pops, 0);
  }

  lemma ReleasedReplied(s: State, t: Txn, p: Bytes, up: Upstream, c': Session, o: Out)
    requires Inv(s) && !s.failed && Released(s, t, p, up) && Replied(s, t, p, c', o)
    requires Final(s.cfg.table, JobOf(t), p) && (t.step.Setup? ==> Opcode(p) == RESP_ERR)
    ensures var sessions := s.sessions[t.owner := c'];
            && ClientsOk(s.cfg, sessions, up.active) && OutsOk(s.cfg.table, sessions, up.wire)
            && SyncsOk(sessions, s.slots, s.drain, up, false)
            && InboxesOk(s.cfg.table, sessions, s.pops, [])
            && SlotsOk(s.cfg, s.slots, sessions)
  {
    assert InboxesOk(s.cfg.table, s.sessions, s.pops, []) && SlotsOk(s.cfg, s.slots, s.sessions);
    assert c'.slot == s.sessions[t.owner].slot;
    hide Core, SlotsOk, SentOk, InboxOk, ClientOk, SyncOk, Final, Released, Replied;
    RepliedClient(s, t, p, up, c', o);
    RepliedOut(s, t, p, up, c', o);
    ReleasedOthers(s, t, p, up);
    SwapSlots(s.cfg, s.slots, s.sessions, t.owner, c');
    SwapTables(s, t.owner, c', up);
  }

  // ----- Leases after the final reply -----

  /** The layout and code of a valid reply, whatever the phase of its stream. */
  ghost predicate Fitting(t: Table, d: Descriptor, p: Bytes) {
    p != [] && if p[0] == RESP_ERR then |p| == 2 else p[0] in d.success && t.responseShape(p)
  }

  lemma SigningFacts(cfg: Config, t: Txn, p: Bytes)
    requires TableOk(cfg.table) && TxnOk(cfg, t) && Fitting(cfg.table, t.desc, p)
    ensures t.command != [] && p != [] && (p[0] == RESP_ERR ==> |p| == 2)
    ensures t.desc.signing <==> t.command[0] in {CMD_SIGN_START, CMD_SIGN_DATA, CMD_SIGN_FINISH}
    ensures t.desc.signing ==> !t.desc.remoteLease && !PlainDm(t.command)
    ensures t.command[0] == CMD_SIGN_START && p[0] != RESP_ERR ==> p[0] == RESP_SIGN_START && |p| == 6
    ensures t.command[0] == CMD_SIGN_DATA && p[0] != RESP_ERR ==> p == OK
    ensures t.command[0] == CMD_SIGN_FINISH && p[0] != RESP_ERR ==> p[0] == RESP_SIGNATURE && |p| == 65
  {
    assert CommandOk(cfg.table, t.command, t.desc);
    assert p[0] != RESP_ERR ==> cfg.table.responseShape(p);
  }

  lemma OutcomeSigning(cfg: Config, r: RadioState, g: Signing, t: Txn, p: Bytes, now: Time, a: Option<Txn>)
    requires TableOk(cfg.table) && TxnOk(cfg, t) && t.step.Command? && (a.Some? ==> Lingers(t, a.value))
    requires SigningOk(g, Some(t)) && Fitting(cfg.table, t.desc, p)
    ensures SigningOk(Outcome(r, g, t, p, now).signing, a)
    ensures t.desc.signing ==> !Outcome(r, g, t, p, now).fault
  {
    hide AckRing.Insert, AckRing.FreeSlot, AcceptRemote, TableOk, RetainedDeadline, TxnOk, Fitting, Sum, ShapesOk,
         CommandError, U32;
    SigningFacts(cfg, t, p);
    if Opcode(t.command) == CMD_SIGN_DATA && p[0] == RESP_OK {
      SumGrows(g.chunks, g.pending.value);
    }
  }

  lemma SumGrows(q: seq<nat>, n: nat)
    ensures Sum(q + [n]) == Sum(q) + n
  {
    assert (q + [n])[..|q|] == q;
  }

  lemma OutcomeFacts(cfg: Config, t: Txn, p: Bytes)
    requires TableOk(cfg.table) && TxnOk(cfg, t) && Fitting(cfg.table, t.desc, p)
    ensures CommandOk(cfg.table, t.command, t.desc)
    ensures p != [] && (p[0] == RESP_SENT ==> |p| == 10)
    ensures PlainDm(t.command) ==> p[0] == RESP_SENT || p[0] == RESP_ERR
    ensures PlainDm(t.command) ==> !t.desc.remoteLease && !t.desc.signing
    ensures Opcode(t.command) in {CMD_SIGN_START, CMD_SIGN_DATA, CMD_SIGN_FINISH} ==> !PlainDm(t.command)
  {
  }

  lemma OutcomeAir(cfg: Config, r: RadioState, g: Signing, t: Txn, p: Bytes, now: Time, a: Option<Txn>)
    requires TableOk(cfg.table) && TxnOk(cfg, t) && t.step.Command? && (a.Some? ==> Lingers(t, a.value))
    requires AirOk(cfg.uncertaintyTimeout, r.air, r.log, Some(t), now)
    requires Fitting(cfg.table, t.desc, p)
    ensures var v := Outcome(r, g, t, p, now);
            AirOk(cfg.uncertaintyTimeout, v.radio.air, v.radio.log, a, now)
    ensures PlainDm(t.command) ==> !Outcome(r, g, t, p, now).fault
  {
    OutcomeFacts(cfg, t, p);
    hide TxnOk, Fitting, CommandOk, AckRing.LogOk, AckRing.Replay, AckRing.InFlight, AckRing.FreeSlot, AckRing.Insert,
         TableOk, ShapesOk, AcceptRemote, AcceptStart, DataResponse, FinishResponse;
    if PlainDm(t.command) {
      if p[0] == RESP_SENT {
        AckRing.CallExtends(r.log, AckRing.Accepted(U32(p, 2), U32(p, 6), now), cfg.uncertaintyTimeout);
      } else {
        AckRing.CallExtends(r.log, AckRing.Refused, cfg.uncertaintyTimeout);
      }
    }
  }

  /** `owner`'s log, if it is live, shows the command accepted. */
  ghost predicate ShowsAcceptance(sessions: map<int, Session>, t: Txn, p: Bytes) {
    t.owner in sessions && Opcode(p) == RESP_SENT ==>
      |p| == 10 && Accepted(sessions[t.owner].log.sent, |sessions[t.owner].log.sent|, t.command, U32(p, 2))
  }

  /** A trace was accepted under whatever tag. */
  lemma AcceptedTrace(sent: seq<Out>, n: nat, c: Bytes, tag: nat, tag': nat)
    requires Accepted(sent, n, c, tag) && Opcode(c) == CMD_SEND_TRACE_PATH
    ensures Accepted(sent, n, c, tag')
  {
    var j :| 0 <= j < n && AcceptedAt(sent, j, c, tag);
    assert AcceptedAt(sent, j, c, tag');
  }

  lemma OutcomeRemote(cfg: Config, r: RadioState, g: Signing, t: Txn, p: Bytes, now: Time, a: Option<Txn>,
                      sessions: map<int, Session>)
    requires TableOk(cfg.table) && TxnOk(cfg, t) && t.step.Command? && (a.Some? ==> Lingers(t, a.value))
    requires RemoteOk(r.remote, sessions, Some(t)) && ShowsAcceptance(sessions, t, p)
    requires Fitting(cfg.table, t.desc, p)
    ensures RemoteOk(Outcome(r, g, t, p, now).radio.remote, sessions, a)
    ensures t.desc.remoteLease ==> !Outcome(r, g, t, p, now).fault
  {
    assert CommandOk(cfg.table, t.command, t.desc);
    assert p[0] != RESP_ERR ==> cfg.table.responseShape(p);
    assert p[0] == RESP_SENT ==> |p| == 10;
    if t.desc.remoteLease && p[0] == RESP_SENT && r.remote.Held? && r.remote.kind.Trace? && t.owner in sessions {
      var sent := sessions[t.owner].log.sent;
      AcceptedTrace(sent, |sent|, t.command, U32(p, 2), r.remote.tag);
    }
    hide AckRing.FreeSlot, AckRing.Insert, TableOk, ShapesOk, AcceptStart, DataResponse, FinishResponse, Accepted,
         RetainedDeadline, U32;
  }

  lemma OutcomeFaultless(cfg: Config, r: RadioState, g: Signing, t: Txn, p: Bytes, now: Time)
    requires TableOk(cfg.table) && TxnOk(cfg, t)
    requires PlainDm(t.command) ==> !Outcome(r, g, t, p, now).fault
    requires t.desc.remoteLease ==> !Outcome(r, g, t, p, now).fault
    requires t.desc.signing ==> !Outcome(r, g, t, p, now).fault
    ensures !Outcome(r, g, t, p, now).fault && Outcome(r, g, t, p, now).radio.seen == r.seen
  {
    assert CommandOk(cfg.table, t.command, t.desc);
    hide TableOk, AckRing.FreeSlot, AckRing.Insert, AcceptRemote, AcceptStart, DataResponse, FinishResponse;
  }

  // ----- The upstream side after the final reply -----

  ghost function GotUp(up: Upstream, a: Option<Txn>, p: Bytes): Upstream {
    Upstream(a, up.writes, up.wire + [Got(p)])
  }

  lemma WireReleased(cfg: Config, up: Upstream, t: Txn, p: Bytes, a: Option<Txn>)
    requires WireOk(cfg.table, up) && up.active == Some(t) && t.write.None? && TxnOk(cfg, t) && t.owner != 0
    requires Final(cfg.table, JobOf(t), p)
    requires (t.step.Command? && !t.scoped) || (t.step.Setup? && p != OK)
    requires a.None?
             || (a.value.step.MaintenanceResult? && a.value.write.None? && !a.value.scoped && a.value.owner != 0)
    ensures WireOk(cfg.table, GotUp(up, a, p))
  {
    Getting(cfg.table, up.wire, p);
    if up.wire != [] && up.wire[|up.wire| - 1].Asked? {
      assert Owed(cfg.table, up.wire) == Some(up.wire[|up.wire| - 1].job);
    }
    hide Disciplined, Owed, PhysicalScope, Final, TxnOk;
  }

  /** The scope restore that follows a scoped command. */
  lemma WireRestoring(cfg: Config, up: Upstream, t: Txn, p: Bytes, t': Txn, up': Upstream)
    requires WireOk(cfg.table, up) && up.active == Some(t) && t.write.None? && TxnOk(cfg, t) && t.owner != 0
    requires Final(cfg.table, JobOf(t), p) && t.step.Command? && t.scoped
    requires t'.step.Restore? && t'.owner == t.owner && t'.command == t.command && t'.want == t.want && t'.scoped
    requires t'.desc == t.desc && t'.write.Some?
    requires up'.active == Some(t') && up'.wire == up.wire + [Got(p)] + [Asked(DEFAULT_SCOPE, JobOf(t'))]
    requires up'.writes.Keys == up.writes.Keys + {t'.write.value}
    ensures WireOk(cfg.table, up')
  {
    Getting(cfg.table, up.wire, p);
    if up.wire != [] && up.wire[|up.wire| - 1].Asked? {
      assert Owed(cfg.table, up.wire) == Some(up.wire[|up.wire| - 1].job);
    }
    Asking(cfg.table, up.wire + [Got(p)], DEFAULT_SCOPE, JobOf(t'));
    hide Disciplined, Owed, PhysicalScope, Final, TxnOk;
  }

  lemma FinalIsComplete(cfg: Config, t: Txn, p: Bytes)
    requires TxnOk(cfg, t) && t.step.Command? && t.owner != 0
    ensures Final(cfg.table, JobOf(t), p) <==> Completes(t.desc, p)
  {
  }

  // ----- Putting the parts together -----

  /** Everything the invariant says of `sessions` beside the upstream side `up`. */
  ghost predicate SessionFacts(s: State, sessions: map<int, Session>, up: Upstream) {
    && sessions.Keys == s.sessions.Keys
    && ClientsOk(s.cfg, sessions, up.active) && OutsOk(s.cfg.table, sessions, up.wire)
    && SyncsOk(sessions, s.slots, s.drain, up, false)
    && InboxesOk(s.cfg.table, sessions, s.pops, [])
    && SlotsOk(s.cfg, s.slots, sessions)
    && OrphanOk(s.cfg.table, s.orphan, sessions, up.active, s.debt)
    && ScopeTied(sessions, up.active) && Exclusive(sessions, up.active)
  }

  /** The sessions once the final reply has been written to its owner, if the owner is live. */
  ghost predicate Prepared(s: State, t: Txn, p: Bytes, sessions: map<int, Session>) {
    if t.owner in s.sessions then
      exists c', o :: Replied(s, t, p, c', o) && sessions == s.sessions[t.owner := c']
    else sessions == s.sessions
  }

  lemma RepliedElsewhere(s: State, t: Txn, p: Bytes, up: Upstream, c': Session, o: Out)
    requires Inv(s) && Released(s, t, p, up) && Replied(s, t, p, c', o)
    ensures var sessions := s.sessions[t.owner := c'];
            && sessions.Keys == s.sessions.Keys
            && OrphanOk(s.cfg.table, s.orphan, sessions, up.active, s.debt)
            && ScopeTied(sessions, up.active) && Exclusive(sessions, up.active)
  {
    hide WireOk, RemoteOk, SigningOk, SlotsOk, TxnsOk, ConfigOk, RosterOk, AirOk, ClientsOk, SyncsOk, InboxesOk, OutsOk;
  }

  lemma PreparedFacts(s: State, t: Txn, p: Bytes, sessions: map<int, Session>, up: Upstream)
    requires Inv(s) && !s.failed && Released(s, t, p, up) && Prepared(s, t, p, sessions)
    requires Final(s.cfg.table, JobOf(t), p) && (t.step.Setup? ==> Opcode(p) == RESP_ERR)
    ensures SessionFacts(s, sessions, up)
  {
    if t.owner in s.sessions {
      hide Core, Final, Released, ClientsOk, OutsOk, SyncsOk, InboxesOk, SlotsOk, OrphanOk, ScopeTied, Exclusive;
      var c', o :| Replied(s, t, p, c', o) && sessions == s.sessions[t.owner := c'];
      ReleasedReplied(s, t, p, up, c', o);
      RepliedElsewhere(s, t, p, up, c', o);
    } else {
      ReleasedUnheard(s, t, p, up);
      hide Released, ClientsOk, OutsOk, SyncsOk, InboxesOk, SlotsOk, OrphanOk, ScopeTied, Exclusive, WireOk, RemoteOk,
           SigningOk, AirOk, TxnsOk, RosterOk;
    }
  }

  lemma PreparedRemote(s: State, t: Txn, p: Bytes, sessions: map<int, Session>)
    requires RemoteOk(s.radio.remote, s.sessions, Some(t)) && Prepared(s, t, p, sessions)
    requires Opcode(p) == RESP_SENT ==> |p| == 10
    ensures RemoteOk(s.radio.remote, sessions, Some(t)) && ShowsAcceptance(sessions, t, p)
  {
    if t.owner in s.sessions {
      var c', o :| Replied(s, t, p, c', o) && sessions == s.sessions[t.owner := c'];
      SwapRemote(s.radio.remote, s.sessions, Some(t), t.owner, c');
      hide RemoteOk;
      if Opcode(p) == RESP_SENT {
        assert AcceptedAt(c'.log.sent, |c'.log.sent| - 1, t.command, U32(p, 2));
      }
    }
  }

  /** A state rebuilt from parts that satisfy the invariant. */
  lemma Rebuilt(s: State, r: State, sessions: map<int, Session>, up: Upstream, v: Verdict)
    requires Inv(s) && !s.failed && !v.fault && SessionFacts(s, sessions, up)
    requires r == s.(sessions := sessions, radio := v.radio, signing := v.signing, nextWrite := r.nextWrite, up := up,
                     actions := r.actions)
    requires up.active.Some? ==> TxnOk(s.cfg, up.active.value)
    requires WireOk(s.cfg.table, up)
    requires RemoteOk(v.radio.remote, sessions, up.active) && SigningOk(v.signing, up.active)
    requires AirOk(s.cfg.uncertaintyTimeout, v.radio.air, v.radio.log, up.active, s.now)
    ensures Inv(r)
  {
    hide WireOk, RosterOk, RemoteOk, AirOk, SigningOk, SlotsOk, SyncsOk, OutsOk, InboxesOk, ClientsOk, ConfigOk, TxnOk,
         OrphanOk, ScopeTied, Exclusive;
  }

  /** The final reply is in, the owner has been told, and the leases have not been updated so far. */
  ghost predicate Completing(s: State, t: Txn, p: Bytes, t': Txn, e: State, sessions: map<int, Session>) {
    && Inv(s) && !s.failed && s.up.active == Some(t) && t.owner != 0 && t.step.Command? && t.write.None?
    && SameTxn(t, t') && TxnOk(s.cfg, t') && t'.write.None?
    && ValidResponse(s.cfg.table, t.desc, p, t.command, t.contacts) && Completes(t.desc, p)
    && Prepared(s, t, p, sessions)
    && e == s.(sessions := sessions, nextWrite := e.nextWrite, actions := e.actions, up := GotUp(s.up, Some(t'), p))
  }

  ghost function Told(s: State, t': Txn, p: Bytes): Verdict {
    Outcome(s.radio, s.signing, t', p, s.now)
  }

  lemma VisibleOpcode(p: Bytes)
    ensures Opcode(Visible(p)) == Opcode(p)
  {
  }

  lemma CompletingLeases(s: State, t: Txn, p: Bytes, t': Txn, e: State, sessions: map<int, Session>, a: Option<Txn>)
    requires Completing(s, t, p, t', e, sessions) && (a.Some? ==> Lingers(t, a.value))
    ensures var v := Told(s, t', p);
            && !v.fault && v.radio.seen == s.radio.seen
            && RemoteOk(v.radio.remote, sessions, a) && SigningOk(v.signing, a)
            && AirOk(s.cfg.uncertaintyTimeout, v.radio.air, v.radio.log, a, s.now)
  {
    assert TableOk(s.cfg.table) && RemoteOk(s.radio.remote, s.sessions, Some(t)) && SigningOk(s.signing, Some(t));
    assert AirOk(s.cfg.uncertaintyTimeout, s.radio.air, s.radio.log, Some(t), s.now);
    assert Fitting(s.cfg.table, t'.desc, p) && (Opcode(p) == RESP_SENT ==> |p| == 10);
    hide Core, Outcome, TableOk, RemoteOk, SigningOk, AirOk, TxnOk, ValidResponse, Prepared, Fitting;
    TouchLeases(s, t, t');
    VisibleOpcode(p);
    PreparedRemote(s, t, p, sessions);
    TouchRemote(s.radio.remote, sessions, t, t', p);
    OutcomeSigning(s.cfg, s.radio, s.signing, t', p, s.now, a);
    OutcomeAir(s.cfg, s.radio, s.signing, t', p, s.now, a);
    OutcomeRemote(s.cfg, s.radio, s.signing, t', p, s.now, a, sessions);
    OutcomeFaultless(s.cfg, s.radio, s.signing, t', p, s.now);
  }

  lemma TouchRemote(r: Remote, sessions: map<int, Session>, t: Txn, t': Txn, p: Bytes)
    requires RemoteOk(r, sessions, Some(t)) && SameTxn(t, t') && ShowsAcceptance(sessions, t, p)
    ensures RemoteOk(r, sessions, Some(t')) && ShowsAcceptance(sessions, t', p)
  {
  }

  lemma GotReleases(s: State, t: Txn, p: Bytes, up: Upstream)
    requires s.up.active == Some(t) && (t.step.Setup? || t.step.Command?) && t.owner != 0
    requires Extends(s.up.wire, p, up.wire) && (up.active.Some? ==> Lingers(t, up.active.value))
    ensures Released(s, t, p, up)
  {
  }

  ghost function RestoringTxn(t': Txn, w: int): Txn {
    t'.(step := Restore, write := Some(w))
  }

  ghost function RestoringUp(s: State, e: State, t': Txn, p: Bytes): Upstream {
    var x := RestoringTxn(t', e.nextWrite + 1);
    Upstream(Some(x), s.up.writes[e.nextWrite + 1 := s.now + s.cfg.writeTimeout],
             s.up.wire + [Got(p)] + [Asked(DEFAULT_SCOPE, JobOf(x))])
  }

  lemma RestoringShape(s: State, t: Txn, p: Bytes, t': Txn, e: State, sessions: map<int, Session>)
    requires Completing(s, t, p, t', e, sessions) && t'.scoped
    ensures var v := Told(s, t', p);
            var r := CompleteCommand(e, t', p, None);
            r == s.(sessions := sessions, radio := v.radio, signing := v.signing, fault := s.fault || v.fault,
                    nextWrite := r.nextWrite, up := RestoringUp(s, e, t', p), actions := r.actions)
    ensures forall x :: CompleteCommand(e, t', p, x) == CompleteCommand(e, t', p, None)
  {
    hide Core, Outcome, Prepared, ValidResponse, TxnOk;
  }

  lemma RestoringKeeps(s: State, t: Txn, p: Bytes, t': Txn, e: State, sessions: map<int, Session>, emitted: Option<int>)
    requires Completing(s, t, p, t', e, sessions) && t'.scoped
    ensures Inv(CompleteCommand(e, t', p, emitted))
  {
    assert WireOk(s.cfg.table, s.up) && TxnOk(s.cfg, t) && !s.fault;
    var up := RestoringUp(s, e, t', p);
    FinalIsComplete(s.cfg, t, p);
    WireRestoring(s.cfg, s.up, t, p, up.active.value, up);
    assert TxnOk(s.cfg, up.active.value);
    hide Core, Outcome, Prepared, ValidResponse, TxnOk, WireOk, Final, Completes;
    GotReleases(s, t, p, up);
    PreparedFacts(s, t, p, sessions, up);
    CompletingLeases(s, t, p, t', e, sessions, up.active);
    RestoringShape(s, t, p, t', e, sessions);
    hide SessionFacts, Released, RemoteOk, SigningOk, AirOk, CompleteCommand;
    Rebuilt(s, CompleteCommand(e, t', p, None), sessions, up, Told(s, t', p));
  }

  lemma UnscopedUp(s: State, t: Txn, p: Bytes, t': Txn, e: State, sessions: map<int, Session>, a: Option<Txn>)
    requires Completing(s, t, p, t', e, sessions) && !t'.scoped
    requires a.None?
             || (Lingers(t, a.value) && a.value.step.MaintenanceResult? && a.value.write.None? && !a.value.scoped)
    ensures WireOk(s.cfg.table, GotUp(s.up, a, p)) && SessionFacts(s, sessions, GotUp(s.up, a, p))
  {
    assert WireOk(s.cfg.table, s.up) && TxnOk(s.cfg, t);
    FinalIsComplete(s.cfg, t, p);
    hide Core, Prepared, ValidResponse, TxnOk, WireOk, Final, Completes;
    WireReleased(s.cfg, s.up, t, p, a);
    GotReleases(s, t, p, GotUp(s.up, a, p));
    PreparedFacts(s, t, p, sessions, GotUp(s.up, a, p));
  }

  lemma ResultKeeps(s: State, t: Txn, p: Bytes, t': Txn, e: State, sessions: map<int, Session>, emitted: Option<int>)
    requires Completing(s, t, p, t', e, sessions) && !t'.scoped && t'.maintenance && emitted.Some?
    ensures Inv(CompleteCommand(e, t', p, emitted))
  {
    assert !s.fault;
    var x := t'.(step := MaintenanceResult, resultWrite := emitted);
    assert TxnOk(s.cfg, x);
    hide Core, Outcome, Prepared, ValidResponse, TxnOk, WireOk, SessionFacts, RemoteOk, SigningOk, AirOk, Completes;
    UnscopedUp(s, t, p, t', e, sessions, Some(x));
    CompletingLeases(s, t, p, t', e, sessions, Some(x));
    var r := CompleteCommand(e, t', p, emitted);
    Rebuilt(s, r, sessions, GotUp(s.up, Some(x), p), Told(s, t', p));
  }

  /** Nothing is left upstream: the transaction is released, and a maintenance one ends the epoch. */
  lemma PlainKeeps(s: State, t: Txn, p: Bytes, t': Txn, e: State, sessions: map<int, Session>)
    requires Completing(s, t, p, t', e, sessions) && !t'.scoped
    ensures Inv(Finish(RecordAcceptance(e, t', p), t'))
  {
    assert !s.fault;
    hide Core, Outcome, Prepared, ValidResponse, TxnOk, WireOk, SessionFacts, RemoteOk, SigningOk, AirOk, Completes,
         FailEpoch;
    UnscopedUp(s, t, p, t', e, sessions, None);
    CompletingLeases(s, t, p, t', e, sessions, None);
    var v := Told(s, t', p);
    var g := if t'.owner in sessions then v.signing else SigningOwnerGone(v.signing, t'.owner);
    assert SigningOk(g, None) by { DetachSigning(v.signing, None, t'.owner); }
    var released := s.(sessions := sessions, radio := v.radio, signing := g, nextWrite := e.nextWrite,
                       actions := e.actions, up := GotUp(s.up, None, p));
    Rebuilt(s, released, sessions, GotUp(s.up, None, p), v.(signing := g));
    assert Finish(RecordAcceptance(e, t', p), t') == (if t'.maintenance then FailEpoch(released) else released);
    if t'.maintenance {
      FailKeeps(released, false, [], false, []);
    }
  }

  lemma CompleteKeeps(s: State, t: Txn, p: Bytes, t': Txn, e: State, sessions: map<int, Session>, emitted: Option<int>)
    requires Completing(s, t, p, t', e, sessions)
    ensures Inv(CompleteCommand(e, t', p, emitted))
  {
    hide Completing, Inv, Finish, RecordAcceptance, SendStep;
    if t'.scoped {
      RestoringKeeps(s, t, p, t', e, sessions, emitted);
    } else if t'.maintenance && emitted.Some? {
      ResultKeeps(s, t, p, t', e, sessions, emitted);
    } else {
      PlainKeeps(s, t, p, t', e, sessions);
    }
  }

  // ----- A reply to a client's command -----

  /** A reply has arrived for the command of a client. */
  ghost predicate Answering(s: State, t: Txn, p: Bytes) {
    && Inv(s) && !s.failed && s.up.active == Some(t) && t.owner != 0 && t.step.Command? && t.write.None?
    && ValidResponse(s.cfg.table, t.desc, p, t.command, t.contacts)
  }

  ghost function Retargeted(s: State, t: Txn, p: Bytes): Session
    requires t.owner in s.sessions
  {
    var c := s.sessions[t.owner];
    if |t.command| >= 2 && t.command[0] == CMD_DEVICE_QUERY && Opcode(p) == RESP_DEVICE_INFO
    then c.(target := t.command[1]) else c
  }

  lemma RetargetedView(s: State, t: Txn, p: Bytes)
    requires t.owner in s.sessions && Completes(t.desc, p)
    ensures Retargeted(s, t, p).target == NextTarget(s.sessions[t.owner].target, Relayed(s, t, p))
  {
    VisibleOpcode(p);
    hide Visible, Completes;
  }

  lemma ReplyIsVisible(s: State, t: Txn, p: Bytes)
    requires Answering(s, t, p)
    ensures Visible(p) != NO_MORE
    ensures IsPush(Visible(p)) == IsPush(p) && (IsPush(p) ==> IsSelfRequest(t.command) && Completes(t.desc, p))
    ensures TxnOk(s.cfg, Progressed(t, p, s.now)) && SameTxn(t, Progressed(t, p, s.now))
  {
    assert TxnOk(s.cfg, t) && TableOk(s.cfg.table);
    assert CommandOk(s.cfg.table, t.command, t.desc);
    VisibleOpcode(p);
    assert Opcode(p) != RESP_NO_MORE_MESSAGES;
    hide Core, TableOk;
  }

  lemma HandedUnheard(s: State, t: Txn, p: Bytes)
    requires t.owner !in s.sessions
    ensures Handed(s, t, p) == s.(up := GotUp(s.up, Some(Progressed(t, p, s.now)), p))
  {
  }

  lemma HandedWithRoom(s: State, t: Txn, p: Bytes)
    requires HasRoom(s, t.owner)
    ensures var e := Handed(s, t, p);
            var c' := Sending(s, Retargeted(s, t, p), Relayed(s, t, p));
            && e == s.(sessions := s.sessions[t.owner := c'], up := GotUp(s.up, Some(Progressed(t, p, s.now)), p),
                       nextWrite := e.nextWrite, actions := e.actions)
            && e.nextWrite == s.nextWrite + 1
  {
    hide Aside, Only;
    var c' := Sending(s, Retargeted(s, t, p), Relayed(s, t, p));
    assert s.sessions[t.owner := Retargeted(s, t, p)][t.owner := c'] == s.sessions[t.owner := c'];
  }

  lemma HandedWithoutRoom(s: State, t: Txn, p: Bytes)
    requires s.up.active == Some(t) && t.owner in s.sessions && !HasRoom(s, t.owner) && t.step.Command?
    ensures Handed(s, t, p) == Handed(Detach(s, t.owner), t, p)
  {
    hide Aside, Only, Finish;
    var id := t.owner;
    var r := SetActive(Heard(s, p), Progressed(t, p, s.now));
    var r' := Retarget(r, t, p);
    assert r' == Put(r, id, Retargeted(s, t, p)) by {
      assert s.sessions[id := s.sessions[id]] == s.sessions;
    }
    RemovePut(r, id, Retargeted(s, t, p));
    HandedUnheard(Detach(s, id), t, p);
    DetachCommutes(s, id, t, p);
  }

  lemma DetachCommutes(s: State, id: int, t: Txn, p: Bytes)
    requires id in s.sessions && s.up.active == Some(t) && t.owner == id
    ensures Detach(SetActive(Heard(s, p), Progressed(t, p, s.now)), id) ==
            Detach(s, id).(up := GotUp(s.up, Some(Progressed(t, p, s.now)), p))
  {
    hide Aside, Only;
  }

  lemma ClientReplyShape(s: State, t: Txn, p: Bytes)
    ensures ClientReply(s, t, p) ==
            var e := Handed(s, t, p);
            var r := Relaying(s, t, p);
            if Completes(t.desc, p)
            then CompleteCommand(e, Progressed(t, p, s.now), p, if HasRoom(r, t.owner) then Some(e.nextWrite) else None)
            else e
  {
    hide Aside, Only, CompleteCommand, Emit;
  }

  lemma FinalReplyReady(s: State, t: Txn, p: Bytes) returns (sessions: map<int, Session>)
    requires Answering(s, t, p) && Completes(t.desc, p) && (t.owner in s.sessions ==> HasRoom(s, t.owner))
    ensures Completing(s, t, p, Progressed(t, p, s.now), Handed(s, t, p), sessions)
  {
    hide Core, ValidResponse, TxnOk, Completes, Handed, Aside, Only, Visible;
    ReplyIsVisible(s, t, p);
    if t.owner in s.sessions {
      HandedWithRoom(s, t, p);
      RetargetedView(s, t, p);
      var c' := Sending(s, Retargeted(s, t, p), Relayed(s, t, p));
      assert Replied(s, t, p, c', Relayed(s, t, p)) by { hide NextTarget; }
      sessions := s.sessions[t.owner := c'];
    } else {
      HandedUnheard(s, t, p);
      sessions := s.sessions;
    }
  }

  /** The final reply, told to an owner with room or to nobody. */
  lemma FinalReplyKeeps(s: State, t: Txn, p: Bytes)
    requires Answering(s, t, p) && Completes(t.desc, p) && (t.owner in s.sessions ==> HasRoom(s, t.owner))
    ensures Inv(ClientReply(s, t, p))
  {
    hide Inv, Answering, Completing, CompleteCommand, ClientReply, Completes, Handed, Retarget, Aside, Only;
    ClientReplyShape(s, t, p);
    var sessions := FinalReplyReady(s, t, p);
    var e := Handed(s, t, p);
    var r := Relaying(s, t, p);
    CompleteKeeps(s, t, p, Progressed(t, p, s.now), e, sessions,
                  if HasRoom(r, t.owner) then Some(e.nextWrite) else None);
  }

  // ----- A frame of a stream that is not its last -----

  lemma WirePart(cfg: Config, up: Upstream, t: Txn, t': Txn, p: Bytes)
    requires WireOk(cfg.table, up) && up.active == Some(t) && TxnOk(cfg, t) && t.owner != 0 && t.step.Command?
    requires !Completes(t.desc, p) && SameTxn(t, t') && t'.write == t.write
    ensures WireOk(cfg.table, GotUp(up, Some(t'), p)) && !Final(cfg.table, JobOf(t), p)
  {
    Getting(cfg.table, up.wire, p);
    FinalIsComplete(cfg, t, p);
    if up.wire != [] && up.wire[|up.wire| - 1].Asked? {
      assert Owed(cfg.table, up.wire) == Some(up.wire[|up.wire| - 1].job);
    }
    hide Disciplined, Owed, PhysicalScope, Final, TxnOk;
  }

  ghost function PartUp(s: State, t: Txn, p: Bytes): Upstream {
    GotUp(s.up, Some(Progressed(t, p, s.now)), p)
  }

  lemma RelayedPart(s: State, t: Txn, p: Bytes)
    requires !Completes(t.desc, p)
    ensures Relayed(s, t, p) == Out(Visible(p), Part(Reply(|s.up.wire|)))
  {
  }

  lemma PartRelay(s: State, t: Txn, p: Bytes)
    requires Answering(s, t, p) && !Completes(t.desc, p) && t.owner in s.sessions
    ensures var o := Relayed(s, t, p);
            SentOk(s.cfg.table, s.up.wire + [Got(p)], s.sessions[t.owner].log.sent + [o], t.owner)
  {
    hide Core, Owed, Final, WireOk, SentOk, TxnOk, ValidResponse, Visible, OutOk, DueTo, Completes, Relayed, IsPush,
         IsSelfRequest;
    var sent := s.sessions[t.owner].log.sent;
    RelayedPart(s, t, p);
    DueToOwner(s, t, p);
    ReplyIsVisible(s, t, p);
    assert SentOk(s.cfg.table, s.up.wire, sent, t.owner) by { CoreSession(s, t.owner, false, []); }
    assert TxnOk(s.cfg, t) by { CoreParts(s, false, []); }
    FinalIsComplete(s.cfg, t, p);
    RelaySent(s.cfg.table, s.up.wire, p, t.owner, sent, Relayed(s, t, p));
  }

  lemma PartOwner(s: State, t: Txn, p: Bytes, c': Session)
    requires Answering(s, t, p) && !Completes(t.desc, p) && HasRoom(s, t.owner)
    requires c' == Sending(s, s.sessions[t.owner], Relayed(s, t, p))
    ensures ClientOk(s.cfg, c', Current(PartUp(s, t, p).active, t.owner), true)
    ensures InboxOk(s.cfg.table, c', s.pops, 0)
    ensures SyncOk(c', s.slots, s.drain, PartUp(s, t, p), false)
  {
    hide Core, SentOk, ValidResponse, Visible, Fifo, InboxOk, ViewOk;
    var c := s.sessions[t.owner];
    var o := Relayed(s, t, p);
    CoreSession(s, t.owner, false, []);
    CoreView(s, t.owner, false, []);
    ViewGrows(c, c', o);
    InboxSame(s.cfg.table, c, c', s.pops, 0);
    FifoPart(c, c', o, Current(s.up.active, t.owner));
  }

  lemma PartOthers(s: State, t: Txn, p: Bytes)
    requires Answering(s, t, p) && !Completes(t.desc, p)
    ensures var up := PartUp(s, t, p);
            && ClientsOk(s.cfg, s.sessions, up.active)
            && SyncsOk(s.sessions, s.slots, s.drain, up, false)
            && OutsOk(s.cfg.table, s.sessions - {t.owner}, up.wire)
            && OrphanOk(s.cfg.table, s.orphan, s.sessions, up.active, s.debt)
            && ScopeTied(s.sessions, up.active) && Exclusive(s.sessions, up.active)
            && InboxesOk(s.cfg.table, s.sessions, s.pops, []) && SlotsOk(s.cfg, s.slots, s.sessions)
  {
    var t' := Progressed(t, p, s.now);
    ReplyIsVisible(s, t, p);
    DueToOwner(s, t, p);
    TouchLeases(s, t, t');
    TouchSessions(s, t, t');
    TouchSyncs(s, t, t', PartUp(s, t, p), false);
    assert OutsOk(s.cfg.table, s.sessions - {t.owner}, s.up.wire);
    OutsGrow(s.cfg.table, s.sessions - {t.owner}, s.up.wire, Got(p));
    hide WireOk, RemoteOk, SigningOk, SlotsOk, SyncsOk, OutsOk, InboxesOk, ClientsOk, TxnOk, ConfigOk, RosterOk, AirOk,
         OrphanOk, ScopeTied, Exclusive, Completes, DueTo, Owed;
  }

  /** The owner's session after one more frame of its stream. */
  ghost predicate PartReady(s: State, t: Txn, up: Upstream, c': Session) {
    && t.owner in s.sessions
    && ClientOk(s.cfg, c', Current(up.active, t.owner), true) && SentOk(s.cfg.table, up.wire, c'.log.sent, t.owner)
    && InboxOk(s.cfg.table, c', s.pops, 0) && SyncOk(c', s.slots, s.drain, up, false)
    && c'.slot == s.sessions[t.owner].slot && c'.scope == s.sessions[t.owner].scope
  }

  lemma PartIsReady(s: State, t: Txn, p: Bytes)
    requires Answering(s, t, p) && !Completes(t.desc, p) && HasRoom(s, t.owner)
    ensures PartReady(s, t, PartUp(s, t, p), Sending(s, s.sessions[t.owner], Relayed(s, t, p)))
  {
    hide Answering, Completes, SentOk, InboxOk, ClientOk, SyncOk, Relayed, PartUp, Current;
    AnsweringOwner(s, t, p);
    PartOwner(s, t, p, Sending(s, s.sessions[t.owner], Relayed(s, t, p)));
    PartRelay(s, t, p);
  }

  lemma PartSwaps(s: State, t: Txn, up: Upstream, c': Session)
    requires t.owner in s.sessions && t.owner != 0 && up.active.Some? && up.active.value.owner == t.owner
    requires ClientsOk(s.cfg, s.sessions, up.active) && SyncsOk(s.sessions, s.slots, s.drain, up, false)
    requires OutsOk(s.cfg.table, s.sessions - {t.owner}, up.wire) && InboxesOk(s.cfg.table, s.sessions, s.pops, [])
    requires SlotsOk(s.cfg, s.slots, s.sessions) && PartReady(s, t, up, c')
    ensures var sessions := s.sessions[t.owner := c'];
            && sessions.Keys == s.sessions.Keys && SlotsOk(s.cfg, s.slots, sessions)
            && ClientsOk(s.cfg, sessions, up.active) && OutsOk(s.cfg.table, sessions, up.wire)
            && SyncsOk(sessions, s.slots, s.drain, up, false) && InboxesOk(s.cfg.table, sessions, s.pops, [])
            && (ScopeTied(s.sessions, up.active) ==> ScopeTied(sessions, up.active))
            && (Exclusive(s.sessions, up.active) ==> Exclusive(sessions, up.active))
            && (OrphanOk(s.cfg.table, s.orphan, s.sessions, up.active, s.debt) ==>
                  OrphanOk(s.cfg.table, s.orphan, sessions, up.active, s.debt))
  {
    hide SentOk, InboxOk, ClientOk, SyncOk, Current, OutsOk, IsItem, SlotsOk;
    SwapTables(s, t.owner, c', up);
    SwapSlots(s.cfg, s.slots, s.sessions, t.owner, c');
  }

  lemma AnsweringOwner(s: State, t: Txn, p: Bytes)
    requires Answering(s, t, p)
    ensures s.up.active == Some(t) && t.owner != 0 && PartUp(s, t, p).active.Some?
    ensures PartUp(s, t, p).active.value.owner == t.owner && PartUp(s, t, p).wire == s.up.wire + [Got(p)]
  {
  }

  lemma RoomIsPresence(s: State, id: int)
    requires HasRoom(s, id)
    ensures id in s.sessions
  {
  }

  lemma PartFacts(s: State, t: Txn, p: Bytes)
    requires Answering(s, t, p) && !Completes(t.desc, p) && HasRoom(s, t.owner)
    ensures SessionFacts(s, s.sessions[t.owner := Sending(s, s.sessions[t.owner], Relayed(s, t, p))], PartUp(s, t, p))
  {
    hide Answering, Completes, SlotsOk, Relayed, ClientsOk, OutsOk, InboxesOk, SyncsOk, ScopeTied, Exclusive, OrphanOk,
         PartUp, Sending, HasRoom, PartReady;
    assert t.owner in s.sessions by { RoomIsPresence(s, t.owner); }
    AnsweringOwner(s, t, p);
    PartOthers(s, t, p);
    PartIsReady(s, t, p);
    PartSwaps(s, t, PartUp(s, t, p), Sending(s, s.sessions[t.owner], Relayed(s, t, p)));
  }

  lemma PartLeases(s: State, t: Txn, p: Bytes)
    requires Answering(s, t, p) && !Completes(t.desc, p)
    ensures var up := PartUp(s, t, p);
            && WireOk(s.cfg.table, up) && TxnOk(s.cfg, up.active.value) && !s.fault
            && RemoteOk(s.radio.remote, s.sessions, up.active) && SigningOk(s.signing, up.active)
            && AirOk(s.cfg.uncertaintyTimeout, s.radio.air, s.radio.log, up.active, s.now)
  {
    ReplyIsVisible(s, t, p);
    WirePart(s.cfg, s.up, t, Progressed(t, p, s.now), p);
    TouchLeases(s, t, Progressed(t, p, s.now));
    hide WireOk, RemoteOk, SigningOk, AirOk, TxnOk;
  }

  lemma PartReplyKeeps(s: State, t: Txn, p: Bytes)
    requires Answering(s, t, p) && !Completes(t.desc, p) && (t.owner in s.sessions ==> HasRoom(s, t.owner))
    ensures Inv(ClientReply(s, t, p))
  {
    hide Core, ClientReply, Answering, Completes;
    if t.owner in s.sessions {
      PartHeardKeeps(s, t, p);
    } else {
      PartUnheardKeeps(s, t, p);
    }
  }

  lemma PartHeardKeeps(s: State, t: Txn, p: Bytes)
    requires Answering(s, t, p) && !Completes(t.desc, p) && HasRoom(s, t.owner)
    ensures Inv(ClientReply(s, t, p))
  {
    hide Core, CompleteCommand, Emit, ClientReply, ValidResponse, TxnOk, Completes, Relayed, WireOk, RemoteOk,
         SigningOk, AirOk, Handed, SessionFacts;
    PartLeases(s, t, p);
    ReplyIsVisible(s, t, p);
    ClientReplyShape(s, t, p);
    var up := PartUp(s, t, p);
    var v := Verdict(s.radio, s.signing, None, false);
    var c' := Sending(s, s.sessions[t.owner], Relayed(s, t, p));
    HandedWithRoom(s, t, p);
    PartSameTarget(s, t, p);
    PartFacts(s, t, p);
    SwapRemote(s.radio.remote, s.sessions, up.active, t.owner, c');
    Rebuilt(s, Handed(s, t, p), s.sessions[t.owner := c'], up, v);
  }

  lemma PartUnheardKeeps(s: State, t: Txn, p: Bytes)
    requires Answering(s, t, p) && !Completes(t.desc, p) && t.owner !in s.sessions
    ensures Inv(ClientReply(s, t, p))
  {
    hide Core, CompleteCommand, Emit, ClientReply, ValidResponse, TxnOk, Completes, Relayed, WireOk, RemoteOk,
         SigningOk, AirOk, Handed, ClientsOk, OutsOk, SyncsOk, InboxesOk, SlotsOk, OrphanOk, ScopeTied, Exclusive;
    PartLeases(s, t, p);
    ClientReplyShape(s, t, p);
    HandedUnheard(s, t, p);
    PartOthers(s, t, p);
    assert s.sessions - {t.owner} == s.sessions;
    Rebuilt(s, Handed(s, t, p), s.sessions, PartUp(s, t, p), Verdict(s.radio, s.signing, None, false));
  }

  lemma PartSameTarget(s: State, t: Txn, p: Bytes)
    requires Answering(s, t, p) && !Completes(t.desc, p) && t.owner in s.sessions
    ensures Retargeted(s, t, p) == s.sessions[t.owner]
  {
    assert TxnOk(s.cfg, t) && TableOk(s.cfg.table);
    assert CommandOk(s.cfg.table, t.command, t.desc);
    hide Core, TableOk;
  }

  lemma ClientReplyKeeps(s: State, t: Txn, p: Bytes)
    requires Answering(s, t, p)
    ensures Inv(ClientReply(s, t, p))
  {
    hide Core, ClientReply, ValidResponse, Completes;
    if t.owner in s.sessions && !HasRoom(s, t.owner) {
      DetachKeeps(s, t.owner, false, []);
      NoRoomReply(s, t, p);
      var s' := Detach(s, t.owner);
      assert Answering(s', t, p) && t.owner !in s'.sessions;
      hide Detach;
      if Completes(t.desc, p) {
        FinalReplyKeeps(s', t, p);
      } else {
        PartReplyKeeps(s', t, p);
      }
    } else if Completes(t.desc, p) {
      FinalReplyKeeps(s, t, p);
    } else {
      PartReplyKeeps(s, t, p);
    }
  }

  lemma NoRoomReply(s: State, t: Txn, p: Bytes)
    requires Answering(s, t, p) && t.owner in s.sessions && !HasRoom(s, t.owner)
    ensures ClientReply(s, t, p) == ClientReply(Detach(s, t.owner), t, p)
  {
    hide Core, ClientReply, ValidResponse, Completes, CompleteCommand, Handed, Detach;
    HandedWithoutRoom(s, t, p);
    ClientReplyShape(s, t, p);
    ClientReplyShape(Detach(s, t.owner), t, p);
    assert Progressed(t, p, Detach(s, t.owner).now) == Progressed(t, p, s.now);
    RoomAfterRetarget(s, t, p);
    RoomAfterRetarget(Detach(s, t.owner), t, p);
    assert !HasRoom(Detach(s, t.owner), t.owner) by { DetachForgets(s, t.owner); }
  }

  lemma DetachForgets(s: State, id: int)
    requires id in s.sessions
    ensures id !in Detach(s, id).sessions
  {
  }

  lemma RoomAfterRetarget(s: State, t: Txn, p: Bytes)
    ensures HasRoom(Relaying(s, t, p), t.owner) == HasRoom(s, t.owner)
  {
  }
}
