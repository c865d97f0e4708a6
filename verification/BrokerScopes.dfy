/** Replies to hidden scope changes and to pops, and the routing of every ordinary reply. */
module BrokerScopes {
  import opened Wire
  import opened Protocol
  import opened Leases
  import opened Broker
  import opened BrokerInvariant
  import opened BrokerClients
  import opened BrokerPops
  import opened BrokerWire
  import opened BrokerReplies
  import AckRing

  /** A hidden scope change is upstream and its write has completed. */
  ghost predicate Scoping(s: State, t: Txn) {
    Inv(s) && !s.failed && s.up.active == Some(t) && t.write.None? && (t.step.Setup? || t.step.Restore?)
  }

  lemma RefusalIsNoted(s: State, t: Txn, t': Txn, p: Bytes)
    requires Inv(s) && !s.failed && s.up.active == Some(t) && SameTxn(t, t')
    requires Opcode(p) == RESP_ERR && (t.owner == 0 || t.step.Restore?)
    ensures DebtOk(s.cfg.table, Awaited(Some(t')), s.up.wire + [Got(p)]) && AwaitsReply(Some(t'))
  {
    hide Core, Owed, Disciplined, PhysicalScope;
    CoreParts(s, false, []);
    Getting(s.cfg.table, s.up.wire, p);
  }

  lemma FailHeard(s: State, t: Txn, t': Txn, p: Bytes)
    requires Inv(s) && !s.failed && s.up.active == Some(t) && SameTxn(t, t') && TxnOk(s.cfg, t')
    requires Opcode(p) == RESP_ERR && (t.owner == 0 || t.step.Restore?)
    ensures Inv(FailEpoch(s.(up := GotUp(s.up, Some(t'), p))))
  {
    RefusalIsNoted(s, t, t', p);
    hide DebtOk, WireOk, RemoteOk, SigningOk, SlotsOk, SyncsOk, OutsOk, InboxesOk, ClientsOk, ConfigOk, RosterOk, AirOk,
         TxnOk, OrphanOk, FailEpoch, Disciplined;
    CoreParts(s, false, []);
    TouchLeases(s, t, t');
    Getting(s.cfg.table, s.up.wire, p);
    var r := s.(up := GotUp(s.up, Some(t'), p));
    assert FailReady(r);
    FailFrom(r, false, []);
  }

  // ----- The scope is set: the command goes out -----

  ghost function CommandTxn(s: State, t: Txn): Txn {
    t.(progress := s.now, step := Command, write := Some(s.nextWrite + 1))
  }

  ghost function CommandUp(s: State, t: Txn): Upstream {
    var x := CommandTxn(s, t);
    Upstream(Some(x), s.up.writes[s.nextWrite + 1 := s.now + s.cfg.writeTimeout],
             s.up.wire + [Got(OK)] + [Asked(Forwarded(t.command), JobOf(x))])
  }

  lemma WireScoped(cfg: Config, up: Upstream, t: Txn, x: Txn, up': Upstream, frame: Bytes)
    requires WireOk(cfg.table, up) && up.active == Some(t) && t.step.Setup? && t.write.None? && TxnOk(cfg, t)
    requires x == t.(progress := x.progress, step := Command, write := x.write) && x.write.Some?
    requires up'.active == Some(x) && up'.wire == up.wire + [Got(OK)] + [Asked(frame, JobOf(x))]
    requires up'.writes.Keys == up.writes.Keys + {x.write.value}
    ensures WireOk(cfg.table, up')
  {
    Getting(cfg.table, up.wire, OK);
    assert Final(cfg.table, JobOf(t), OK);
    Asking(cfg.table, up.wire + [Got(OK)], frame, JobOf(x));
    hide Disciplined, Owed, PhysicalScope, Final;
  }

  lemma ScopedSessions(s: State, t: Txn, up: Upstream)
    requires Scoping(s, t) && t.step.Setup? && up.active == Some(CommandTxn(s, t)) && Extends(s.up.wire, OK, up.wire)
    requires t.owner != 0
    ensures SessionFacts(s, s.sessions, up)
  {
    hide WireOk, RemoteOk, SigningOk, SlotsOk, OutsOk, InboxesOk, ConfigOk, RosterOk, AirOk, TxnsOk, Fifo, DueTo, Owed;
    DueToOwner(s, t, OK);
    OutsExtend(s.cfg.table, s.sessions, s.up.wire, OK, up.wire);
    assert |s.up.wire| <= |up.wire|;
    hide Extends;
    var x := CommandTxn(s, t);
    forall id | id in s.sessions
      ensures ClientOk(s.cfg, s.sessions[id], Current(Some(x), id), Owns(Some(x), id))
      ensures SyncOk(s.sessions[id], s.slots, s.drain, up, false)
    {
      assert ClientOk(s.cfg, s.sessions[id], Current(s.up.active, id), Owns(s.up.active, id));
      assert SyncOk(s.sessions[id], s.slots, s.drain, s.up, false);
    }
  }

  lemma ScopedLeases(s: State, t: Txn, x: Txn)
    requires t.step.Setup? && x == t.(progress := x.progress, step := Command, write := x.write) && !t.desc.signing
    requires TxnOk(s.cfg, t) && TableOk(s.cfg.table)
    requires RemoteOk(s.radio.remote, s.sessions, Some(t)) && SigningOk(s.signing, Some(t))
    requires AirOk(s.cfg.uncertaintyTimeout, s.radio.air, s.radio.log, Some(t), s.now)
    ensures RemoteOk(s.radio.remote, s.sessions, Some(x)) && SigningOk(s.signing, Some(x))
    ensures AirOk(s.cfg.uncertaintyTimeout, s.radio.air, s.radio.log, Some(x), s.now)
  {
    assert CommandOk(s.cfg.table, t.command, t.desc);
    hide TableOk, AckRing.LogOk, AckRing.Replay, AckRing.InFlight;
  }

  lemma ScopingFacts(s: State, t: Txn)
    requires Scoping(s, t)
    ensures WireOk(s.cfg.table, s.up) && TxnOk(s.cfg, t) && TableOk(s.cfg.table) && !s.fault
    ensures RemoteOk(s.radio.remote, s.sessions, Some(t)) && SigningOk(s.signing, Some(t))
    ensures AirOk(s.cfg.uncertaintyTimeout, s.radio.air, s.radio.log, Some(t), s.now)
    ensures t.owner != 0 && !t.desc.signing && !t.maintenance
  {
    assert CommandOk(s.cfg.table, t.command, t.desc);
  }

  lemma SetupDoneShape(s: State, t: Txn)
    requires s.up.active == Some(t) && t.step.Setup? && t.owner != 0
    ensures var r := ScopeResponse(s, t, OK);
            r == s.(up := CommandUp(s, t), nextWrite := r.nextWrite, actions := r.actions)
  {
    hide FailEpoch, Finish, Emit, Forwarded;
  }

  lemma SetupDoneKeeps(s: State, t: Txn)
    requires Scoping(s, t) && t.step.Setup?
    ensures Inv(ScopeResponse(s, t, OK))
  {
    ScopingFacts(s, t);
    hide Core, WireOk, RemoteOk, SigningOk, AirOk, TableOk, ScopeResponse, Forwarded, CommandError;
    var x := CommandTxn(s, t);
    var up := CommandUp(s, t);
    assert TxnOk(s.cfg, x);
    hide TxnOk;
    WireScoped(s.cfg, s.up, t, x, up, Forwarded(t.command));
    assert Extends(s.up.wire, OK, up.wire);
    ScopedSessions(s, t, up);
    ScopedLeases(s, t, x);
    SetupDoneShape(s, t);
    hide SessionFacts;
    Rebuilt(s, ScopeResponse(s, t, OK), s.sessions, up, Verdict(s.radio, s.signing, None, false));
  }

  // ----- The scope is restored -----

  lemma WireRestored(cfg: Config, up: Upstream, t: Txn)
    requires WireOk(cfg.table, up) && up.active == Some(t) && t.step.Restore? && t.write.None? && TxnOk(cfg, t)
    ensures WireOk(cfg.table, GotUp(up, None, OK))
  {
    Getting(cfg.table, up.wire, OK);
    assert Final(cfg.table, JobOf(t), OK);
    hide Disciplined, Owed, PhysicalScope, Final;
  }

  lemma RestoredSessions(s: State, t: Txn)
    requires Scoping(s, t) && t.step.Restore? && t.owner != 0
    ensures SessionFacts(s, s.sessions, GotUp(s.up, None, OK))
  {
    hide Core, WireOk, RemoteOk, SigningOk, SlotsOk, OutsOk, InboxesOk, ConfigOk, RosterOk, AirOk, TxnsOk, Fifo, DueTo,
         Owed;
    CoreParts(s, false, []);
    DueToOwner(s, t, OK);
    OutsGrow(s.cfg.table, s.sessions, s.up.wire, Got(OK));
    forall id | id in s.sessions
      ensures ClientOk(s.cfg, s.sessions[id], Current(None, id), Owns(None, id))
      ensures SyncOk(s.sessions[id], s.slots, s.drain, GotUp(s.up, None, OK), false)
    {
      assert ClientOk(s.cfg, s.sessions[id], Current(s.up.active, id), Owns(s.up.active, id));
      assert SyncOk(s.sessions[id], s.slots, s.drain, s.up, false);
    }
  }

  lemma RestoredLeases(s: State, t: Txn, g: Signing)
    requires t.step.Restore? && (g == s.signing || g == SigningOwnerGone(s.signing, t.owner))
    requires RemoteOk(s.radio.remote, s.sessions, Some(t)) && SigningOk(s.signing, Some(t))
    requires AirOk(s.cfg.uncertaintyTimeout, s.radio.air, s.radio.log, Some(t), s.now)
    ensures RemoteOk(s.radio.remote, s.sessions, None) && SigningOk(g, None)
    ensures AirOk(s.cfg.uncertaintyTimeout, s.radio.air, s.radio.log, None, s.now)
  {
    hide AckRing.LogOk, AckRing.Replay, AckRing.InFlight;
  }

  lemma RestoreDoneKeeps(s: State, t: Txn)
    requires Scoping(s, t) && t.step.Restore?
    ensures Inv(ScopeResponse(s, t, OK))
  {
    assert WireOk(s.cfg.table, s.up) && TxnOk(s.cfg, t) && TableOk(s.cfg.table) && !s.fault;
    assert CommandOk(s.cfg.table, t.command, t.desc);
    assert RemoteOk(s.radio.remote, s.sessions, Some(t)) && SigningOk(s.signing, Some(t));
    assert AirOk(s.cfg.uncertaintyTimeout, s.radio.air, s.radio.log, Some(t), s.now);
    assert t.owner != 0 && !t.maintenance;
    hide Core, WireOk, TxnOk, RemoteOk, SigningOk, AirOk, TableOk, FailEpoch;
    WireRestored(s.cfg, s.up, t);
    RestoredSessions(s, t);
    var g := if t.owner in s.sessions then s.signing else SigningOwnerGone(s.signing, t.owner);
    RestoredLeases(s, t, g);
    hide SessionFacts;
    Rebuilt(s, ScopeResponse(s, t, OK), s.sessions, GotUp(s.up, None, OK), Verdict(s.radio, g, None, false));
  }

  // ----- The scope is refused -----

  lemma AbandonLeases(s: State, t: Txn, sessions: map<int, Session>)
    requires t.step.Setup? && TxnOk(s.cfg, t) && TableOk(s.cfg.table)
    requires RemoteOk(s.radio.remote, sessions, Some(t)) && SigningOk(s.signing, Some(t))
    requires AirOk(s.cfg.uncertaintyTimeout, s.radio.air, s.radio.log, Some(t), s.now)
    ensures var r := Abandon(s.radio, t);
            && RemoteOk(r.remote, sessions, None) && SigningOk(s.signing, None)
            && AirOk(s.cfg.uncertaintyTimeout, r.air, r.log, None, s.now)
  {
    assert CommandOk(s.cfg.table, t.command, t.desc);
    hide TableOk, AckRing.LogOk, AckRing.Replay, AckRing.InFlight;
    if PlainDm(t.command) {
      AckRing.CallExtends(s.radio.log, AckRing.Refused, s.cfg.uncertaintyTimeout);
    }
  }

  ghost predicate Refusing(s: State, t: Txn, p: Bytes) {
    Scoping(s, t) && t.step.Setup? && |p| == 2 && p[0] == RESP_ERR
  }

  ghost function RefusalOut(s: State, t: Txn, p: Bytes): Out {
    Out(p, Answer(t.command, Reply(|s.up.wire|)))
  }

  /** A refused scope ends the command: the state once its owner, if live, has been told. */
  lemma RefusedKeeps(s: State, t: Txn, p: Bytes, sessions: map<int, Session>, r: State)
    requires Refusing(s, t, p) && Prepared(s, t, p, sessions)
    requires var g := if t.owner in sessions then s.signing else SigningOwnerGone(s.signing, t.owner);
             r == s.(sessions := sessions, radio := Abandon(s.radio, t), signing := g, nextWrite := r.nextWrite,
                     actions := r.actions, up := GotUp(s.up, None, p))
    ensures Inv(r)
  {
    assert WireOk(s.cfg.table, s.up) && TxnOk(s.cfg, t) && TableOk(s.cfg.table) && !s.fault;
    assert RemoteOk(s.radio.remote, s.sessions, Some(t)) && SigningOk(s.signing, Some(t));
    assert AirOk(s.cfg.uncertaintyTimeout, s.radio.air, s.radio.log, Some(t), s.now);
    assert Final(s.cfg.table, JobOf(t), p) && t.owner != 0;
    hide Core, WireOk, TxnOk, RemoteOk, SigningOk, AirOk, TableOk, Final, Prepared, SessionFacts;
    WireReleased(s.cfg, s.up, t, p, None);
    GotReleases(s, t, p, GotUp(s.up, None, p));
    PreparedFacts(s, t, p, sessions, GotUp(s.up, None, p));
    PreparedRemote(s, t, p, sessions);
    AbandonLeases(s, t, sessions);
    var g := if t.owner in sessions then s.signing else SigningOwnerGone(s.signing, t.owner);
    assert SigningOk(g, None) by { DetachSigning(s.signing, None, t.owner); }
    Rebuilt(s, r, sessions, GotUp(s.up, None, p), Verdict(Abandon(s.radio, t), g, None, false));
  }

  ghost function RefusedState(s: State, t: Txn, p: Bytes): State {
    var r := SetActive(Heard(s, p), t.(progress := s.now));
    Emit(r.(radio := Abandon(r.radio, t)), t.owner, RefusalOut(s, t, p))
  }

  lemma RefusedShape(s: State, t: Txn, p: Bytes)
    requires t.step.Setup? && |p| == 2 && p[0] == RESP_ERR && !t.maintenance
    ensures var e := RefusedState(s, t, p);
            ScopeResponse(s, t, p) ==
            e.(up := e.up.(active := None),
               signing := if t.owner in e.sessions then e.signing else SigningOwnerGone(e.signing, t.owner))
  {
    hide FailEpoch, Emit, Aside, Only;
  }

  lemma RefusedUnheard(s: State, t: Txn, p: Bytes)
    requires t.owner !in s.sessions
    ensures RefusedState(s, t, p) == s.(up := GotUp(s.up, Some(t.(progress := s.now)), p), radio := Abandon(s.radio, t))
  {
  }

  lemma RefusedWithRoom(s: State, t: Txn, p: Bytes)
    requires HasRoom(s, t.owner)
    ensures var e := RefusedState(s, t, p);
            e == s.(sessions := s.sessions[t.owner := Sending(s, s.sessions[t.owner], RefusalOut(s, t, p))],
                    up := GotUp(s.up, Some(t.(progress := s.now)), p), radio := Abandon(s.radio, t),
                    nextWrite := e.nextWrite, actions := e.actions)
  {
    hide Aside, Only;
  }

  lemma RefusedWithoutRoom(s: State, t: Txn, p: Bytes)
    requires t.owner in s.sessions && !HasRoom(s, t.owner) && t.step.Setup? && s.up.active == Some(t)
    requires LeasedUpstream(Some(t)) ==> t.desc.remoteLease
    ensures RefusedState(s, t, p) == RefusedState(Detach(s, t.owner), t, p)
  {
    hide Aside, Only, Finish;
    var id := t.owner;
    RefusedUnheard(Detach(s, id), t, p);
    var r := SetActive(Heard(s, p), t.(progress := s.now)).(radio := Abandon(s.radio, t));
    assert Remove(r, id) == Detach(r, id);
    assert Detach(r, id) == Detach(s, id).(up := GotUp(s.up, Some(t.(progress := s.now)), p),
                                           radio := Abandon(Detach(s, id).radio, t));
  }

  lemma PreparedBy(s: State, t: Txn, p: Bytes, c': Session, o: Out)
    requires Replied(s, t, p, c', o)
    ensures Prepared(s, t, p, s.sessions[t.owner := c'])
  {
  }

  lemma PreparedUnheard(s: State, t: Txn, p: Bytes)
    requires t.owner !in s.sessions
    ensures Prepared(s, t, p, s.sessions)
  {
  }

  lemma SetupRefusedKeeps(s: State, t: Txn, p: Bytes)
    requires Refusing(s, t, p) && (t.owner in s.sessions ==> HasRoom(s, t.owner))
    ensures Inv(ScopeResponse(s, t, p))
  {
    hide Core, WireOk, RemoteOk, SigningOk, AirOk, TableOk, TxnOk, ScopeResponse, RefusedState, Prepared, Onward;
    ScopingFacts(s, t);
    RefusedShape(s, t, p);
    if t.owner in s.sessions {
      RefusedWithRoom(s, t, p);
      var c' := Sending(s, s.sessions[t.owner], RefusalOut(s, t, p));
      assert Replied(s, t, p, c', RefusalOut(s, t, p));
      assert Prepared(s, t, p, s.sessions[t.owner := c']) by { PreparedBy(s, t, p, c', RefusalOut(s, t, p)); }
      RefusedKeeps(s, t, p, s.sessions[t.owner := c'], ScopeResponse(s, t, p));
    } else {
      RefusedUnheard(s, t, p);
      assert Prepared(s, t, p, s.sessions) by { PreparedUnheard(s, t, p); }
      RefusedKeeps(s, t, p, s.sessions, ScopeResponse(s, t, p));
    }
  }

  lemma ScopeResponseKeeps(s: State, t: Txn, p: Bytes)
    requires Scoping(s, t)
    ensures Inv(ScopeResponse(s, t, p))
  {
    ScopingFacts(s, t);
    if !IsScopeReply(p) {
      FailKeeps(s, false, [], false, []);
    } else if p[0] == RESP_OK {
      assert p == OK;
      hide Core, ScopeResponse;
      if t.step.Setup? {
        SetupDoneKeeps(s, t);
      } else {
        RestoreDoneKeeps(s, t);
      }
    } else if t.step.Restore? {
      var t' := t.(progress := s.now);
      assert TxnOk(s.cfg, t');
      hide Core, TxnOk, FailEpoch;
      FailHeard(s, t, t', p);
    } else if t.owner in s.sessions && !HasRoom(s, t.owner) {
      hide Core, ScopeResponse, RefusedState;
      DetachKeeps(s, t.owner, false, []);
      RefusedWithoutRoom(s, t, p);
      RefusedShape(s, t, p);
      RefusedShape(Detach(s, t.owner), t, p);
      SetupRefusedKeeps(Detach(s, t.owner), t, p);
    } else {
      hide Core, ScopeResponse;
      SetupRefusedKeeps(s, t, p);
    }
  }

  // ----- Pops -----

  ghost predicate Popping(s: State, t: Txn) {
    Inv(s) && !s.failed && s.up.active == Some(t) && t.owner == 0 && t.write.None?
  }

  lemma WirePopped(cfg: Config, up: Upstream, t: Txn, p: Bytes)
    requires WireOk(cfg.table, up) && up.active == Some(t) && t.owner == 0 && t.write.None? && TxnOk(cfg, t)
    requires Opcode(p) != RESP_ERR
    ensures WireOk(cfg.table, GotUp(up, None, p))
  {
    Getting(cfg.table, up.wire, p);
    assert Final(cfg.table, JobOf(t), p);
    hide Disciplined, Owed, PhysicalScope, Final;
  }

  /** A pop has been answered and its result is about to be handed out. */
  lemma PopHeard(s: State, t: Txn, p: Bytes)
    requires Popping(s, t) && Opcode(p) != RESP_ERR
    ensures Core(s.(up := GotUp(s.up, None, p)), true, []) && s.debt.None?
    ensures p == NO_MORE ==> EmptyObserved(s.(up := GotUp(s.up, None, p)), t)
  {
    hide WireOk, RemoteOk, SigningOk, SlotsOk, SyncsOk, OutsOk, InboxesOk, ClientsOk, ConfigOk, RosterOk, AirOk, TxnOk,
         ScopeTied, Exclusive, EmptyObserved, DueTo, Owed, IsItem;
    CoreParts(s, false, []);
    PoppingFacts(s, t);
    WirePopped(s.cfg, s.up, t, p);
    DueToOwner(s, t, p);
    OutsGrow(s.cfg.table, s.sessions, s.up.wire, Got(p));
    PopHeardSessions(s, t, p);
    PopHeardLeases(s, t);
  }

  lemma PoppingFacts(s: State, t: Txn)
    requires Popping(s, t)
    ensures TxnOk(s.cfg, t) && t.step.Command? && t.command == POP
  {
    hide Core;
    CoreParts(s, false, []);
  }

  lemma PopHeardSessions(s: State, t: Txn, p: Bytes)
    requires Popping(s, t)
    ensures var up := GotUp(s.up, None, p);
            && ClientsOk(s.cfg, s.sessions, None) && SyncsOk(s.sessions, s.slots, s.drain, up, true)
            && (p == NO_MORE ==> EmptyObserved(s.(up := up), t))
  {
    hide Core, RemoteOk, SigningOk, SlotsOk, OutsOk, InboxesOk, ConfigOk, AirOk, TxnOk, Fifo, Disciplined, Owed,
         PhysicalScope, OrphanOk, ScopeTied, Exclusive;
    CoreParts(s, false, []);
    PoppingFacts(s, t);
    var up := GotUp(s.up, None, p);
    assert up.wire[t.born] == s.up.wire[t.born];
    forall id | id in s.sessions
      ensures ClientOk(s.cfg, s.sessions[id], Current(None, id), Owns(None, id))
      ensures SyncOk(s.sessions[id], s.slots, s.drain, up, true)
      ensures s.sessions[id].sync.Some? && s.sessions[id].sync.value.minimumPop <= t.popSeq ==>
                s.sessions[id].sync.value.registered <= t.born
    {
      assert ClientOk(s.cfg, s.sessions[id], Current(s.up.active, id), Owns(s.up.active, id));
      assert SyncOk(s.sessions[id], s.slots, s.drain, s.up, false);
    }
  }

  lemma PopHeardLeases(s: State, t: Txn)
    requires Popping(s, t)
    ensures RemoteOk(s.radio.remote, s.sessions, None) && SigningOk(s.signing, None)
    ensures AirOk(s.cfg.uncertaintyTimeout, s.radio.air, s.radio.log, None, s.now)
    ensures ScopeTied(s.sessions, None) && Exclusive(s.sessions, None)
  {
    hide Core, WireOk, SlotsOk, SyncsOk, OutsOk, InboxesOk, ClientsOk, RosterOk, OrphanOk, AckRing.LogOk,
         AckRing.Replay, AckRing.FreeSlot, AckRing.InFlight, Accepted, Sum;
    CoreParts(s, false, []);
    assert CommandOk(s.cfg.table, t.command, t.desc);
  }

  lemma PopResponseKeeps(s: State, t: Txn, p: Bytes)
    requires Popping(s, t)
    ensures Inv(CommandResponse(s, t, p))
  {
    hide Core, FailEpoch, PopResult, TxnOk, ValidResponse, IsItem, EmptyObserved, ClientReply, Onward, Orderly;
    PoppingFacts(s, t);
    if !ValidResponse(s.cfg.table, t.desc, p, t.command, t.contacts) {
      FailKeeps(s, false, [], false, []);
    } else if Opcode(p) == RESP_ERR {
      FailHeard(s, t, t, p);
    } else {
      PopReplyKind(s, t, p);
      PopHeard(s, t, p);
      var m := s.(up := GotUp(s.up, None, p));
      assert CommandResponse(s, t, p) == PopResult(m, t, p) by { PopResponseShape(s, t, p); }
      if Opcode(p) == RESP_NO_MORE_MESSAGES {
        EmptyResultKeeps(m, t, p);
      } else {
        ItemResultKeeps(m, t, p);
      }
    }
  }

  lemma PopReplyKind(s: State, t: Txn, p: Bytes)
    requires Popping(s, t) && ValidResponse(s.cfg.table, t.desc, p, t.command, t.contacts) && Opcode(p) != RESP_ERR
    ensures p != [] && (Opcode(p) == RESP_NO_MORE_MESSAGES ==> p == NO_MORE)
    ensures Opcode(p) != RESP_NO_MORE_MESSAGES ==> IsItem(s.cfg.table, p)
  {
    hide Core;
    PoppingFacts(s, t);
    CoreParts(s, false, []);
    assert CommandOk(s.cfg.table, t.command, t.desc);
  }

  lemma PopResponseShape(s: State, t: Txn, p: Bytes)
    requires ValidResponse(s.cfg.table, t.desc, p, t.command, t.contacts) && t.owner == 0 && p[0] != RESP_ERR
    ensures CommandResponse(s, t, p) == PopResult(s.(up := GotUp(s.up, None, p)), t, p)
  {
    hide PopResult, ValidResponse;
  }

  // ----- Every ordinary reply -----

  lemma CommandResponseKeeps(s: State, t: Txn, p: Bytes)
    requires Inv(s) && !s.failed && s.up.active == Some(t) && t.step.Command? && t.write.None?
    ensures Inv(CommandResponse(s, t, p))
  {
    if t.owner == 0 {
      hide Core, CommandResponse;
      PopResponseKeeps(s, t, p);
    } else if !ValidResponse(s.cfg.table, t.desc, p, t.command, t.contacts) {
      hide Core, FailEpoch, ValidResponse;
      FailKeeps(s, false, [], false, []);
    } else {
      hide Core, ClientReply, ValidResponse;
      ClientReplyKeeps(s, t, p);
    }
  }

  lemma TxnResponseKeeps(s: State, p: Bytes)
    requires Inv(s) && !s.failed
    ensures Inv(TxnResponse(s, p))
  {
    hide Core, FailEpoch, ScopeResponse, CommandResponse;
    if s.up.active.None? {
      FailKeeps(s, false, [], false, []);
    } else {
      SettleWriteKeeps(s);
      var r := SettleWrite(s);
      var t := r.up.active.value;
      match t.step
      case Setup => ScopeResponseKeeps(r, t, p);
      case Restore => ScopeResponseKeeps(r, t, p);
      case MaintenanceResult => FailKeeps(r, false, [], false, []);
      case Command => CommandResponseKeeps(r, t, p);
    }
  }
}
