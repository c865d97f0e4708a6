/** Local decisions, admission and dispatch keep the invariant. */
module BrokerSchedule {
  import opened Wire
  import opened Protocol
  import opened Leases
  import opened Slots
  import opened Broker
  import opened BrokerInvariant
  import opened BrokerClients
  import opened BrokerInbox
  import opened BrokerWire
  import AckRing

  // ----- Local decisions -----

  lemma LocalHeadKeeps(s: State, id: int)
    requires Inv(s) && AtHead(s, id)
    ensures Inv(LocalHead(s, id))
  {
    hide Core, AnswerHead, AnswerRescope, Register, DeliverHead, InboxOf;
    match Decide(s.cfg, s.sessions[id].commands[0], s.now)
    case Forward =>
    case Refuse(p) => AnswerHeadKeeps(s, id, p, false, []);
    case Rescope => RescopeKeeps(s, id, false, []);
    case Sync =>
      if InboxOf(s, id) == [] {
        RegisterKeeps(s, id);
      } else {
        DeliverHeadKeeps(s, id);
      }
  }

  lemma DeliverHeadKeeps(s: State, id: int)
    requires Inv(s) && AtHead(s, id) && InboxOf(s, id) != []
    ensures Inv(DeliverHead(s, id))
  {
    hide Core, DeliverHead;
    if s.sessions[id].slot.None? {
      DeliverHeadMulti(s, id, false, []);
    } else {
      DeliverHeadSlot(s, id, false, []);
    }
  }

  /** Every local decision but forwarding takes one command off the queue, or the session leaves. */
  lemma LocalHeadShifts(s: State, id: int)
    requires Inv(s) && AtHead(s, id) && !Decide(s.cfg, s.sessions[id].commands[0], s.now).Forward?
    ensures var r := LocalHead(s, id);
            id in r.sessions ==> r.sessions[id].commands == s.sessions[id].commands[1..]
  {
    hide Core, Remove, Decide, Aside, Only, Downgrade, Take;
    var c := s.sessions[id];
    RemoveForgets(Put(s, id, Shift(c)), id);
    RemoveForgets(Put(s, id, Shift(c).(scope := c.commands[0].payload)), id);
  }

  lemma RemoveForgets(s: State, id: int)
    ensures id !in Remove(s, id).sessions
  {
  }

  /** Nothing more can be decided locally for that session. */
  ghost predicate Settled(s: State, id: int) {
    Idle(s, id) || Decide(s.cfg, s.sessions[id].commands[0], s.now).Forward?
  }

  lemma {:induction false} LocalHeadsKeeps(s: State, id: int, n: nat)
    requires Inv(s) && !Owns(s.up.active, id)
    ensures Inv(LocalHeads(s, id, n))
    ensures (id in s.sessions ==> |s.sessions[id].commands| <= n) ==> Settled(LocalHeads(s, id, n), id)
    decreases n
  {
    hide Core, LocalHead, Decide;
    if n > 0 && !Settled(s, id) {
      LocalHeadKeeps(s, id);
      LocalHeadShifts(s, id);
      var r := LocalHead(s, id);
      StillNotOwner(s, r, id);
      LocalHeadsKeeps(r, id, n - 1);
    }
  }

  lemma StillNotOwner(s: State, r: State, id: int)
    requires Aside(s, r) && Inv(r) && !Owns(s.up.active, id)
    ensures !Owns(r.up.active, id)
  {
    hide ClientsOk, OutsOk, InboxesOk, WireOk, TxnsOk, RosterOk, RemoteOk, AirOk, SigningOk, OrphanOk, SlotsOk, SyncsOk;
  }

  lemma {:induction false} LocalPassKeeps(s: State, ids: seq<int>, done: seq<int>)
    requires Inv(s)
    requires forall x | x in done :: Settled(s, x) || Owns(s.up.active, x)
    ensures var r := LocalPass(s, ids);
            Inv(r) && (r.up.active.None? ==> forall x | x in done || x in ids :: Settled(r, x))
    decreases |ids|
  {
    hide Core, LocalHeads, Decide;
    if ids != [] {
      var id := ids[0];
      if id !in s.sessions || s.sessions[id].sync.Some? || Owns(s.up.active, id) {
        LocalPassKeeps(s, ids[1..], done + [id]);
      } else {
        var n := |s.sessions[id].commands|;
        LocalHeadsKeeps(s, id, n);
        var r := LocalHeads(s, id, n);
        forall x | x in done + [id]
          ensures Settled(r, x) || Owns(r.up.active, x)
        {
          SettledStays(s, r, id, x);
        }
        LocalPassKeeps(r, ids[1..], done + [id]);
      }
    }
  }

  lemma SettledStays(s: State, r: State, id: int, x: int)
    requires Aside(s, r) && Only(s, r, id) && Inv(r)
    requires if x == id then Settled(r, x) else Settled(s, x) || Owns(s.up.active, x)
    ensures Settled(r, x) || Owns(r.up.active, x)
  {
    hide ClientsOk, OutsOk, InboxesOk, WireOk, TxnsOk, RosterOk, RemoteOk, AirOk, SigningOk, OrphanOk, SlotsOk, SyncsOk,
         Decide;
  }

  // ----- Admission -----

  ghost predicate LeasesOk(s: State, v: Verdict, active: Option<Txn>) {
    && RemoteOk(v.radio.remote, s.sessions, active)
    && SigningOk(v.signing, active)
    && AirOk(s.cfg.uncertaintyTimeout, v.radio.air, v.radio.log, active, s.now)
  }

  lemma InquireKeepsAir(s: State)
    requires AirOk(s.cfg.uncertaintyTimeout, s.radio.air, s.radio.log, None, s.now)
    ensures var r := Inquire(s.radio, s.now);
            AirOk(s.cfg.uncertaintyTimeout, r.air, r.log, None, s.now)
  {
    hide AckRing.LogOk, AckRing.Replay, AckRing.InFlight;
    AckRing.CallExtends(s.radio.log, AckRing.Checked(s.now), s.cfg.uncertaintyTimeout);
  }

  lemma ExpireKeepsRemote(r: Remote, sessions: map<int, Session>, now: Time)
    requires RemoteOk(r, sessions, None)
    ensures RemoteOk(Expire(r, now), sessions, None)
  {
  }

  lemma ExpireKeepsSigning(g: Signing, now: Time, timeout: Time)
    requires SigningOk(g, None)
    ensures SigningOk(ExpireSigning(g, now, timeout), None)
  {
  }

  /** A refused admission leaves the leases as if nothing were upstream. */
  lemma RefusalKeepsLeases(s: State, id: int, c: Bytes)
    requires s.up.active.None? && TableOk(s.cfg.table) && ValidCommand(s.cfg.table, c)
    requires RemoteOk(s.radio.remote, s.sessions, None) && SigningOk(s.signing, None)
    requires AirOk(s.cfg.uncertaintyTimeout, s.radio.air, s.radio.log, None, s.now)
    requires Admission(s, id, c).reason.Some?
    ensures LeasesOk(s, Admission(s, id, c), None) && !Admission(s, id, c).fault
    ensures Admission(s, id, c).radio.seen == s.radio.seen
  {
    InquireKeepsAir(s);
    ExpireKeepsRemote(s.radio.remote, s.sessions, s.now);
    ExpireKeepsSigning(s.signing, s.now, s.cfg.signingTimeout);
    assert CommandOk(s.cfg.table, c, s.cfg.table.descriptor(c).value);
    hide AirOk, RemoteOk, SigningOk, Inquire, Expire, ExpireSigning, AckRing.Quarantined, AckRing.AnyPending,
         AckRing.FreeSlot, Classify, ShapesOk;
  }

  /** The transaction an admitted command starts. */
  ghost predicate Starts(cfg: Config, t: Txn, id: int, c: Bytes) {
    && ValidCommand(cfg.table, c) && t.owner == id && t.command == c && t.desc == cfg.table.descriptor(c).value
    && (t.step.Command? || (t.step.Setup? && t.desc.scopeSend))
  }

  lemma AdmittedRemote(s: State, id: int, c: Bytes, t: Txn)
    requires TableOk(s.cfg.table) && Starts(s.cfg, t, id, c) && id in s.sessions
    requires RemoteOk(s.radio.remote, s.sessions, None)
    requires Admission(s, id, c).reason.None?
    ensures RemoteOk(Admission(s, id, c).radio.remote, s.sessions, Some(t)) && !Admission(s, id, c).fault
  {
    ExpireKeepsRemote(s.radio.remote, s.sessions, s.now);
    assert CommandOk(s.cfg.table, c, t.desc);
    assert t.desc.remoteLease ==> Leasable(c);
    hide AirOk, SigningOk, Accepted, ExpireSigning, AckRing.Quarantined, AckRing.AnyPending, AckRing.FreeSlot, ShapesOk,
         AckRing.AfterCheck, BeginData, BeginFinish, StartSigning;
  }

  lemma AdmittedSigning(s: State, id: int, c: Bytes, t: Txn)
    requires TableOk(s.cfg.table) && Starts(s.cfg, t, id, c)
    requires SigningOk(s.signing, None)
    requires Admission(s, id, c).reason.None?
    ensures SigningOk(Admission(s, id, c).signing, Some(t))
  {
    ExpireKeepsSigning(s.signing, s.now, s.cfg.signingTimeout);
    assert CommandOk(s.cfg.table, c, t.desc);
    hide AirOk, RemoteOk, Inquire, Expire, Reserve, AckRing.Quarantined, AckRing.AnyPending, AckRing.FreeSlot, ShapesOk,
         Leasable;
  }

  lemma AdmittedAir(s: State, id: int, c: Bytes, t: Txn)
    requires TableOk(s.cfg.table) && Starts(s.cfg, t, id, c)
    requires AirOk(s.cfg.uncertaintyTimeout, s.radio.air, s.radio.log, None, s.now)
    requires Admission(s, id, c).reason.None?
    ensures var v := Admission(s, id, c);
            AirOk(s.cfg.uncertaintyTimeout, v.radio.air, v.radio.log, Some(t), s.now)
  {
    InquireKeepsAir(s);
    assert CommandOk(s.cfg.table, c, t.desc);
    hide AckRing.LogOk, AckRing.Replay, AckRing.InFlight, RemoteOk, Expire, Reserve, ShapesOk, Leasable, StartSigning,
         BeginData, BeginFinish, ExpireSigning, AckRing.AnyPending, AckRing.FreeSlot;
    if PlainDm(c) {
      var asked := Inquire(s.radio, s.now);
      AckRing.CallExtends(asked.log, AckRing.Launched(s.now), s.cfg.uncertaintyTimeout);
    }
  }

  lemma AdmittedMaintenance(s: State, id: int, c: Bytes)
    requires id in s.sessions && s.cfg.table.descriptor(c).Some? && c != []
    requires s.cfg.table.descriptor(c).value.maintenance && c[0] != CMD_REBOOT && Admission(s, id, c).reason.None?
    ensures forall x | x in s.sessions :: x == id
  {
    hide Inquire, Expire, ExpireSigning, AckRing.Quarantined, AckRing.AnyPending;
    assert |s.sessions.Keys - {id}| == 0;
    assert s.sessions.Keys == {id};
  }

  // ----- Dispatch -----

  lemma FifoLaunch(c: Session, command: Bytes)
    requires Fifo(c, []) && c.sync.None? && c.commands != [] && command == c.commands[0].payload
    ensures Fifo(Shift(c), [command])
  {
    assert Payloads(c.commands) == [c.commands[0].payload] + Payloads(c.commands[1..]);
  }

  /** The sessions after the head of one queue went upstream as transaction `t`. */
  lemma LaunchClients(s: State, id: int, t: Txn)
    requires Inv(s) && AtHead(s, id) && s.up.active.None? && t.owner == id
    requires t.command == s.sessions[id].commands[0].payload
    requires t.step.Setup? || t.step.Command?
    ensures ClientsOk(s.cfg, s.sessions[id := Shift(s.sessions[id])], Some(t))
  {
    hide WireOk, TxnsOk, RosterOk, RemoteOk, AirOk, SigningOk, OrphanOk, SlotsOk, SyncsOk, OutsOk, InboxesOk, Fifo;
    var c := s.sessions[id];
    var sessions := s.sessions[id := Shift(c)];
    forall x | x in sessions
      ensures ClientOk(s.cfg, sessions[x], Current(Some(t), x), Owns(Some(t), x))
    {
      assert ClientOk(s.cfg, s.sessions[x], Current(None, x), Owns(None, x));
      if x == id {
        FifoLaunch(c, t.command);
      }
    }
  }

  lemma LaunchInboxes(s: State, id: int, wire: seq<WireEvent>)
    requires Inv(s) && AtHead(s, id)
    requires OutsOk(s.cfg.table, s.sessions, wire)
    ensures var sessions := s.sessions[id := Shift(s.sessions[id])];
            && OutsOk(s.cfg.table, sessions, wire)
            && InboxesOk(s.cfg.table, sessions, s.pops, [])
            && SlotsOk(s.cfg, s.slots, sessions)
  {
    hide WireOk, TxnsOk, RosterOk, RemoteOk, AirOk, SigningOk, OrphanOk, SlotsOk, SyncsOk, SentOk, InboxOk, ClientsOk;
    var c := s.sessions[id];
    assert InboxOk(s.cfg.table, c, s.pops, 0);
    InboxView(s.cfg.table, c, s.pops, 0);
    InboxSame(s.cfg.table, c, Shift(c), s.pops, 0);
    SwapSlots(s.cfg, s.slots, s.sessions, id, Shift(c));
  }

  lemma LaunchSyncs(s: State, id: int, up: Upstream)
    requires Inv(s) && AtHead(s, id) && !PopInFlight(up.active) && |s.up.wire| <= |up.wire| && s.up.active.None?
    ensures SyncsOk(s.sessions[id := Shift(s.sessions[id])], s.slots, s.drain, up, false)
  {
    hide WireOk, TxnsOk, RosterOk, RemoteOk, AirOk, SigningOk, OrphanOk, SlotsOk, OutsOk, InboxesOk, ClientsOk;
    var sessions := s.sessions[id := Shift(s.sessions[id])];
    forall x | x in sessions
      ensures SyncOk(sessions[x], s.slots, s.drain, up, false)
    {
      assert SyncOk(s.sessions[x], s.slots, s.drain, s.up, false);
    }
  }

  /** The upstream side after a first frame was asked for a new transaction. */
  lemma FirstFrameWire(cfg: Config, up: Upstream, up': Upstream, t: Txn, frame: Bytes)
    requires WireOk(cfg.table, up) && up.active.None? && TxnOk(cfg, t) && t.write.Some? && TableOk(cfg.table)
    requires t.step.Setup? || (t.step.Command? && !t.scoped)
    requires t.step.Setup? ==> frame == t.want
    requires t.owner == 0 ==> frame == POP && t.born == |up.wire|
    requires up'.active == Some(t) && up'.wire == up.wire + [Asked(frame, JobOf(t))]
    requires up'.writes.Keys == up.writes.Keys + {t.write.value}
    ensures WireOk(cfg.table, up')
  {
    Asking(cfg.table, up.wire, frame, JobOf(t));
    hide Disciplined, Owed, PhysicalScope, TableOk;
  }

  ghost predicate Forwardable(s: State, id: int) {
    AtHead(s, id) && s.up.active.None? && !s.failed && Decide(s.cfg, s.sessions[id].commands[0], s.now).Forward?
  }

  /** The transaction and first frame of an admitted command. */
  ghost function FirstTxn(s: State, id: int): Txn
    requires id in s.sessions && s.sessions[id].commands != []
    requires s.cfg.table.descriptor(s.sessions[id].commands[0].payload).Some?
  {
    var c := s.sessions[id].commands[0].payload;
    var t := NewTxn(s, id, c, s.cfg.table.descriptor(c).value);
    t.(step := if t.scoped then Setup else Command, write := Some(s.nextWrite + 1))
  }

  ghost function FirstFrame(t: Txn): Bytes {
    if t.step.Setup? then t.want else Forwarded(t.command)
  }

  ghost function FirstUp(s: State, t: Txn): Upstream {
    Upstream(Some(t), s.up.writes[s.nextWrite + 1 := s.now + s.cfg.writeTimeout],
             s.up.wire + [Asked(FirstFrame(t), JobOf(t))])
  }

  lemma DispatchShape(s: State, id: int, c: Bytes)
    requires s.cfg.table.descriptor(c).Some? && id != 0
    ensures var t := NewTxn(s, id, c, s.cfg.table.descriptor(c).value);
            var x := t.(step := if t.scoped then Setup else Command, write := Some(s.nextWrite + 1));
            var r := Dispatch(s, id, c);
            r == s.(nextWrite := s.nextWrite + 1, up := FirstUp(s, x), actions := r.actions)
  {
    hide NewTxn, Onward, Orderly, Forwarded;
    NewTxnFields(s, id, c, s.cfg.table.descriptor(c).value);
  }

  lemma NewTxnFields(s: State, id: int, c: Bytes, d: Descriptor)
    ensures var t := NewTxn(s, id, c, d); t.owner == id && t.command == c
  {
  }

  lemma LaunchShape(s: State, id: int)
    requires id in s.sessions && s.sessions[id].commands != [] && id != 0
    requires s.cfg.table.descriptor(s.sessions[id].commands[0].payload).Some?
    requires Admission(s, id, s.sessions[id].commands[0].payload).reason.None?
    ensures var v := Admission(s, id, s.sessions[id].commands[0].payload);
            var t := FirstTxn(s, id);
            var r := Launch(s, id);
            r == s.(sessions := s.sessions[id := Shift(s.sessions[id])], radio := v.radio, signing := v.signing,
                    fault := s.fault || v.fault, nextWrite := s.nextWrite + 1,
                    up := FirstUp(s, t), actions := r.actions)
  {
    hide Admission, Aside, Only, Onward, Orderly, AnswerHead, Forwarded, Dispatch, FirstUp;
    var c := s.sessions[id].commands[0].payload;
    var v := Admission(s, id, c);
    var r := Put(s.(radio := v.radio, signing := v.signing, fault := s.fault || v.fault), id, Shift(s.sessions[id]));
    DispatchShape(r, id, c);
    var d := s.cfg.table.descriptor(c).value;
    assert NewTxn(r, id, c, d) == NewTxn(s, id, c, d);
    SameFirstUp(r, s, FirstTxn(s, id));
  }

  lemma SameFirstUp(r: State, s: State, t: Txn)
    requires r.up == s.up && r.nextWrite == s.nextWrite && r.now == s.now && r.cfg == s.cfg
    ensures FirstUp(r, t) == FirstUp(s, t)
  {
  }

  lemma FirstTxnOk(s: State, id: int)
    requires ConfigOk(s.cfg) && Forwardable(s, id) && id != 0
    ensures ValidCommand(s.cfg.table, s.sessions[id].commands[0].payload)
    ensures TxnOk(s.cfg, FirstTxn(s, id))
    ensures Starts(s.cfg, FirstTxn(s, id), id, s.sessions[id].commands[0].payload)
    ensures FirstTxn(s, id).desc.scopeSend ==> FirstTxn(s, id).want == s.sessions[id].scope
    ensures FirstTxn(s, id).command != [] && FirstTxn(s, id).maintenance == FirstTxn(s, id).desc.maintenance
  {
    var t := FirstTxn(s, id);
    assert CommandOk(s.cfg.table, t.command, t.desc);
  }

  lemma ConfigTable(cfg: Config)
    requires ConfigOk(cfg)
    ensures TableOk(cfg.table)
  {
  }

  lemma FirstTxnFields(s: State, id: int)
    requires id in s.sessions && s.sessions[id].commands != []
    requires s.cfg.table.descriptor(s.sessions[id].commands[0].payload).Some?
    ensures var t := FirstTxn(s, id);
            t.write == Some(s.nextWrite + 1) && (t.step.Setup? || (t.step.Command? && !t.scoped)) && t.owner == id
  {
  }

  lemma LaunchUp(s: State, id: int)
    requires Inv(s) && Forwardable(s, id) && id != 0
    requires TxnOk(s.cfg, FirstTxn(s, id))
    ensures WireOk(s.cfg.table, FirstUp(s, FirstTxn(s, id)))
    ensures OutsOk(s.cfg.table, s.sessions, FirstUp(s, FirstTxn(s, id)).wire)
  {
    hide Core, WireOk, OutsOk, TxnOk, ConfigOk, TableOk, Forwarded, HasMulti, ClientsOk, SlotsOk, SyncsOk, InboxesOk,
         RemoteOk, SigningOk, AirOk, OrphanOk, RosterOk, TxnsOk, ScopeTied, Exclusive;
    CoreParts(s, false, []);
    assert s.cfg.table.descriptor(s.sessions[id].commands[0].payload).Some?;
    hide Decide, CommandError;
    assert TableOk(s.cfg.table) by { ConfigTable(s.cfg); }
    var t := FirstTxn(s, id);
    FirstTxnFields(s, id);
    hide FirstTxn;
    FirstFrameWire(s.cfg, s.up, FirstUp(s, t), t, FirstFrame(t));
    OutsGrow(s.cfg.table, s.sessions, s.up.wire, Asked(FirstFrame(t), JobOf(t)));
  }

  lemma LaunchedLeases(s: State, id: int, t: Txn)
    requires Inv(s) && AtHead(s, id) && s.up.active.None? && !s.failed
    requires Starts(s.cfg, t, id, s.sessions[id].commands[0].payload)
    requires Admission(s, id, s.sessions[id].commands[0].payload).reason.None?
    ensures var v := Admission(s, id, t.command);
            && RemoteOk(v.radio.remote, s.sessions[id := Shift(s.sessions[id])], Some(t))
            && SigningOk(v.signing, Some(t))
            && AirOk(s.cfg.uncertaintyTimeout, v.radio.air, v.radio.log, Some(t), s.now)
            && !v.fault
  {
    hide Admission, WireOk, TxnOk, RosterOk, RemoteOk, AirOk, SigningOk, SlotsOk, SyncsOk, OutsOk, InboxesOk, ClientsOk;
    AdmittedRemote(s, id, t.command, t);
    SwapRemote(Admission(s, id, t.command).radio.remote, s.sessions, Some(t), id, Shift(s.sessions[id]));
    AdmittedSigning(s, id, t.command, t);
    AdmittedAir(s, id, t.command, t);
  }

  lemma LaunchedAlone(s: State, id: int, t: Txn)
    requires id in s.sessions && s.sessions[id].commands != []
    requires Starts(s.cfg, t, id, s.sessions[id].commands[0].payload)
    requires t.command != [] && t.maintenance == t.desc.maintenance && Admission(s, id, t.command).reason.None?
    requires t.desc.scopeSend ==> t.want == s.sessions[id].scope
    ensures var sessions := s.sessions[id := Shift(s.sessions[id])];
            Exclusive(sessions, Some(t)) && ScopeTied(sessions, Some(t))
  {
    if t.maintenance && Opcode(t.command) != CMD_REBOOT {
      AdmittedMaintenance(s, id, t.command);
    }
    hide Admission;
  }

  /** Everything the invariant says of the sessions and the upstream side after a launch. */
  lemma LaunchedSessions(s: State, id: int, t: Txn)
    requires Inv(s) && Forwardable(s, id) && id != 0 && t == FirstTxn(s, id)
    ensures var sessions := s.sessions[id := Shift(s.sessions[id])];
            var up := FirstUp(s, t);
            && TxnOk(s.cfg, t) && t.owner == id && t.command == s.sessions[id].commands[0].payload
            && WireOk(s.cfg.table, up)
            && ClientsOk(s.cfg, sessions, Some(t))
            && OutsOk(s.cfg.table, sessions, up.wire)
            && InboxesOk(s.cfg.table, sessions, s.pops, [])
            && SlotsOk(s.cfg, s.slots, sessions)
            && SyncsOk(sessions, s.slots, s.drain, up, false)
  {
    FirstTxnOk(s, id);
    LaunchUp(s, id);
    hide Inv, WireOk, TxnOk, SlotsOk, SyncsOk, OutsOk, InboxesOk, ClientsOk, Decide, CommandError, ConfigOk;
    LaunchClients(s, id, t);
    LaunchInboxes(s, id, FirstUp(s, t).wire);
    LaunchSyncs(s, id, FirstUp(s, t));
  }

  lemma LaunchedState(s: State, r: State, sessions: map<int, Session>, t: Txn, up: Upstream, v: Verdict)
    requires Inv(s) && !s.failed && s.sessions.Keys == sessions.Keys && !v.fault && up.active == Some(t)
    requires r == s.(sessions := sessions, radio := v.radio, signing := v.signing, fault := s.fault || v.fault,
                     nextWrite := r.nextWrite, up := up, actions := r.actions, drain := r.drain)
    requires TxnOk(s.cfg, t) && WireOk(s.cfg.table, up) && ClientsOk(s.cfg, sessions, Some(t))
    requires OutsOk(s.cfg.table, sessions, up.wire) && InboxesOk(s.cfg.table, sessions, s.pops, [])
    requires SlotsOk(s.cfg, s.slots, sessions) && SyncsOk(sessions, s.slots, r.drain, up, false)
    requires OrphanOk(s.cfg.table, s.orphan, sessions, Some(t), s.debt)
    requires RemoteOk(v.radio.remote, sessions, Some(t)) && SigningOk(v.signing, Some(t))
    requires AirOk(s.cfg.uncertaintyTimeout, v.radio.air, v.radio.log, Some(t), s.now)
    requires ScopeTied(sessions, Some(t)) && Exclusive(sessions, Some(t))
    ensures Inv(r)
  {
    hide WireOk, RosterOk, RemoteOk, AirOk, SigningOk, SlotsOk, SyncsOk, OutsOk, InboxesOk, ClientsOk, ConfigOk, TxnOk,
         OrphanOk, ScopeTied, Exclusive;
  }

  lemma LaunchAdmitted(s: State, id: int)
    requires Inv(s) && Forwardable(s, id) && id != 0
    requires Admission(s, id, s.sessions[id].commands[0].payload).reason.None?
    ensures Inv(Launch(s, id))
  {
    hide Core, TableOk, Admission, Launch, WireOk, RemoteOk, AirOk, SigningOk, SlotsOk, SyncsOk, OutsOk, InboxesOk,
         ClientsOk, NewTxn, FirstTxn, TxnOk, OrphanOk, ConfigOk, Onward, TxnsOk, RosterOk, FirstUp;
    CoreParts(s, false, []);
    FirstTxnOk(s, id);
    assert s.cfg.table.descriptor(s.sessions[id].commands[0].payload).Some?;
    hide Decide, CommandError;
    FirstUpActive(s, FirstTxn(s, id));
    var t := FirstTxn(s, id);
    LaunchShape(s, id);
    LaunchedSessions(s, id, t);
    LaunchedLeases(s, id, t);
    LaunchedAlone(s, id, t);
    LaunchedOrphan(s, id, t);
    hide ScopeTied, Exclusive, Starts, JobOf;
    var sessions := s.sessions[id := Shift(s.sessions[id])];
    assert sessions.Keys == s.sessions.Keys;
    LaunchedState(s, Launch(s, id), sessions, t, FirstUp(s, t), Admission(s, id, t.command));
  }

  lemma LaunchedOrphan(s: State, id: int, t: Txn)
    requires OrphanOk(s.cfg.table, s.orphan, s.sessions, None, s.debt) && t.owner == id && id != 0 && id in s.sessions
    requires s.sessions[id].commands != []
    ensures OrphanOk(s.cfg.table, s.orphan, s.sessions[id := Shift(s.sessions[id])], Some(t), s.debt)
  {
  }

  lemma LaunchRefused(s: State, id: int)
    requires Inv(s) && Forwardable(s, id)
    requires Admission(s, id, s.sessions[id].commands[0].payload).reason.Some?
    ensures Inv(Launch(s, id))
  {
    var c := s.sessions[id].commands[0].payload;
    RefusalKeepsLeases(s, id, c);
    var v := Admission(s, id, c);
    hide Admission, AnswerHead, WireOk, TxnOk, RosterOk, RemoteOk, AirOk, SigningOk, SlotsOk, SyncsOk, OutsOk,
         InboxesOk, ClientsOk, ConfigOk, Decide, TxnsOk, OrphanOk;
    var r := s.(radio := v.radio, signing := v.signing, fault := s.fault || v.fault);
    assert Inv(r);
    hide Core;
    AnswerHeadKeeps(r, id, Err(v.reason.value), false, []);
  }

  // ----- The broker's own pop -----

  ghost predicate CanPop(s: State) {
    s.up.active.None? && !s.failed && s.drain.requested && s.sessions != map[]
  }

  ghost function PopTxn(s: State): Txn
    requires s.cfg.table.descriptor(POP).Some?
  {
    var s' := s.(drain := s.drain.(requested := false, popSeq := s.drain.popSeq + 1));
    NewTxn(s', 0, POP, s.cfg.table.descriptor(POP).value).(write := Some(s.nextWrite + 1))
  }

  lemma LaunchPopShape(s: State)
    requires s.cfg.table.descriptor(POP).Some? && 0 !in s.sessions
    ensures var t := PopTxn(s);
            var r := LaunchPop(s);
            && r == s.(drain := s.drain.(requested := false, popSeq := s.drain.popSeq + 1),
                       nextWrite := s.nextWrite + 1,
                       up := FirstUp(s, t), actions := r.actions)
            && t.owner == 0 && t.command == POP && t.born == |s.up.wire| && t.popSeq == s.drain.popSeq + 1
            && t.hadMulti == HasMulti(s) && t.step.Command? && t.write.Some?
  {
  }

  lemma PopTxnOk(s: State)
    requires ConfigOk(s.cfg) && 0 !in s.sessions
    ensures s.cfg.table.descriptor(POP).Some? && TxnOk(s.cfg, PopTxn(s))
    ensures var d := PopTxn(s).desc; !d.remoteLease && !d.signing && !d.maintenance && !d.scopeSend
  {
    assert CommandOk(s.cfg.table, POP, s.cfg.table.descriptor(POP).value);
  }

  lemma PopUp(s: State, t: Txn)
    requires Inv(s) && CanPop(s) && TxnOk(s.cfg, t) && t.owner == 0 && t.born == |s.up.wire|
    requires t.write == Some(s.nextWrite + 1)
    ensures WireOk(s.cfg.table, FirstUp(s, t))
    ensures OutsOk(s.cfg.table, s.sessions, FirstUp(s, t).wire)
  {
    FirstFrameWire(s.cfg, s.up, FirstUp(s, t), t, FirstFrame(t));
    OutsGrow(s.cfg.table, s.sessions, s.up.wire, Asked(FirstFrame(t), JobOf(t)));
  }

  lemma PopSessions(s: State, t: Txn)
    requires Inv(s) && CanPop(s) && t.owner == 0 && t.born == |s.up.wire| && t.popSeq == s.drain.popSeq + 1
    requires t.hadMulti == HasMulti(s) && !t.desc.remoteLease && !t.desc.scopeSend && !t.maintenance && t.command == POP
    requires t.step.Command?
    ensures ClientsOk(s.cfg, s.sessions, Some(t))
    ensures SyncsOk(s.sessions, s.slots, s.drain.(requested := false, popSeq := s.drain.popSeq + 1), FirstUp(s, t),
                    false)
    ensures OrphanOk(s.cfg.table, s.orphan, s.sessions, Some(t), s.debt)
    ensures RemoteOk(s.radio.remote, s.sessions, Some(t)) && SigningOk(s.signing, Some(t))
    ensures AirOk(s.cfg.uncertaintyTimeout, s.radio.air, s.radio.log, Some(t), s.now)
    ensures ScopeTied(s.sessions, Some(t)) && Exclusive(s.sessions, Some(t))
  {
    hide WireOk, SlotsOk, OutsOk, InboxesOk, TxnsOk, ConfigOk, Fifo, AckRing.LogOk, AckRing.Replay, AckRing.FreeSlot,
         Accepted;
    var drain := s.drain.(requested := false, popSeq := s.drain.popSeq + 1);
    assert 0 !in s.sessions.Keys;
    forall x | x in s.sessions
      ensures ClientOk(s.cfg, s.sessions[x], Current(Some(t), x), Owns(Some(t), x))
      ensures SyncOk(s.sessions[x], s.slots, drain, FirstUp(s, t), false)
    {
      assert ClientOk(s.cfg, s.sessions[x], Current(None, x), Owns(None, x));
      assert SyncOk(s.sessions[x], s.slots, s.drain, s.up, false);
    }
  }

  lemma LaunchPopKeeps(s: State)
    requires Inv(s) && CanPop(s)
    ensures Inv(LaunchPop(s))
  {
    assert ConfigOk(s.cfg) && InboxesOk(s.cfg.table, s.sessions, s.pops, []) && SlotsOk(s.cfg, s.slots, s.sessions);
    assert 0 !in s.sessions.Keys;
    hide Core, LaunchPop, WireOk, RemoteOk, AirOk, SigningOk, SlotsOk, SyncsOk, OutsOk, InboxesOk, ClientsOk, TxnOk,
         OrphanOk, ConfigOk, FirstUp, ScopeTied, Exclusive, PopTxn;
    PopTxnOk(s);
    LaunchPopShape(s);
    var t := PopTxn(s);
    assert t.maintenance == t.desc.maintenance && t.write == Some(s.nextWrite + 1) by { PopTxnFields(s); }
    PopUp(s, t);
    PopSessions(s, t);
    var v := Verdict(s.radio, s.signing, None, false);
    assert FirstUp(s, t).active == Some(t) by { FirstUpActive(s, t); }
    LaunchedState(s, LaunchPop(s), s.sessions, t, FirstUp(s, t), v);
  }

  lemma PopTxnFields(s: State)
    requires s.cfg.table.descriptor(POP).Some?
    ensures PopTxn(s).maintenance == PopTxn(s).desc.maintenance && PopTxn(s).write == Some(s.nextWrite + 1)
  {
  }

  lemma FirstUpActive(s: State, t: Txn)
    ensures FirstUp(s, t).active == Some(t)
  {
  }

  // ----- Taking turns -----

  lemma TurnKeeps(s: State)
    requires Inv(s) && s.order != []
    ensures Inv(Turn(s))
  {
    hide WireOk, RemoteOk, AirOk, SigningOk, SlotsOk, SyncsOk, OutsOk, InboxesOk, ClientsOk, TxnsOk, OrphanOk, ConfigOk;
    assert RosterOk(s.sessions.Keys, s.ids, Turn(s).order) by {
      var q := Turn(s).order;
      forall x
        ensures x in q <==> x in s.order
      {
        assert s.order == [s.order[0]] + s.order[1..];
      }
    }
  }

  /** The sessions whose turn is still to come in this pass have a decided head. */
  ghost predicate Unserved(s: State, n: nat) {
    n <= |s.order| && forall i | 0 <= i < n :: Settled(s, s.order[i])
  }

  lemma ServeKeeps(s: State, id: int)
    requires Inv(s) && s.up.active.None? && !s.failed && Settled(s, id)
    ensures Inv(Serve(s, id))
  {
    assert 0 !in s.sessions.Keys;
    hide Core, Launch, LaunchPop;
    if id == 0 {
      if s.drain.requested && s.sessions != map[] {
        LaunchPopKeeps(s);
      }
    } else if id in s.sessions && s.sessions[id].sync.None? && s.sessions[id].commands != [] {
      if Admission(s, id, s.sessions[id].commands[0].payload).reason.Some? {
        LaunchRefused(s, id);
      } else {
        LaunchAdmitted(s, id);
      }
    }
  }

  /** Giving a turn away without a dispatch touches that session alone. */
  ghost predicate PassedOver(s: State, r: State, id: int) {
    && Only(s, r, id) && r.cfg == s.cfg && r.now == s.now && r.failed == s.failed && r.up == s.up
    && (r.order == s.order || r.order == Without(s.order, id))
  }

  lemma AnswerPassesOver(s: State, id: int, p: Bytes)
    requires s.up.active.None? && id in s.sessions && s.sessions[id].commands != []
    ensures PassedOver(s, AnswerHead(s, id, p), id)
  {
  }

  lemma DispatchActivates(s: State, owner: int, c: Bytes)
    ensures s.cfg.table.descriptor(c).Some? ==> Dispatch(s, owner, c).up.active.Some?
    ensures Dispatch(s, owner, c).fault || Dispatch(s, owner, c).up.active.Some?
  {
  }

  lemma ServePassesOver(s: State, id: int)
    requires Inv(s) && s.up.active.None? && !s.failed && Inv(Serve(s, id)) && Serve(s, id).up.active.None?
    ensures PassedOver(s, Serve(s, id), id)
  {
    hide Core, Admission, Dispatch, AnswerHead, Onward;
    assert !Serve(s, id).fault by { CoreParts(Serve(s, id), false, []); }
    if id == 0 {
      if s.drain.requested && s.sessions != map[] {
        DispatchActivates(s.(drain := s.drain.(requested := false, popSeq := s.drain.popSeq + 1)), 0, POP);
      }
    } else if id in s.sessions && s.sessions[id].sync.None? && s.sessions[id].commands != [] {
      var c := s.sessions[id].commands[0].payload;
      var v := Admission(s, id, c);
      var r := s.(radio := v.radio, signing := v.signing, fault := s.fault || v.fault);
      if v.reason.Some? {
        AnswerPassesOver(r, id, Err(v.reason.value));
      } else {
        DispatchActivates(Put(r, id, Shift(s.sessions[id])), id, c);
      }
    }
  }

  lemma {:induction false} WithoutLast(q: seq<int>, id: int)
    requires id !in q
    ensures Without(q + [id], id) == q
    decreases |q|
  {
    if q != [] {
      assert (q + [id])[1..] == q[1..] + [id];
      WithoutLast(q[1..], id);
    }
  }

  lemma UnservedStays(s: State, r: State, n: nat)
    requires Unserved(s, n) && n > 0 && Distinct(s.order) && PassedOver(Turn(s), r, s.order[0])
    ensures Unserved(r, n - 1)
  {
    hide Decide, Without;
    var id := s.order[0];
    WithoutLast(s.order[1..], id);
    assert forall i | 0 <= i < n - 1 :: r.order[i] == s.order[i + 1];
    forall i | 0 <= i < n - 1
      ensures Settled(r, r.order[i])
    {
      assert Settled(s, s.order[i + 1]);
    }
  }

  lemma {:induction false} RotateKeeps(s: State, n: nat)
    requires Inv(s) && s.up.active.None? && !s.failed && Unserved(s, n)
    ensures Inv(Rotate(s, n))
    decreases n
  {
    hide Core, Serve, Settled, Onward;
    CoreRoster(s, false, []);
    if n > 0 {
      var id := s.order[0];
      assert Settled(s, id);
      TurnKeeps(s);
      assert Settled(Turn(s), id) by { TurnSettles(s, id); }
      ServeKeeps(Turn(s), id);
      var r := Serve(Turn(s), id);
      if r.up.active.None? {
        ServePassesOver(Turn(s), id);
        UnservedStays(s, r, n);
        RotateKeeps(r, n - 1);
      }
    }
  }

  lemma TurnSettles(s: State, id: int)
    requires s.order != [] && Settled(s, id)
    ensures Settled(Turn(s), id)
  {
  }

  lemma ClockKeeps(s: State, now: Time)
    requires Inv(s) && s.now <= now
    ensures Inv(s.(now := now))
  {
    hide WireOk, RemoteOk, SigningOk, SlotsOk, SyncsOk, OutsOk, InboxesOk, ClientsOk, TxnsOk, OrphanOk, ConfigOk,
         RosterOk;
  }

  lemma ScheduleKeeps(s: State, now: Time)
    requires Inv(s) && s.now <= now
    ensures Inv(Schedule(s, now))
  {
    if !s.failed {
      ClockKeeps(s, now);
      var s1 := s.(now := now);
      if !(s1.up.active.Some? && s1.up.active.value.maintenance) {
        hide Core, Decide, LocalPass, Rotate;
        LocalPassKeeps(s1, s1.ids, []);
        var s2 := LocalPass(s1, s1.ids);
        if s2.up.active.None? {
          ScheduleRotates(s1, s2);
          RotateKeeps(s2, |s2.order|);
        }
      }
    }
  }

  lemma ScheduleRotates(s1: State, s2: State)
    requires Inv(s1) && !s1.failed && Inv(s2) && Aside(s1, s2) && s2.up.active.None?
    requires !(s1.up.active.Some? && s1.up.active.value.maintenance)
    requires forall x | x in s1.ids :: Settled(s2, x)
    ensures !s2.failed && Unserved(s2, |s2.order|)
  {
    hide WireOk, RemoteOk, SigningOk, SlotsOk, SyncsOk, OutsOk, InboxesOk, ClientsOk, OrphanOk, ConfigOk, AirOk, Decide;
    forall i | 0 <= i < |s2.order|
      ensures Settled(s2, s2.order[i])
    {
      var x := s2.order[i];
      if x in s2.sessions {
        assert x in s1.sessions.Keys;
      }
    }
  }
}
