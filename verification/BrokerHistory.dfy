/**
 Scheduling only ever asks, and the items a companion gave are those on the upstream connection:
 what was kept of them, and what the deduplicator remembers, follow from that history alone.
 */
module BrokerHistory {
  import opened Wire
  import opened Protocol
  import opened Leases
  import opened Broker
  import opened BrokerInvariant
  import opened BrokerClients
  import opened BrokerInbox
  import opened BrokerSchedule
  import opened BrokerReplies
  import opened BrokerScopes
  import opened BrokerEvents
  import AckRing
  import Dedup

  // ----- Scheduling -----

  /** At most one frame was asked. */
  ghost predicate Asks(w: seq<WireEvent>, w': seq<WireEvent>) {
    w' == w || (|w'| == |w| + 1 && w' == w + [w'[|w|]] && w'[|w|].Asked?)
  }

  lemma DispatchAsks(s: State, owner: int, c: Bytes)
    ensures var r := Dispatch(s, owner, c);
            && Asks(s.up.wire, r.up.wire) && r.failed == s.failed
            && (r.up.active == s.up.active ==> r.up.wire == s.up.wire || r.up.active.Some?)
  {
    hide NewTxn, Onward, Orderly, Listens, Forwarded;
  }

  lemma AnswerAside(s: State, id: int, p: Bytes)
    requires id in s.sessions && s.sessions[id].commands != [] && s.up.active.None?
    ensures var r := AnswerHead(s, id, p);
            r.up == s.up && r.failed == s.failed && (!s.drain.requested ==> !r.drain.requested)
  {
    hide Orderly, Onward, Listens, Wakeful, Without, DetachSlot;
  }

  lemma ServeAsks(s: State, id: int)
    requires s.up.active.None?
    ensures var r := Serve(s, id);
            Asks(s.up.wire, r.up.wire) && r.failed == s.failed && (r.up.active.None? ==> r.up.wire == s.up.wire)
  {
    hide Admission, Onward, Orderly, Listens, Dispatch, AnswerHead, Wakeful;
    if id == 0 {
      DispatchAsks(s.(drain := s.drain.(requested := false, popSeq := s.drain.popSeq + 1)), 0, POP);
    } else if id in s.sessions && s.sessions[id].commands != [] {
      var c := s.sessions[id].commands[0].payload;
      var v := Admission(s, id, c);
      var r := Charged(s, v);
      if v.reason.Some? {
        AnswerAside(r, id, Err(v.reason.value));
      } else {
        DispatchAsks(Put(r, id, Shift(s.sessions[id])), id, c);
      }
    }
  }

  lemma {:induction false} RotateAsks(s: State, n: nat)
    requires s.up.active.None?
    ensures Asks(s.up.wire, Rotate(s, n).up.wire) && Rotate(s, n).failed == s.failed
    decreases n
  {
    hide Serve, Onward, Orderly, Listens;
    if n > 0 && s.order != [] {
      ServeAsks(Turn(s), s.order[0]);
      var r := Serve(Turn(s), s.order[0]);
      if r.up.active.None? {
        RotateAsks(r, n - 1);
      }
    }
  }

  /** A scheduling pass asks at most one frame and never fails the epoch. */
  lemma ScheduleAsks(s: State, now: Time)
    requires Inv(s)
    ensures Asks(s.up.wire, Schedule(s, now).up.wire) && Schedule(s, now).failed == s.failed
  {
    hide Core, LocalPass, Rotate, Onward, Orderly, Listens;
    CoreParts(s, false, []);
    if !s.failed {
      var s1 := s.(now := now);
      if !(s1.up.active.Some? && s1.up.active.value.maintenance) {
        var s2 := LocalPass(s1, s1.ids);
        if s2.up.active.None? {
          RotateAsks(s2, |s2.order|);
        }
      }
    }
  }

  // ----- The items of a companion -----

  /** The next reply is the one of a pop: the one owed, or one more after a refusal. */
  ghost predicate PopDue(t: Table, w: seq<WireEvent>) {
    || (Owed(t, w).Some? && Owed(t, w).value.kind.Pop?)
    || (RefusedHidden(w) && w[|w| - 2].job.kind.Pop?)
  }

  ghost predicate CarriesItem(p: Bytes) {
    Opcode(p) != RESP_ERR && Opcode(p) != RESP_NO_MORE_MESSAGES
  }

  /** The items on an upstream connection: the replies to pops that are no refusal and not empty. */
  ghost function PopReplies(t: Table, w: seq<WireEvent>): seq<Bytes> {
    if w == [] then []
    else
      var before := w[..|w| - 1];
      var last := w[|w| - 1];
      PopReplies(t, before) +
      (if last.Got? && PopDue(t, before) && CarriesItem(last.payload) then [last.payload] else [])
  }

  /** The items that are no repetition of a recent text, if repetitions are to be discarded. */
  ghost function Kept(discard: bool, h: seq<Bytes>): seq<Bytes> {
    if h == [] then []
    else
      var before := h[..|h| - 1];
      var p := h[|h| - 1];
      Kept(discard, before) + (if discard && Dedup.Duplicate(Dedup.Memory(before), p) then [] else [p])
  }

  /** Items given by the present companion, as `late` ones are still being handed out. */
  ghost predicate HeardBut(s: State, late: seq<Bytes>) {
    && s.base <= |s.radio.heard| && s.radio.heard[s.base..] + late == PopReplies(s.cfg.table, s.up.wire)
    && s.radio.since <= |s.pops| && s.pops[s.radio.since..] == Kept(s.cfg.deduplicate, s.radio.heard)
    && s.radio.seen == if s.cfg.deduplicate then Dedup.Memory(s.radio.heard) else []
  }

  ghost predicate HeardOk(s: State) {
    HeardBut(s, [])
  }

  lemma PopRepliesGrow(t: Table, w: seq<WireEvent>, e: WireEvent)
    ensures PopReplies(t, w + [e]) ==
            PopReplies(t, w) + (if e.Got? && PopDue(t, w) && CarriesItem(e.payload) then [e.payload] else [])
  {
    assert (w + [e])[..|w|] == w;
  }

  lemma KeptGrows(discard: bool, h: seq<Bytes>, p: Bytes)
    ensures Kept(discard, h + [p]) ==
            Kept(discard, h) + (if discard && Dedup.Duplicate(Dedup.Memory(h), p) then [] else [p])
    ensures Dedup.Memory(h + [p]) == Dedup.Remember(Dedup.Memory(h), p)
  {
    hide Dedup.Duplicate, Dedup.Remember;
    assert (h + [p])[..|h|] == h;
  }

  /** Nothing was popped, and the upstream connection gained no item. */
  lemma ListeningKeeps(s: State, r: State, late: seq<Bytes>)
    requires HeardBut(s, late) && Listens(s, r) && r.cfg == s.cfg
    requires PopReplies(s.cfg.table, r.up.wire) == PopReplies(s.cfg.table, s.up.wire)
    ensures HeardBut(r, late)
  {
    hide PopReplies, Kept;
  }

  lemma AskingAddsNoItem(t: Table, w: seq<WireEvent>, w': seq<WireEvent>)
    requires Asks(w, w')
    ensures PopReplies(t, w') == PopReplies(t, w)
  {
    hide PopReplies;
    if w' != w {
      PopRepliesGrow(t, w, w'[|w|]);
    }
  }

  /** A handler that leaves the connection alone, and then scheduling. */
  lemma ThenScheduleListens(s: State, m: State, now: Time)
    requires HeardOk(s) && Inv(m) && Listens(s, m) && m.cfg == s.cfg && m.up.wire == s.up.wire
    ensures HeardOk(Schedule(m, now))
  {
    hide Core, Schedule, HeardBut, PopReplies, Asks;
    ListeningKeeps(s, m, []);
    ScheduleAsks(m, now);
    AskingAddsNoItem(m.cfg.table, m.up.wire, Schedule(m, now).up.wire);
    ListeningKeeps(m, Schedule(m, now), []);
  }

  lemma RepetitionIsForgotten(seen: seq<string>, p: Bytes)
    ensures Dedup.Duplicate(seen, p) ==> Dedup.Remember(seen, p) == seen
  {
    hide Dedup.Duplicate;
  }

  /** Handing out the result of a pop records it. */
  lemma PopResultRecords(s: State, t: Txn, p: Bytes)
    requires HeardBut(s, if CarriesItem(p) then [p] else []) && Opcode(p) != RESP_ERR
    ensures HeardOk(PopResult(s, t, p))
  {
    hide SettleEmpty, Spread, AnySync, Onward, Orderly, Dedup.Duplicate, Dedup.Remember, PopReplies, Kept, Moves,
         Wakeful;
    var h := s.radio.heard;
    KeptGrows(s.cfg.deduplicate, h, p);
    RepetitionIsForgotten(s.radio.seen, p);
    if CarriesItem(p) {
      assert (h + [p])[s.base..] == h[s.base..] + [p];
      if !(s.cfg.deduplicate && Dedup.Duplicate(s.radio.seen, p)) {
        assert (s.pops + [p])[s.radio.since..] == s.pops[s.radio.since..] + [p];
        SpreadRecords(s, t, p);
      }
    }
  }

  /** Handing out adds exactly the noted item. */
  lemma SpreadRecords(s: State, t: Txn, p: Bytes)
    ensures var seen := if s.cfg.deduplicate then Dedup.Remember(s.radio.seen, p) else s.radio.seen;
            var noted := s.(radio := s.radio.(seen := seen, heard := s.radio.heard + [p]), pops := s.pops + [p]);
            && Listens(noted, Spread(noted, t, p)) && Spread(noted, t, p).up.wire == s.up.wire
            && Spread(noted, t, p).cfg == s.cfg
  {
    hide FanOut, EnqueueAll, MultiIds, Onward, Orderly, Dedup.Remember, Moves, Wakeful;
  }

  // ----- Replies -----

  lemma NotForPops(t: Table, w: seq<WireEvent>, p: Bytes)
    requires !PopDue(t, w) || !CarriesItem(p)
    ensures PopReplies(t, w + [Got(p)]) == PopReplies(t, w)
  {
    hide PopReplies;
    PopRepliesGrow(t, w, Got(p));
  }

  /** The connection of a live transaction expects a pop reply exactly if that is a pop. */
  lemma DueNow(s: State)
    requires Inv(s) && !s.failed
    ensures PopDue(s.cfg.table, s.up.wire) <==> PopInFlight(s.up.active) && AwaitsReply(s.up.active)
    ensures PopInFlight(s.up.active) ==> AwaitsReply(s.up.active)
  {
    hide Core, Owed, Disciplined, PhysicalScope;
    CoreParts(s, false, []);
  }

  lemma ScopeResponseItems(s: State, t: Txn, p: Bytes)
    requires t.owner != 0 && !PopDue(s.cfg.table, s.up.wire)
    ensures PopReplies(s.cfg.table, ScopeResponse(s, t, p).up.wire) == PopReplies(s.cfg.table, s.up.wire)
  {
    hide PopReplies, FailEpoch, Emit, Orderly, Moves, Abandon, PopDue, Wakeful;
    NotForPops(s.cfg.table, s.up.wire, p);
    PopRepliesGrow(s.cfg.table, s.up.wire + [Got(p)],
                   Asked(Forwarded(t.command), Job(ClientCommand, t.owner, t.command, t.want)));
  }

  lemma CompleteItems(s: State, t: Txn, p: Bytes, emitted: Option<int>)
    ensures PopReplies(s.cfg.table, CompleteCommand(s, t, p, emitted).up.wire) == PopReplies(s.cfg.table, s.up.wire)
  {
    hide PopReplies, FailEpoch, Orderly, Moves, Outcome, Wakeful;
    PopRepliesGrow(s.cfg.table, s.up.wire, Asked(DEFAULT_SCOPE, Job(ResetScope, t.owner, t.command, t.want)));
  }

  lemma ClientReplyItems(s: State, t: Txn, p: Bytes)
    requires !PopDue(s.cfg.table, s.up.wire)
    ensures PopReplies(s.cfg.table, ClientReply(s, t, p).up.wire) == PopReplies(s.cfg.table, s.up.wire)
  {
    hide PopReplies, Emit, Orderly, Moves, CompleteCommand, Relayed, PopDue, Wakeful;
    NotForPops(s.cfg.table, s.up.wire, p);
    assert Relaying(s, t, p).up.wire == Heard(s, p).up.wire;
    var e := Handed(s, t, p);
    assert e.up.wire == Heard(s, p).up.wire;
    hide Handed;
    CompleteItems(e, Progressed(t, p, s.now), p, HandedAs(s, t, p));
  }

  /** A reply to a pop in flight. */
  lemma PopResponseRecords(s: State, t: Txn, p: Bytes)
    requires Popping(s, t) && HeardOk(s)
    ensures HeardOk(CommandResponse(s, t, p))
  {
    hide Core, HeardBut, PopReplies, FailEpoch, PopResult, ValidResponse, TxnOk, Onward, Orderly, PopDue;
    PoppingFacts(s, t);
    DueNow(s);
    var r := CommandResponse(s, t, p);
    if !ValidResponse(s.cfg.table, t.desc, p, t.command, t.contacts) {
      ListeningKeeps(s, FailEpoch(s), []);
    } else if Opcode(p) == RESP_ERR {
      NotForPops(s.cfg.table, s.up.wire, p);
      ListeningKeeps(s, FailEpoch(Heard(s, p)), []);
      assert r == FailEpoch(Heard(s, p));
    } else {
      var m := s.(up := GotUp(s.up, None, p));
      PopReplyKind(s, t, p);
      PopResponseShape(s, t, p);
      ReplyIsLate(s, m, p);
      PopResultRecords(m, t, p);
    }
  }

  lemma ReplyIsLate(s: State, m: State, p: Bytes)
    requires HeardOk(s) && Listens(s, m) && m.cfg == s.cfg && PopDue(s.cfg.table, s.up.wire)
    requires m.up.wire == s.up.wire + [Got(p)]
    ensures HeardBut(m, if CarriesItem(p) then [p] else [])
  {
    hide PopReplies, PopDue, Kept;
    PopRepliesGrow(s.cfg.table, s.up.wire, Got(p));
  }

  lemma PopResultWire(s: State, t: Txn, p: Bytes)
    ensures PopResult(s, t, p).up.wire == s.up.wire
  {
    hide SettleEmpty, FanOut, EnqueueAll, Orderly, Moves, Wakeful;
  }

  lemma TxnResponseRecords(s: State, p: Bytes)
    requires Inv(s) && !s.failed && HeardOk(s)
    ensures HeardOk(TxnResponse(s, p))
  {
    hide Core, HeardBut, PopReplies, FailEpoch, ScopeResponse, ClientReply, PopResult, ValidResponse, Orderly, PopDue,
         Wakeful, Moves;
    if s.up.active.None? {
      ListeningKeeps(s, FailEpoch(s), []);
    } else {
      SettleWriteKeeps(s);
      var r := SettleWrite(s);
      var t := r.up.active.value;
      ListeningKeeps(s, r, []);
      DueNow(r);
      if t.step.Setup? || t.step.Restore? {
        ScopingFacts(r, t);
        ScopeResponseItems(r, t, p);
        ListeningKeeps(r, ScopeResponse(r, t, p), []);
      } else if t.step.MaintenanceResult? {
        ListeningKeeps(r, FailEpoch(r), []);
      } else if t.owner == 0 {
        hide CommandResponse;
        PopResponseRecords(r, t, p);
      } else if !ValidResponse(s.cfg.table, t.desc, p, t.command, t.contacts) {
        ListeningKeeps(r, FailEpoch(r), []);
      } else {
        ClientReplyItems(r, t, p);
        ListeningKeeps(r, ClientReply(r, t, p), []);
      }
    }
  }

  /** Any push but one: the answer to a request for the companion's own telemetry. */
  lemma PushListens(s: State, p: Bytes, now: Time)
    requires !(Opcode(p) in RESULT_PUSHES && IsSelfTelemetry(s, p))
    ensures Push(s, p, now).up.wire == s.up.wire && Listens(s, Push(s, p, now)) && Push(s, p, now).cfg == s.cfg
  {
    hide TxnResponse, RemoteResult, HintAll, Broadcast, Onward, Orderly, U32, AckRing.Settle, Moves, Wakeful,
         IsSelfTelemetry;
    ResultListens(s, p, now);
  }

  lemma PushRecords(s: State, p: Bytes, now: Time)
    requires Inv(s) && !s.failed && HeardOk(s)
    ensures HeardOk(Push(s, p, now))
  {
    hide Core, HeardBut, PopReplies, TxnResponse, IsSelfTelemetry, Listens;
    if Opcode(p) in RESULT_PUSHES && IsSelfTelemetry(s, p) {
      TxnResponseRecords(s, p);
      assert Push(s, p, now) == TxnResponse(s, p) by { SelfTelemetryIsReply(s, p, now); }
    } else {
      PushListens(s, p, now);
      hide Push;
      ListeningKeeps(s, Push(s, p, now), []);
    }
  }

  lemma SelfTelemetryIsReply(s: State, p: Bytes, now: Time)
    requires Opcode(p) in RESULT_PUSHES && IsSelfTelemetry(s, p)
    ensures Push(s, p, now) == TxnResponse(s, p)
  {
    hide TxnResponse;
  }

  lemma ResultListens(s: State, p: Bytes, now: Time)
    ensures RemoteResult(s, p, now).up.wire == s.up.wire && Listens(s, RemoteResult(s, p, now))
    ensures RemoteResult(s, p, now).cfg == s.cfg
  {
    hide MatchPush, Emit, Orderly, Moves, Wakeful;
  }

  // ----- Events -----

  lemma AdmitRecords(s: State, id: int, slot: Option<int>, now: Time)
    requires Inv(s) && s.now <= now && HeardOk(s) && id > 0 && id !in s.sessions && !Owns(s.up.active, id)
    requires Unused(s.up.wire, id)
    requires slot.Some? ==> slot.value in s.slots
    ensures HeardOk(OnAdmit(s, id, slot, now))
  {
    hide Core, HeardBut, PopReplies, Unused, Schedule, Joined, Hint, Remove, ConfigOk, OnAdmit;
    CoreParts(s, false, []);
    var s0 := s.(now := now);
    if s.failed || (s.up.active.Some? && s.up.active.value.maintenance) {
      assert OnAdmit(s, id, slot, now) == s0.(actions := s0.actions + [CloseSession(id)]) by {
        RefusedAdmission(s, id, slot, now);
      }
      ListeningKeeps(s, OnAdmit(s, id, slot, now), []);
    } else {
      ClockKeeps(s, now);
      VacatedIsWelcome(s0, id, slot);
      AdmitIs(s, id, slot, now);
      JoinKeeps(Vacating(s0, slot), id, slot);
      HintKeeps(Joined(Vacating(s0, slot), id, slot), id, false, []);
      JoiningListens(s0, id, slot);
      ThenScheduleListens(s, Hint(Joined(Vacating(s0, slot), id, slot), id), now);
    }
  }

  lemma RefusedAdmission(s: State, id: int, slot: Option<int>, now: Time)
    requires s.failed || (s.up.active.Some? && s.up.active.value.maintenance)
    ensures OnAdmit(s, id, slot, now) == s.(now := now, actions := s.actions + [CloseSession(id)])
  {
    hide Schedule, Remove, Hint, EnqueueMulti;
  }

  lemma JoiningListens(s: State, id: int, slot: Option<int>)
    requires slot.Some? ==> slot.value in Vacating(s, slot).slots
    ensures var m := Hint(Joined(Vacating(s, slot), id, slot), id);
            Listens(s, m) && m.cfg == s.cfg && m.up.wire == s.up.wire
  {
    hide Remove, Hint, Orderly, Moves, Wakeful;
    var v := Vacating(s, slot);
    assert Listens(s, v) && v.cfg == s.cfg && v.up.wire == s.up.wire;
    var j := Joined(v, id, slot);
    assert Listens(v, j) && j.cfg == v.cfg && j.up.wire == v.up.wire;
    hide Joined;
    assert Near(j, Hint(j, id));
  }

  lemma ClientFrameRecords(s: State, id: int, p: Bytes, now: Time)
    requires Inv(s) && s.now <= now && HeardOk(s)
    ensures HeardOk(OnClientFrame(s, id, p, now))
  {
    hide Core, HeardBut, PopReplies, Schedule, Remove, Orderly, Moves, Wakeful;
    ClockKeeps(s, now);
    var s0 := s.(now := now);
    ListeningKeeps(s, s0, []);
    if !s.failed && id in s.sessions {
      if QueueFull(s0, id) {
        RemoveKeeps(s0, id, false, []);
        ThenScheduleListens(s, Remove(s0, id), now);
      } else {
        SubmitKeeps(s0, id, p, now);
        var c := s.sessions[id];
        ThenScheduleListens(s, Put(s0, id, c.(commands := c.commands + [Queued(p, now)],
                                              log := c.log.(submitted := c.log.submitted + [p]))), now);
      }
    }
  }

  lemma LeaveRecords(s: State, id: int, now: Time)
    requires Inv(s) && s.now <= now && HeardOk(s)
    ensures HeardOk(Schedule(Remove(s.(now := now), id), now))
  {
    hide Core, HeardBut, PopReplies, Schedule, Remove, Orderly, Moves, Wakeful;
    ClockKeeps(s, now);
    RemoveKeeps(s.(now := now), id, false, []);
    ThenScheduleListens(s, Remove(s.(now := now), id), now);
  }

  lemma WriteDoneRecords(s: State, id: int, epoch: int, w: int, now: Time)
    requires Inv(s) && s.now <= now && HeardOk(s)
    ensures HeardOk(OnWriteDone(s, id, epoch, w, now))
  {
    hide Core, HeardBut, PopReplies, Schedule, UpstreamWritten, ClientWritten, Orderly, Moves, Wakeful;
    if epoch == s.epoch && !s.failed {
      if id == 0 {
        UpstreamWrittenKeeps(s, w, now);
        WrittenWires(s, id, w, now);
        ThenScheduleListens(s, UpstreamWritten(s, w, now), now);
      } else if id in s.sessions {
        ClientWrittenKeeps(s, id, w);
        WrittenWires(s, id, w, now);
        ThenScheduleListens(s, ClientWritten(s, id, w), now);
      } else {
        ThenScheduleListens(s, s, now);
      }
    }
  }

  lemma WrittenWires(s: State, id: int, w: int, now: Time)
    ensures UpstreamWritten(s, w, now).up.wire == s.up.wire
    ensures id in s.sessions ==> ClientWritten(s, id, w).up.wire == s.up.wire
  {
    hide FailEpoch, Orderly, Moves, Wakeful;
  }

  lemma FailRecords(s: State)
    requires HeardOk(s)
    ensures HeardOk(FailEpoch(s))
  {
    hide HeardBut, PopReplies, FailEpoch, Orderly, Moves, Wakeful;
    ListeningKeeps(s, FailEpoch(s), []);
  }

  lemma OverdueRecords(s: State)
    requires HeardOk(s)
    ensures HeardOk(OverdueFail(s))
  {
    hide HeardBut, FailEpoch, PopReplies;
    ListeningKeeps(s, s.(debt := s.up.active), []);
    FailRecords(s.(debt := s.up.active));
  }

  lemma WriteFailedRecords(s: State, id: int, epoch: int, now: Time)
    requires Inv(s) && s.now <= now && HeardOk(s)
    ensures HeardOk(OnWriteFailed(s, id, epoch, now))
  {
    hide Core, HeardBut, PopReplies, Schedule, Remove, FailEpoch;
    if epoch == s.epoch && !s.failed {
      if id == 0 {
        ListeningKeeps(s, s.(now := now), []);
        FailRecords(s.(now := now));
      } else {
        LeaveRecords(s, id, now);
      }
    }
  }

  /** Scheduling after a handler that may have heard something. */
  lemma ScheduleRecords(m: State, now: Time)
    requires Inv(m) && HeardOk(m)
    ensures HeardOk(Schedule(m, now))
  {
    hide Core, HeardBut, Schedule, PopReplies;
    ThenScheduleListens(m, m, now);
  }

  lemma UpstreamFrameRecords(s: State, p: Bytes, now: Time)
    requires Inv(s) && s.now <= now && HeardOk(s)
    ensures HeardOk(OnUpstreamFrame(s, p, now))
  {
    hide Core, HeardBut, PopReplies, Schedule, FailEpoch, OverdueFail, Push, TxnResponse, ResponseOverdue;
    ClockKeeps(s, now);
    var s0 := s.(now := now);
    ListeningKeeps(s, s0, []);
    if !s.failed {
      if ResponseOverdue(s0, now) {
        OverdueRecords(s0);
      } else if !s.cfg.table.responseShape(p) {
        FailRecords(s0);
      } else if IsPush(p) {
        PushKeeps(s0, p, now);
        PushRecords(s0, p, now);
        ScheduleRecords(Push(s0, p, now), now);
      } else {
        TxnResponseKeeps(s0, p);
        TxnResponseRecords(s0, p);
        ScheduleRecords(TxnResponse(s0, p), now);
      }
    }
  }

  lemma TickRecords(s: State, now: Time)
    requires Inv(s) && s.now <= now && HeardOk(s)
    ensures HeardOk(OnTick(s, now))
  {
    hide Core, HeardBut, PopReplies, FailEpoch, OverdueFail, Schedule, Ticked, AnyOverdue, ResponseOverdue, OnTick;
    ClockKeeps(s, now);
    TickShape(s, now);
    var s0 := s.(now := now);
    ListeningKeeps(s, s0, []);
    if !s.failed {
      if ResponseOverdue(s0, now) {
        OverdueRecords(s0);
      } else if AnyOverdue(s.up.writes, now) {
        FailRecords(s0);
      } else {
        TickedKeeps(s0);
        TickedListens(s0);
        ThenScheduleListens(s, Ticked(s0), now);
      }
    }
  }

  lemma TickedListens(s: State)
    ensures Listens(s, Ticked(s)) && Ticked(s).cfg == s.cfg && Ticked(s).up.wire == s.up.wire
  {
    hide ExpireSessions, HintAll, Orderly, Moves, Wakeful;
  }

  lemma DrainFrameRecords(s: State, p: Bytes, now: Time)
    requires Inv(s) && HeardOk(s)
    ensures HeardOk(OnDrainFrame(s, p, now))
  {
    hide Core, HeardBut, PopReplies, Push, PopResult, ValidResponse, TxnOk, TableOk, Owed;
    CoreParts(s, false, []);
    if s.debt.Some? && s.cfg.table.responseShape(p) {
      var t := s.debt.value;
      if IsPush(p) {
        DrainedPushRecords(s, p, now);
      } else {
        DebtKind(s, t);
        if t.owner == 0 && CarriesItem(p) {
          DrainedReplyRecords(s, t, p);
        } else {
          NotForPopsIf(s, t, p);
          if t.owner == 0 && Opcode(p) != RESP_ERR {
            PopResultRecords(Heard(s, p).(debt := None), t, p);
          }
        }
      }
    }
  }

  lemma DrainedPushRecords(s: State, p: Bytes, now: Time)
    requires s.up.active.None? && HeardOk(s)
    ensures HeardOk(Push(s, p, now))
  {
    hide HeardBut, PopReplies, Push;
    PushListens(s, p, now);
    ListeningKeeps(s, Push(s, p, now), []);
  }

  lemma RefusedIsOver(t: Table, w: seq<WireEvent>)
    requires RefusedHidden(w)
    ensures Owed(t, w).None?
  {
    var n := |w| - 1;
    assert Owed(t, w[..n]) == Some(w[n - 1].job);
  }

  /** The debt of a pop is what the connection expects to be paid by a pop reply. */
  lemma DebtKind(s: State, t: Txn)
    requires Inv(s) && s.debt == Some(t)
    ensures PopDue(s.cfg.table, s.up.wire) <==> t.owner == 0
    ensures t.owner == 0 ==> t.step.Command? && !t.desc.grammar.Contacts?
  {
    hide Core, Owed;
    CoreParts(s, false, []);
    assert TxnOk(s.cfg, t) && TableOk(s.cfg.table);
    assert CommandOk(s.cfg.table, t.command, t.desc);
    if RefusedHidden(s.up.wire) {
      RefusedIsOver(s.cfg.table, s.up.wire);
    }
  }

  lemma NotForPopsIf(s: State, t: Txn, p: Bytes)
    requires HeardOk(s) && (PopDue(s.cfg.table, s.up.wire) <==> t.owner == 0) && (t.owner != 0 || !CarriesItem(p))
    ensures forall debt :: HeardOk(Heard(s, p).(debt := debt))
  {
    hide HeardBut, PopReplies, PopDue;
    NotForPops(s.cfg.table, s.up.wire, p);
    forall debt
      ensures HeardOk(Heard(s, p).(debt := debt))
    {
      ListeningKeeps(s, Heard(s, p).(debt := debt), []);
    }
  }

  lemma DrainedReplyRecords(s: State, t: Txn, p: Bytes)
    requires HeardOk(s) && (PopDue(s.cfg.table, s.up.wire) <==> t.owner == 0) && t.owner == 0 && Opcode(p) != RESP_ERR
    ensures HeardOk(PopResult(Heard(s, p).(debt := None), t, p))
  {
    hide HeardBut, PopReplies, PopDue, PopResult;
    var m := Heard(s, p).(debt := None);
    ReplyIsLate(s, m, p);
    PopResultRecords(m, t, p);
  }

  lemma ReconnectRecords(s: State, key: Bytes, now: Time)
    requires HeardOk(s)
    ensures HeardOk(OnReconnect(s, key, now))
  {
  }
}
