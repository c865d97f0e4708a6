/** What the broker promises its clients, in every reachable state. */
module BrokerTheorems {
  import opened Wire
  import opened Protocol
  import opened Leases
  import opened Slots
  import opened Broker
  import opened BrokerInvariant
  import opened BrokerClients
  import opened BrokerInbox
  import opened BrokerTrace
  import opened BrokerSchedule
  import opened BrokerEvents
  import opened BrokerHistory
  import opened BrokerSigning
  import opened BrokerRuns
  import opened BrokerWakeup
  import Dedup

  lemma ReachableParts(s: State)
    requires Reachable(s)
    ensures Inv(s) && Hist(s, [])
  {
    ReachableIsGood(s);
    hide Core, Hist, HeardBut;
  }

  // ----- Commands and answers -----

  lemma AnswersArePrefix(c: Session, current: seq<Bytes>)
    requires Fifo(c, current)
    ensures Answered(c.log.sent) <= c.log.submitted
  {
    hide Answered, Payloads, Waiting;
    var tail := Waiting(c) + current + Payloads(c.commands);
    assert Answered(c.log.sent) + tail == c.log.submitted;
  }

  /** A client can tell answers from pushes by the first byte: only a request for the companion's own
      telemetry is answered with a push code. */
  ghost predicate Coded(o: Out) {
    && (o.role.Notice? || o.role.Result? ==> IsPush(o.payload))
    && (o.role.Part? ==> !IsPush(o.payload))
    && (o.role.Answer? && IsPush(o.payload) ==> IsSelfRequest(o.role.command))
  }

  lemma SentIsCoded(t: Table, w: seq<WireEvent>, sent: seq<Out>, id: int)
    requires SentOk(t, w, sent, id)
    ensures forall i | 0 <= i < |sent| :: Coded(sent[i])
  {
    hide IsPush, IsSelfRequest, ReplyTo, EmptySeen, ResultDue, Relays, Due, TargetOf, Downgrade;
    forall i | 0 <= i < |sent|
      ensures Coded(sent[i])
    {
      assert OutOk(t, w, sent, i, id);
    }
  }

  /** Commands are answered one for one and in the order they were submitted, whoever answers: the
      frames a session was really sent carry exactly the terminal answers to a prefix of its
      commands, and all that is missing is waiting, upstream, or queued. */
  lemma CommandsAreAnsweredInOrder(s: State, id: int)
    requires Reachable(s) && id in s.sessions
    ensures var c := s.sessions[id];
            && Frames(s.actions, id) == SentFrames(c.log.sent)
            && Answered(c.log.sent) + Waiting(c) + Current(s.up.active, id) + Payloads(c.commands) == c.log.submitted
            && Answered(c.log.sent) <= c.log.submitted
            && !(c.sync.Some? && Owns(s.up.active, id))
            && (forall i | 0 <= i < |c.log.sent| :: Coded(c.log.sent[i]))
  {
    hide Core, SentFrames, Frames, AskedFrames, Answered, Payloads, SentOk, InboxOk, SyncOk, Reachable, Coded;
    ReachableParts(s);
    CoreSession(s, id, false, []);
    SentIsCoded(s.cfg.table, s.up.wire, s.sessions[id].log.sent, id);
    AnswersArePrefix(s.sessions[id], Current(s.up.active, id));
  }

  lemma {:induction false} DueHasOwner(t: Table, w: seq<WireEvent>, id: int, i: nat)
    requires i < |Due(t, w, id)|
    ensures var k := Due(t, w, id)[i]; k < |w| && w[k].Got? && DueTo(t, w[..k], w[k].payload, id)
    decreases |w|
  {
    var n := |w| - 1;
    var before := Due(t, w[..n], id);
    if i < |before| {
      DueHasOwner(t, w[..n], id, i);
      assert w[..n][..before[i]] == w[..before[i]];
    }
  }

  /** An ordinary reply reaches the session that owned the exchange and no other; replies to hidden
      scope changes and to pops reach nobody, but for the refusal that ends a scoped command. */
  lemma RepliesReachOnlyTheirOwner(s: State, id: int, i: nat)
    requires Reachable(s) && id in s.sessions && i < |s.sessions[id].log.sent| && IsRelay(s.sessions[id].log.sent[i])
    ensures var o := s.sessions[id].log.sent[i];
            var k := o.role.cause.k;
            && k < |s.up.wire| && s.up.wire[k].Got? && o.payload == Visible(s.up.wire[k].payload)
            && Owed(s.cfg.table, s.up.wire[..k]).Some?
            && var j := Owed(s.cfg.table, s.up.wire[..k]).value;
               && j.owner == id
               && (j.kind.ClientCommand? || (j.kind.SetScope? && Opcode(s.up.wire[k].payload) == RESP_ERR))
               && (o.role.Answer? <==> Final(s.cfg.table, j, s.up.wire[k].payload))
               && (o.role.Answer? ==> o.role.command == j.command)
  {
    hide Core, Hist, Owed, Final, Visible, Reachable, ClientOk, InboxOk, SyncOk;
    ReachableParts(s);
    CoreSession(s, id, false, []);
    assert OutOk(s.cfg.table, s.up.wire, s.sessions[id].log.sent, i, id);
  }

  /** No reply owed to a live session is lost, repeated, or passed on out of order. */
  lemma RepliesAreRelayedExactlyOnce(s: State, id: int)
    requires Reachable(s) && id in s.sessions
    ensures Relays(s.sessions[id].log.sent) == Due(s.cfg.table, s.up.wire, id)
    ensures forall other, i, j | other != id && 0 <= i < |Due(s.cfg.table, s.up.wire, id)|
              && 0 <= j < |Due(s.cfg.table, s.up.wire, other)| ::
              Due(s.cfg.table, s.up.wire, id)[i] != Due(s.cfg.table, s.up.wire, other)[j]
  {
    hide Core, Hist, Owed, Final, Visible, Reachable, ClientOk, InboxOk, SyncOk, OutOk, Due, Relays;
    ReachableParts(s);
    CoreSession(s, id, false, []);
    forall other, i, j | other != id && 0 <= i < |Due(s.cfg.table, s.up.wire, id)|
                         && 0 <= j < |Due(s.cfg.table, s.up.wire, other)|
      ensures Due(s.cfg.table, s.up.wire, id)[i] != Due(s.cfg.table, s.up.wire, other)[j]
    {
      DueHasOwner(s.cfg.table, s.up.wire, id, i);
      DueHasOwner(s.cfg.table, s.up.wire, other, j);
    }
  }

  // ----- One exchange at a time, each under its scope -----

  lemma {:induction false} DisciplinedAt(t: Table, w: seq<WireEvent>, i: nat)
    requires Disciplined(t, w) && i < |w| && w[i].Asked?
    ensures Owed(t, w[..i]).None? && WantOk(t, w[i].job)
    ensures w[i].job.kind.ClientCommand? || w[i].job.kind.Pop? ==> PhysicalScope(w[..i]) == w[i].job.want
    decreases |w|
  {
    var n := |w| - 1;
    if i < n {
      DisciplinedAt(t, w[..n], i);
      assert w[..n][..i] == w[..i];
    }
  }

  /** A frame is produced only when the reply grammar of the one before has terminated, and every
      client command and pop goes out in the flood scope it wants: the default one, unless the
      command is scope sensitive. The frames are those really handed to the upstream writer. */
  lemma UpstreamIsSerializedAndScoped(s: State, i: nat)
    requires Reachable(s) && i < |s.up.wire| && s.up.wire[i].Asked?
    ensures AskedFrames(s.up.wire) == Frames(s.actions, 0)
    ensures Owed(s.cfg.table, s.up.wire[..i]).None?
    ensures var j := s.up.wire[i].job;
            && (j.kind.ClientCommand? || j.kind.Pop? ==> PhysicalScope(s.up.wire[..i]) == j.want)
            && (j.kind.Pop? ==> j.want == DEFAULT_SCOPE)
            && (j.kind.ClientCommand? ==>
                  && s.cfg.table.descriptor(j.command).Some?
                  && (!s.cfg.table.descriptor(j.command).value.scopeSend ==> j.want == DEFAULT_SCOPE))
  {
    hide Core, Reachable, Owed, PhysicalScope, Disciplined, Frames, AskedFrames;
    ReachableParts(s);
    CoreParts(s, false, []);
    DisciplinedAt(s.cfg.table, s.up.wire, i);
  }

  /** Between transactions the companion is in its default scope and owes no reply. */
  lemma IdleMeansDefaultScope(s: State)
    requires Reachable(s) && !s.failed && s.up.active.None?
    ensures PhysicalScope(s.up.wire) == DEFAULT_SCOPE && Owed(s.cfg.table, s.up.wire).None? && s.up.writes == map[]
  {
    hide Core, Hist, Reachable, Owed, PhysicalScope, Disciplined;
    ReachableParts(s);
    CoreParts(s, false, []);
    assert s.up.writes.Keys == {};
  }

  /** A scope-sensitive command runs in the scope its owner was told it is in. */
  lemma ScopeIsTheOwnersOwn(s: State)
    requires Reachable(s) && s.up.active.Some? && s.up.active.value.owner in s.sessions
    ensures var t := s.up.active.value;
            t.want == if t.desc.scopeSend then ScopeOf(s.sessions[t.owner].log.sent) else DEFAULT_SCOPE
  {
    hide Core, Hist, Reachable, ScopeOf, ClientOk, SentOk, SyncOk, ItemsOk;
    ReachableParts(s);
    CoreParts(s, false, []);
    CoreSession(s, s.up.active.value.owner, false, []);
  }

  // ----- The virtual inbox -----

  /** A multi-client session has been sent, or still holds, the orphan it was handed and then every
      item popped and kept since it came: once each, in order, cut to its protocol target. */
  lemma MultiClientInboxIsExact(s: State, id: int)
    requires Reachable(s) && id in s.sessions && s.sessions[id].slot.None?
    ensures var c := s.sessions[id];
            && c.log.joined <= |s.pops|
            && Delivered(c.log.sent) + c.inbox == c.log.handed + s.pops[c.log.joined..]
            && (c.sync.Some? ==> c.inbox == [])
            && (forall i | 0 <= i < |c.log.sent| && c.log.sent[i].role.Answer? && c.log.sent[i].role.cause.FromInbox? ::
                  c.log.sent[i].payload == Downgrade(c.log.sent[i].role.cause.item, TargetOf(c.log.sent[..i])))
  {
    hide Core, Hist, Reachable, ClientOk, ItemsOk, Downgrade, TargetOf, Delivered, ScopeOf, ReplyTo, EmptySeen,
         ResultDue;
    ReachableParts(s);
    CoreSession(s, id, false, []);
    DeliveriesAreCut(s.cfg.table, s.up.wire, s.sessions[id].log.sent, id);
    hide SentOk;
  }

  lemma DeliveriesAreCut(t: Table, w: seq<WireEvent>, sent: seq<Out>, id: int)
    requires SentOk(t, w, sent, id)
    ensures forall i | 0 <= i < |sent| && sent[i].role.Answer? && sent[i].role.cause.FromInbox? ::
              sent[i].payload == Downgrade(sent[i].role.cause.item, TargetOf(sent[..i]))
  {
    hide Downgrade, TargetOf, ReplyTo, EmptySeen, ResultDue, Relays, Due;
    forall i | 0 <= i < |sent| && sent[i].role.Answer? && sent[i].role.cause.FromInbox?
      ensures sent[i].payload == Downgrade(sent[i].role.cause.item, TargetOf(sent[..i]))
    {
      assert OutOk(t, w, sent, i, id);
    }
  }

  /** The items popped are exactly the replies to pops on the upstream connection, refusals and empty
      inboxes aside; kept are those that repeat no recent text of the same companion; and the
      deduplicator remembers the texts that companion gave last, whatever connection they came on. */
  lemma PopsAreTheKeptReplies(s: State)
    requires Reachable(s)
    ensures s.base <= |s.radio.heard| && s.radio.heard[s.base..] == PopReplies(s.cfg.table, s.up.wire)
    ensures s.radio.since <= |s.pops| && s.pops[s.radio.since..] == Kept(s.cfg.deduplicate, s.radio.heard)
    ensures s.radio.seen == if s.cfg.deduplicate then Dedup.Memory(s.radio.heard) else []
  {
    hide Inv, Hist, Reachable, Kept, PopReplies, SignOk, Working, Wakeful;
    ReachableIsGood(s);
  }

  /** Every dedicated slot was offered every popped item, in order; what it delivered and queues is a
      subsequence of that; its counters balance; and its session was sent what it delivered. */
  lemma SlotsConserveEveryItem(s: State, d: int)
    requires Reachable(s) && d in s.slots
    ensures var slot := s.slots[d];
            && slot.arrivals == s.pops
            && |s.pops| == slot.enqueued + slot.discards
            && slot.enqueued == slot.delivered + slot.evictions + slot.cleared + |slot.queue|
            && |slot.taken| == slot.delivered
            && Sub(slot.taken + slot.queue, s.pops)
            && |slot.queue| <= s.cfg.offlineQueueSize
            && (forall id | id in s.sessions && s.sessions[id].slot == Some(d) ::
                  && slot.attached == Some(id)
                  && s.sessions[id].log.joined <= |slot.taken|
                  && Delivered(s.sessions[id].log.sent) == slot.taken[s.sessions[id].log.joined..])
  {
    hide Core, Reachable, Delivered, Sub, Voiced, ItemsOk;
    ReachableParts(s);
    SlotHasOneUser(s, false, [], d);
    forall id | id in s.sessions && s.sessions[id].slot == Some(d)
      ensures s.sessions[id].log.joined <= |s.slots[d].taken|
      ensures Delivered(s.sessions[id].log.sent) == s.slots[d].taken[s.sessions[id].log.joined..]
    {
      assert TiedTo(s.slots, s.sessions[id]);
      CoreView(s, id, false, []);
      hide TargetOf, ScopeOf;
    }
  }

  /** NO_MORE_MESSAGES is never a lie: a pop asked after that client's sync was registered found the
      physical inbox empty. */
  lemma NoFalseEmpty(s: State, id: int, i: nat)
    requires Reachable(s) && id in s.sessions && i < |s.sessions[id].log.sent|
    requires s.sessions[id].log.sent[i].payload == NO_MORE
    ensures var o := s.sessions[id].log.sent[i];
            && o.role.Answer? && o.role.cause.Empty?
            && EmptySeen(s.up.wire, o.role.cause.registered, o.role.cause.asked)
  {
    hide Core, Hist, Reachable, ClientOk, InboxOk, SyncOk, EmptySeen, ReplyTo, ResultDue, Downgrade, TargetOf;
    ReachableParts(s);
    CoreSession(s, id, false, []);
    assert OutOk(s.cfg.table, s.up.wire, s.sessions[id].log.sent, i, id);
  }

  /** No wakeup is lost: whoever waits has nothing in its inbox, and is covered by the pop in flight or
      by a requested drain; and a requested drain itself waits only for what is upstream. */
  lemma NoLostWakeup(s: State, id: int)
    requires Reachable(s) && id in s.sessions && s.sessions[id].sync.Some?
    ensures !s.failed && InboxOf(s, id) == []
    ensures s.drain.requested || PopInFlight(s.up.active)
    ensures s.up.active.Some?
  {
    hide Core, Hist, HeardBut, Reachable, ClientOk, SentOk, InboxOk;
    ReachableIsGood(s);
    CoreParts(s, false, []);
    CoreSession(s, id, false, []);
  }

  /** An item whose multi-client consumers left before it arrived waits for the next one, and no
      later pop can overwrite it. */
  lemma OrphanIsNeverOverwritten(s: State)
    requires Reachable(s) && s.orphan.Some?
    ensures IsItem(s.cfg.table, s.orphan.value)
    ensures forall id | id in s.sessions :: s.sessions[id].slot.Some?
    ensures !PopWithMulti(s.up.active) && !PopWithMulti(s.debt)
  {
    hide Core, Hist, Reachable, IsItem;
    ReachableParts(s);
    CoreParts(s, false, []);
  }

  // ----- Radio work that outlives its reply -----

  /** A late radio result reaches only a session that was told its command is accepted, under the
      tag the companion announced; an earlier frame to the same session says so. */
  lemma ResultsReachTheirRequester(s: State, id: int, i: nat)
    requires Reachable(s) && id in s.sessions && i < |s.sessions[id].log.sent|
    requires s.sessions[id].log.sent[i].role.Result?
    ensures var sent := s.sessions[id].log.sent;
            var o := sent[i];
            && ResultOf(o.role.command, o.role.tag, o.payload)
            && exists j | 0 <= j < i :: AcceptedAt(sent, j, o.role.command, o.role.tag)
  {
    hide Core, Hist, Reachable, ClientOk, InboxOk, SyncOk, EmptySeen, ReplyTo, ResultOf, Downgrade, TargetOf;
    ReachableParts(s);
    CoreSession(s, id, false, []);
    assert OutOk(s.cfg.table, s.up.wire, s.sessions[id].log.sent, i, id);
  }

  /** The shared remote request: tentative exactly while its command is unanswered, never owned by a
      session that has left, and never held without a deadline once its fate is known. */
  lemma RemoteLeaseIsSound(s: State)
    requires Reachable(s)
    ensures var r := s.radio.remote;
            && (LeasedUpstream(s.up.active) <==> r.Held? && r.tentative)
            && (r.Held? && r.owner.Some? ==> r.owner.value in s.sessions)
            && (r.Held? && !r.tentative ==> r.deadline.Some?)
            && (r.Held? && r.tentative ==> r.command == s.up.active.value.command)
    ensures !s.fault
  {
    hide Core, Hist, Reachable, Accepted;
    ReachableParts(s);
    CoreParts(s, false, []);
  }

  /** Signing: what the companion accepted is, chunk for chunk, what it said OK to on the upstream connection
      since it announced its limit, all of it from the owner of the operation; with the chunk in
      flight it never exceeds that limit, so the remaining space is never negative; and every signing
      command in flight finds its own state, even when its owner has left. */
  lemma SigningIsSound(s: State)
    requires Reachable(s) && !s.failed
    ensures var g := s.signing;
            && (g.Busy? ==> g.accepted == Sum(g.chunks))
            && (g.Busy? && g.tentative ==> g.chunks == [])
            && (g.Busy? && !g.tentative ==> Signed(s.cfg.table, s.up.wire) == Tagged(g.owner, g.chunks))
            && (g.Busy? && g.limit.Some? ==>
                  g.accepted + (if g.pending.Some? then g.pending.value else 0) <= g.limit.value)
            && (SigningUpstream(s.up.active, CMD_SIGN_START) <==> g.Busy? && g.tentative)
            && (SigningUpstream(s.up.active, CMD_SIGN_DATA) <==> g.Busy? && g.pending.Some?)
            && (SigningUpstream(s.up.active, CMD_SIGN_FINISH) <==> g.Busy? && g.finishing)
            && (g.Busy? && (g.tentative || g.pending.Some? || g.finishing) ==> g.owner == s.up.active.value.owner)
  {
    hide Core, Hist, HeardBut, Working, Reachable, Sum, Signed, Tagged;
    ReachableIsGood(s);
    assert SignOk(s);
    hide SignOk;
    CoreParts(s, false, []);
  }

  // ----- Resources -----

  /** The bounds every reachable state keeps, the shape of the active transaction, and the
      exclusivity of key import and factory reset. */
  lemma ResourcesStayBounded(s: State, id: int)
    requires Reachable(s) && id in s.sessions
    ensures var c := s.sessions[id];
            && |c.commands| + |Waiting(c)| + (if Owns(s.up.active, id) then 1 else 0) <= s.cfg.commandLimit
            && |c.writes| <= s.cfg.outputFrames
            && (s.up.active.Some? && s.up.active.value.maintenance &&
                Opcode(s.up.active.value.command) != CMD_REBOOT ==>
                  s.up.active.value.owner == id)
  {
    hide Core, Hist, Reachable, SentOk, InboxOk, SyncOk, Fifo;
    ReachableParts(s);
    CoreParts(s, false, []);
    CoreSession(s, id, false, []);
  }

  lemma ActiveTransactionIsLegitimate(s: State)
    requires Reachable(s) && s.up.active.Some?
    ensures var t := s.up.active.value;
            && !s.failed && ValidCommand(s.cfg.table, t.command)
            && (t.owner != 0 ==>
                  Opcode(t.command) != CMD_SYNC_NEXT_MESSAGE && Opcode(t.command) != CMD_SET_FLOOD_SCOPE_KEY)
            && (t.owner == 0 ==> t.command == POP)
            && s.up.writes.Keys == (if t.write.Some? then {t.write.value} else {})
  {
    hide Core, Hist, Reachable, Disciplined, Owed, PhysicalScope;
    ReachableParts(s);
    CoreParts(s, false, []);
  }

  /** The scheduling order is always the inbox consumer and the live sessions, each once. */
  lemma OrderIsAPermutation(s: State)
    requires Reachable(s)
    ensures forall i, j | 0 <= i < j < |s.order| :: s.order[i] != s.order[j]
    ensures forall x :: x in s.order <==> x == 0 || x in s.sessions
  {
    hide Core, Hist, Reachable;
    ReachableParts(s);
    CoreParts(s, false, []);
  }

  // ----- The orphan, and pushes -----

  lemma ScheduleMoves(s: State, now: Time, id: int)
    ensures id in Schedule(s, now).sessions ==> id in s.sessions && Moves(s.sessions[id], Schedule(s, now).sessions[id])
  {
    hide LocalPass, Rotate, Orderly;
  }

  /** The next multi-client session is handed the orphan, ahead of everything popped later. */
  lemma OrphanGoesToTheNextMultiClient(s: State, id: int, now: Time)
    requires Reachable(s) && Legal(s, Admit(id, None, now)) && s.orphan.Some? && !s.failed
    requires !(s.up.active.Some? && s.up.active.value.maintenance)
    ensures var r := OnAdmit(s, id, None, now);
            id in r.sessions ==>
              && r.orphan.None? && r.sessions[id].log.handed == [s.orphan.value]
              && r.sessions[id].log.joined == |s.pops| <= |r.pops|
              && Delivered(r.sessions[id].log.sent) + r.sessions[id].inbox == [s.orphan.value] + r.pops[|s.pops|..]
  {
    hide Inv, Hist, Reachable, OnAdmit, Legal, Delivered;
    ReachableParts(s);
    HandedOver(s, id, now);
    if id in OnAdmit(s, id, None, now).sessions {
      HandedFirst(OnAdmit(s, id, None, now), id);
    }
  }

  lemma HandedOver(s: State, id: int, now: Time)
    requires Inv(s) && Legal(s, Admit(id, None, now)) && s.orphan.Some? && !s.failed
    requires !(s.up.active.Some? && s.up.active.value.maintenance)
    ensures var r := OnAdmit(s, id, None, now);
            && Inv(r)
            && (id in r.sessions ==>
                  && r.sessions[id].slot.None? && r.sessions[id].log.handed == [s.orphan.value]
                  && r.sessions[id].log.joined == |s.pops|)
  {
    hide Inv, Schedule, Hint, OnAdmit, Legal, Joined;
    MultiAdmitIs(s, id, now);
    HandedStays(Joined(s.(now := now), id, None), id, now);
    JoinedHas(s, now, id);
  }

  lemma JoinedHas(s: State, now: Time, id: int)
    requires s.orphan.Some?
    ensures var j := Joined(s.(now := now), id, None);
            && id in j.sessions && j.sessions[id].slot.None? && j.sessions[id].log.handed == [s.orphan.value]
            && j.sessions[id].log.joined == |s.pops|
  {
  }

  lemma MultiAdmitIs(s: State, id: int, now: Time)
    requires Inv(s) && Legal(s, Admit(id, None, now)) && !s.failed
    requires !(s.up.active.Some? && s.up.active.value.maintenance)
    ensures OnAdmit(s, id, None, now) == Schedule(Hint(Joined(s.(now := now), id, None), id), now)
    ensures Inv(OnAdmit(s, id, None, now))
  {
    hide Core, Schedule, Hint, ConfigOk, Unused, OnAdmit, Joined;
    CoreParts(s, false, []);
    ClockKeeps(s, now);
    VacatedIsWelcome(s.(now := now), id, None);
    AdmitIs(s, id, None, now);
    AdmitKeeps(s, id, None, now);
  }

  /** Greeting and scheduling do not touch what a session was handed. */
  lemma HandedStays(j: State, id: int, now: Time)
    ensures var r := Schedule(Hint(j, id), now);
            id in r.sessions ==>
              && id in j.sessions && r.sessions[id].slot == j.sessions[id].slot
              && r.sessions[id].log.handed == j.sessions[id].log.handed
              && r.sessions[id].log.joined == j.sessions[id].log.joined
  {
    hide Schedule, Hint, Orderly;
    ScheduleMoves(Hint(j, id), now, id);
    if id in Hint(j, id).sessions {
      assert Moves(j.sessions[id], Hint(j, id).sessions[id]);
    }
  }

  lemma HandedFirst(s: State, id: int)
    requires Inv(s) && id in s.sessions && s.sessions[id].slot.None?
    ensures var c := s.sessions[id];
            && s.orphan.None? && c.log.joined <= |s.pops|
            && Delivered(c.log.sent) + c.inbox == c.log.handed + s.pops[c.log.joined..]
  {
    hide Core, ClientOk, SentOk, SyncOk, ItemsOk, Delivered, TargetOf, ScopeOf, OrphanOk;
    assert s.orphan.None? by { OrphanWaits(s, id); }
    CoreSession(s, id, false, []);
  }

  lemma OrphanWaits(s: State, id: int)
    requires Inv(s) && id in s.sessions && s.sessions[id].slot.None?
    ensures s.orphan.None?
  {
    hide Core, IsItem;
    CoreParts(s, false, []);
  }

  /** The frame cannot reach the owner of a maintenance result that waits to be written: the result
      could not be confirmed either. */
  ghost predicate Spoils(s: State, ids: seq<int>) {
    && s.up.active.Some?
    && var x := s.up.active.value.owner;
       x in ids && x in s.sessions && AwaitingResultWrite(s, x) && !HasRoom(s, x)
  }

  lemma EmitStays(s: State, x: int, o: Out)
    requires !Spoils(s, [x])
    ensures var r := Emit(s, x, o);
            && r.up == s.up && r.cfg == s.cfg && r.failed == s.failed
            && (forall id | id in s.sessions && id != x :: id in r.sessions && r.sessions[id] == s.sessions[id])
            && (forall id | id in r.sessions :: id in s.sessions)
  {
    hide Orderly, Without, Moves, Wakeful;
    assert x in [x];
  }

  lemma EmitSpoils(s: State, x: int, o: Out)
    requires Spoils(s, [x]) && !s.failed
    ensures Emit(s, x, o).failed
  {
    hide Orderly, Without, Moves, Wakeful, FailEpoch;
    var gone := Detach(s, x);
    assert Emit(s, x, o) == Finish(gone, gone.up.active.value);
    var released := gone.(up := gone.up.(active := None),
                          signing := SigningOwnerGone(gone.signing, x));
    FailureEnds(released);
  }

  /** A broadcast push is sent exactly once to every listed session that has room for it. The one
      exception is the owner of a maintenance result without room for it, which ends the epoch. */
  lemma {:induction false} BroadcastReachesEveryone(s: State, ids: seq<int>, p: Bytes, id: int)
    requires Distinct(ids) && HasRoom(s, id) && !s.failed
    ensures var r := Broadcast(s, ids, p);
            && (r.failed <==> Spoils(s, ids))
            && (!r.failed ==>
                  && id in r.sessions
                  && r.sessions[id].log.sent == s.sessions[id].log.sent + (if id in ids then [Out(p, Notice)] else []))
    decreases |ids|
  {
    hide Orderly, Aside, Only, Remove;
    if ids != [] {
      var r := Emit(s, ids[0], Out(p, Notice));
      if Spoils(s, [ids[0]]) {
        EmitSpoils(s, ids[0], Out(p, Notice));
        BroadcastStaysFailed(r, ids[1..], p);
      } else {
        EmitStays(s, ids[0], Out(p, Notice));
        if ids[0] == id {
          BroadcastSkips(r, ids[1..], p, id);
        } else {
          BroadcastReachesEveryone(r, ids[1..], p, id);
        }
      }
    }
  }

  lemma BroadcastStaysFailed(s: State, ids: seq<int>, p: Bytes)
    requires s.failed
    ensures Broadcast(s, ids, p).failed
  {
    hide Broadcast, Orderly, Moves;
  }

  lemma {:induction false} BroadcastSkips(s: State, ids: seq<int>, p: Bytes, id: int)
    requires Distinct(ids) && id !in ids && id in s.sessions && !s.failed
    ensures var r := Broadcast(s, ids, p);
            && (r.failed <==> Spoils(s, ids))
            && (!r.failed ==> id in r.sessions && r.sessions[id] == s.sessions[id])
    decreases |ids|
  {
    hide Orderly, Aside, Only, Emit;
    if ids != [] {
      if Spoils(s, [ids[0]]) {
        EmitSpoils(s, ids[0], Out(p, Notice));
        BroadcastStaysFailed(Emit(s, ids[0], Out(p, Notice)), ids[1..], p);
      } else {
        EmitStays(s, ids[0], Out(p, Notice));
        BroadcastSkips(Emit(s, ids[0], Out(p, Notice)), ids[1..], p, id);
      }
    }
  }
}
