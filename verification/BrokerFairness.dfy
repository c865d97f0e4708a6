/**
 Bounded bypass: a client with a command for the companion, and the inbox consumer while a drain is
 requested, are overtaken only by those ahead of them in the scheduling order, each at most once,
 however clients come and go.
 */
module BrokerFairness {
  import opened Wire
  import opened Protocol
  import opened Leases
  import opened Broker
  import opened BrokerInvariant
  import opened BrokerClients
  import opened BrokerInbox
  import opened BrokerSchedule
  import opened BrokerReplies
  import opened BrokerScopes
  import opened BrokerEvents
  import opened BrokerTrace
  import opened BrokerHistory
  import opened BrokerWakeup
  import opened BrokerRuns

  // ----- Rank -----

  ghost function Ahead(q: seq<int>, x: int): set<int> {
    set y | y in q && Before(q, y, x)
  }

  /** How many owners stand before `x`. */
  ghost function Rank(q: seq<int>, x: int): nat {
    |Ahead(q, x)|
  }

  lemma SmallerSet(a: set<int>, b: set<int>)
    requires a <= b
    ensures |a| <= |b|
  {
    assert b == a + (b - a);
  }

  lemma RankNarrows(q: seq<int>, q': seq<int>, x: int)
    requires Orderly(q, q')
    ensures Rank(q', x) <= Rank(q, x)
  {
    forall y | y in Ahead(q', x)
      ensures y in Ahead(q, x)
    {
      assert Before(q, y, x);
    }
    SmallerSet(Ahead(q', x), Ahead(q, x));
  }

  /** Sending the first of the order to its back brings everyone else forward. */
  lemma RankTurns(q: seq<int>, x: int)
    requires Distinct(q) && q != [] && q[0] != x && x in q
    ensures Rank(q[1..] + [q[0]], x) + 1 <= Rank(q, x)
  {
    var q' := q[1..] + [q[0]];
    var k :| 0 <= k < |q| && q[k] == x;
    assert Before(q, q[0], x);
    forall y | y in Ahead(q', x)
      ensures y in Ahead(q, x) - {q[0]}
    {
      var i, j :| 0 <= i < j < |q'| && q'[i] == y && q'[j] == x;
      assert q'[j] == q[if j < |q| - 1 then j + 1 else 0];
      assert q[i + 1] == y && q[j + 1] == x;
      assert Before(q, y, x);
    }
    SmallerSet(Ahead(q', x), Ahead(q, x) - {q[0]});
  }

  lemma RankAppends(q: seq<int>, id: int, x: int)
    requires id != x
    ensures Rank(q + [id], x) <= Rank(q, x)
  {
    forall y | y in Ahead(q + [id], x)
      ensures y in Ahead(q, x)
    {
      var i, j :| 0 <= i < j < |q + [id]| && (q + [id])[i] == y && (q + [id])[j] == x;
      assert q[i] == y && q[j] == x;
      assert Before(q, y, x);
    }
    SmallerSet(Ahead(q + [id], x), Ahead(q, x));
  }

  ghost function Elements(q: seq<int>): set<int> {
    set y | y in q
  }

  lemma {:induction false} ElementsFit(q: seq<int>)
    ensures |Elements(q)| <= |q|
    decreases |q|
  {
    if q != [] {
      ElementsFit(q[1..]);
      assert Elements(q) == {q[0]} + Elements(q[1..]);
    }
  }

  lemma RankIsBounded(q: seq<int>, x: int)
    requires Distinct(q) && x in q
    ensures Rank(q, x) < |q|
  {
    assert x !in Ahead(q, x);
    assert Ahead(q, x) <= Elements(q) - {x};
    SmallerSet(Ahead(q, x), Elements(q) - {x});
    ElementsFit(q);
  }

  // ----- Dispatches -----

  /** The first frame of a transaction; a scoped command is the second one of its own. */
  ghost predicate Begins(j: Job) {
    j.kind.Pop? || j.kind.SetScope? || (j.kind.ClientCommand? && j.want == DEFAULT_SCOPE)
  }

  /** Whom the companion has been given to, in order. */
  ghost function Served(w: seq<WireEvent>): seq<int> {
    if w == [] then []
    else
      var last := w[|w| - 1];
      Served(w[..|w| - 1]) + (if last.Asked? && Begins(last.job) then [last.job.owner] else [])
  }

  lemma ServedGrows(w: seq<WireEvent>, e: WireEvent)
    ensures Served(w + [e]) == Served(w) + (if e.Asked? && Begins(e.job) then [e.job.owner] else [])
  {
    assert (w + [e])[..|w|] == w;
  }

  /** What `x` can still be made to wait for, plus what it has waited for. */
  ghost function Toll(s: State, x: int): nat {
    |Served(s.up.wire)| + Rank(s.order, x)
  }

  /** A session with a command at the head of its queue; the inbox consumer is always ready to pop. */
  ghost predicate Eager(s: State, x: int) {
    if x == 0 then Wakeful(s) else x in s.sessions && s.sessions[x].commands != [] && s.sessions[x].sync.None?
  }

  /** The session is still there, and its head has been neither dispatched nor answered. For the inbox
      consumer: a drain is requested, and no pop has been dispatched. */
  ghost predicate Stuck(s: State, r: State, x: int) {
    if x == 0 then !r.failed && r.drain.requested && !PopInFlight(r.up.active)
    else x in s.sessions && x in r.sessions && Handled(r.sessions[x]) == Handled(s.sessions[x])
  }

  /** A step that serves sessions without giving the companion to anyone. */
  ghost predicate Idles(s: State, r: State) {
    && Served(r.up.wire) == Served(s.up.wire) && Orderly(s.order, r.order) && (Wakeful(s) ==> Wakeful(r))
    && (forall id | id in r.sessions :: id in s.sessions && Moves(s.sessions[id], r.sessions[id]))
  }

  lemma IdlingKeepsToll(s: State, r: State, x: int)
    requires Idles(s, r)
    ensures Toll(r, x) <= Toll(s, x)
    ensures Eager(s, x) && Stuck(s, r, x) ==> Eager(r, x)
  {
    RankNarrows(s.order, r.order, x);
  }

  lemma NearIdles(s: State, r: State)
    requires Near(s, r)
    ensures Idles(s, r)
  {
  }

  // ----- Rotation -----

  lemma ServeServes(s: State, id: int)
    requires Inv(s) && s.up.active.None? && !s.failed
    ensures |Served(Serve(s, id).up.wire)| <= |Served(s.up.wire)| + 1
  {
    hide Core, Admission, Served, Onward, Orderly, Only, Near, NewTxn;
    if id == 0 {
      var r := s.(drain := s.drain.(requested := false, popSeq := s.drain.popSeq + 1));
      DispatchServes(r, 0, POP);
    } else if id in s.sessions && s.sessions[id].sync.None? && s.sessions[id].commands != [] {
      var c := s.sessions[id].commands[0].payload;
      var v := Admission(s, id, c);
      var r := s.(radio := v.radio, signing := v.signing, fault := s.fault || v.fault);
      if v.reason.Some? {
        assert AnswerHead(r, id, Err(v.reason.value)).up.wire == s.up.wire by {
          AnswerWire(r, id, Err(v.reason.value));
        }
      } else {
        DispatchServes(Put(r, id, Shift(s.sessions[id])), id, c);
      }
    }
  }

  lemma AnswerWire(s: State, id: int, p: Bytes)
    requires id in s.sessions && s.sessions[id].commands != []
    ensures AnswerHead(s, id, p).up.wire == s.up.wire
  {
    hide AnswerHead;
  }

  lemma DispatchServes(s: State, owner: int, c: Bytes)
    ensures |Served(Dispatch(s, owner, c).up.wire)| <= |Served(s.up.wire)| + 1
  {
    hide Served, NewTxn, Onward, Orderly, Forwarded;
    if s.cfg.table.descriptor(c).Some? {
      var t := NewTxn(s, owner, c, s.cfg.table.descriptor(c).value);
      ServedGrows(s.up.wire, Asked(t.want, Job(SetScope, t.owner, t.command, t.want)));
      ServedGrows(s.up.wire, Asked(Forwarded(t.command),
                                   Job(if t.owner == 0 then Pop else ClientCommand, t.owner, t.command, t.want)));
    }
  }

  /** Whoever is served with a command at its head has that command taken. */
  lemma LaunchHandles(s: State, x: int)
    requires x != 0 && Eager(s, x)
    ensures var r := Serve(s, x); x in r.sessions ==> Handled(s.sessions[x]) < Handled(r.sessions[x])
  {
    hide Admission, Near, Aside, Orderly, Onward, NewTxn, Remove;
    var c := s.sessions[x];
    var v := Admission(s, x, c.commands[0].payload);
    var r := s.(radio := v.radio, signing := v.signing, fault := s.fault || v.fault);
    RemoveForgets(Put(r, x, Shift(c)), x);
  }

  /** The turn of the inbox consumer ends its wait: it pops, or nothing is requested any more. */
  lemma ConsumerIsServed(s: State, n: nat)
    requires Inv(s) && Wakeful(s) && s.up.active.None?
    ensures var r := Serve(s, 0);
            !Stuck(s, if r.up.active.Some? then r else Rotate(r, n), 0)
  {
    hide Core, NewTxn, Onward, Orderly, Listens, Rotate, Forwarded;
    PopIsKnown(s);
    var r := Serve(s, 0);
    if r.up.active.None? {
      ConsumerPops(s);
      RotateAsksNoDrain(r, n);
    } else {
      assert PopInFlight(r.up.active) by { ConsumerDispatches(s); }
    }
  }

  lemma ConsumerDispatches(s: State)
    requires s.up.active.None? && Serve(s, 0).up.active.Some?
    ensures PopInFlight(Serve(s, 0).up.active)
  {
    hide Onward, Orderly, Listens, Forwarded;
  }

  /** A turn given to somebody else costs at most what it brings forward. */
  lemma OtherTurnFair(s: State, x: int)
    requires Inv(s) && s.up.active.None? && !s.failed && s.order != [] && s.order[0] != x && x in s.order
    ensures Toll(Serve(Turn(s), s.order[0]), x) <= Toll(s, x)
  {
    hide Core, Serve, Orderly, Served, Rank, Listens;
    CoreRoster(s, false, []);
    var turned := Turn(s);
    TurnKeeps(s);
    RankTurns(s.order, x);
    ServeServes(turned, s.order[0]);
    RankNarrows(turned.order, Serve(turned, s.order[0]).order, x);
  }

  /** Who is stuck up to the end was eager and stuck on the way. */
  lemma StuckOnTheWay(s: State, r: State, f: State, x: int)
    requires Onward(s, r) && Onward(r, f) && Eager(s, x) && Stuck(s, f, x)
    ensures Eager(r, x) && Stuck(r, f, x)
  {
    hide Orderly;
  }

  lemma EagerIsListed(s: State, x: int)
    requires Inv(s) && Eager(s, x)
    ensures x in s.order
  {
    hide Core;
    CoreRoster(s, false, []);
  }

  lemma TurnsOn(s: State, r: State)
    requires s.order != [] && Onward(Turn(s), r)
    ensures Onward(s, r)
  {
    hide Orderly, Moves;
  }

  /** Whoever has the turn does not wait any longer. */
  lemma TurnEnds(s: State, n: nat)
    requires Inv(s) && s.up.active.None? && s.order != [] && Eager(s, s.order[0]) && n > 0
    ensures !Stuck(s, Rotate(s, n), s.order[0])
  {
    hide Core, Serve, Orderly, Listens, Wakeful;
    var x := s.order[0];
    if x == 0 {
      TurnKeeps(s);
      assert Wakeful(Turn(s)) by { TurnWakes(s); }
      ConsumerIsServed(Turn(s), n - 1);
    } else {
      LaunchHandles(Turn(s), x);
    }
  }

  lemma {:induction false} RotateFair(s: State, n: nat, x: int)
    requires Inv(s) && s.up.active.None? && !s.failed && Unserved(s, n) && Eager(s, x)
    ensures Stuck(s, Rotate(s, n), x) ==> Toll(Rotate(s, n), x) <= Toll(s, x)
    decreases n
  {
    hide Core, Serve, Settled, Orderly, Toll, Listens, Moves, Wakeful, Stuck, Eager;
    CoreRoster(s, false, []);
    if n > 0 && Stuck(s, Rotate(s, n), x) {
      var id := s.order[0];
      var r := Serve(Turn(s), id);
      assert Settled(s, id);
      if id == x {
        TurnEnds(s, n);
      } else {
        assert x in s.order by { EagerIsListed(s, x); }
        OtherTurnFair(s, x);
        if r.up.active.None? {
          TurnKeeps(s);
          TurnSettles(s, id);
          ServeKeeps(Turn(s), id);
          ServePassesOver(Turn(s), id);
          UnservedStays(s, r, n);
          assert Onward(s, r) by { TurnsOn(s, r); }
          StuckOnTheWay(s, r, Rotate(s, n), x);
          RotateFair(r, n - 1, x);
        }
      }
    }
  }

  lemma ScheduleFair(s: State, now: Time, x: int)
    requires Inv(s) && s.now <= now && Eager(s, x)
    ensures var r := Schedule(s, now);
            && (forall id | id in r.sessions :: id in s.sessions && Moves(s.sessions[id], r.sessions[id]))
            && (Stuck(s, r, x) ==> Toll(r, x) <= Toll(s, x))
  {
    hide Core, LocalPass, Rotate, Served, Rank, Unserved, Orderly, Settled;
    if !s.failed {
      var s1 := s.(now := now);
      ClockKeeps(s, now);
      if !(s1.up.active.Some? && s1.up.active.value.maintenance) {
        var s2 := LocalPass(s1, s1.ids);
        LocalPassKeeps(s1, s1.ids, []);
        NearIdles(s1, s2);
        IdlingKeepsToll(s1, s2, x);
        if s2.up.active.None? && (x == 0 || Stuck(s1, s2, x)) {
          ScheduleRotates(s1, s2);
          RotateFair(s2, |s2.order|, x);
        }
      }
    }
  }

  // ----- Replies serve nobody else -----

  lemma HeardServes(s: State, p: Bytes)
    ensures Served(Heard(s, p).up.wire) == Served(s.up.wire)
  {
    ServedGrows(s.up.wire, Got(p));
  }

  lemma ScopeResponseServes(s: State, t: Txn, p: Bytes)
    requires t.want != DEFAULT_SCOPE && t.owner != 0
    ensures Served(ScopeResponse(s, t, p).up.wire) == Served(s.up.wire)
  {
    hide Served, FailEpoch, Emit, Orderly, Moves, Abandon;
    HeardServes(s, p);
    ServedGrows(s.up.wire + [Got(p)], Asked(Forwarded(t.command), Job(ClientCommand, t.owner, t.command, t.want)));
  }

  lemma CompleteServes(s: State, t: Txn, p: Bytes, emitted: Option<int>)
    ensures Served(CompleteCommand(s, t, p, emitted).up.wire) == Served(s.up.wire)
  {
    hide Served, FailEpoch, Orderly, Moves, Outcome;
    ServedGrows(s.up.wire, Asked(DEFAULT_SCOPE, Job(ResetScope, t.owner, t.command, t.want)));
  }

  lemma ClientReplyServes(s: State, t: Txn, p: Bytes)
    ensures Served(ClientReply(s, t, p).up.wire) == Served(s.up.wire)
  {
    hide Served, Emit, Orderly, Moves, CompleteCommand, Relayed;
    HeardServes(s, p);
    assert Relaying(s, t, p).up.wire == Heard(s, p).up.wire;
    var e := Handed(s, t, p);
    assert e.up.wire == Heard(s, p).up.wire;
    hide Handed;
    CompleteServes(e, Progressed(t, p, s.now), p, HandedAs(s, t, p));
  }

  lemma TxnResponseServes(s: State, p: Bytes)
    requires Inv(s) && !s.failed
    ensures Served(TxnResponse(s, p).up.wire) == Served(s.up.wire)
  {
    hide Core, Served, FailEpoch, ScopeResponse, ClientReply, PopResult, ValidResponse, Orderly, Moves, TxnOk;
    if s.up.active.Some? {
      SettleWriteKeeps(s);
      var r := SettleWrite(s);
      var t := r.up.active.value;
      HeardServes(r, p);
      if t.step.Setup? || t.step.Restore? {
        ScopedWants(r, t);
        ScopeResponseServes(r, t, p);
      } else if t.step.Command? {
        ClientReplyServes(r, t, p);
        PopResultWire(Heard(r, p).(up := Heard(r, p).up.(active := None)), t, p);
      }
    }
  }

  lemma ScopedWants(s: State, t: Txn)
    requires Inv(s) && s.up.active == Some(t) && (t.step.Setup? || t.step.Restore?)
    ensures t.want != DEFAULT_SCOPE && t.owner != 0
  {
    hide Core;
    CoreParts(s, false, []);
  }

  lemma TxnResponseIdles(s: State, p: Bytes)
    requires Inv(s) && !s.failed
    ensures Idles(s, TxnResponse(s, p))
  {
    hide Core, TxnResponse, Served;
    TxnResponseServes(s, p);
  }

  lemma PushIdles(s: State, p: Bytes, now: Time)
    requires Inv(s) && !s.failed
    ensures Idles(s, Push(s, p, now))
  {
    hide Core, TxnResponse, HintAll, Broadcast, Emit, MatchPush, Served, Orderly, Moves, U32;
    TxnResponseIdles(s, p);
    assert Orderly(s.order, Push(s, p, now).order);
  }

  // ----- Every event -----

  /** Scheduling after a step that may have let a session in. */
  lemma ThenScheduleFair(s: State, m: State, now: Time, x: int)
    requires Inv(m) && m.now <= now && Eager(s, x) && Toll(m, x) <= Toll(s, x)
    requires x in m.sessions && x != 0 ==> x in s.sessions && Handled(s.sessions[x]) <= Handled(m.sessions[x])
    requires x == 0 || Stuck(s, m, x) ==> Eager(m, x)
    ensures var r := Schedule(m, now);
            Stuck(s, r, x) ==> Toll(r, x) <= Toll(s, x) && Eager(r, x)
  {
    hide Core, Schedule, Toll;
    if Eager(m, x) {
      ScheduleFair(m, now, x);
    } else {
      ScheduleServes(m, now, x);
    }
  }

  /** An event that first serves sessions and then schedules. */
  lemma IdleThenSchedule(s: State, m: State, now: Time, x: int)
    requires Inv(m) && m.now <= now && Idles(s, m) && Eager(s, x)
    ensures var r := Schedule(m, now);
            Stuck(s, r, x) ==> Toll(r, x) <= Toll(s, x) && Eager(r, x)
  {
    hide Core, Schedule, Served, Rank, Orderly;
    IdlingKeepsToll(s, m, x);
    ThenScheduleFair(s, m, now, x);
  }

  /** Scheduling never puts a command back. */
  lemma ScheduleServes(s: State, now: Time, x: int)
    ensures var r := Schedule(s, now);
            x in r.sessions ==> x in s.sessions && Handled(s.sessions[x]) <= Handled(r.sessions[x])
  {
    hide LocalPass, Rotate, Orderly;
  }

  lemma AdmitFair(s: State, id: int, slot: Option<int>, now: Time, x: int)
    requires Good(s) && Legal(s, Admit(id, slot, now)) && Eager(s, x)
    ensures var r := OnAdmit(s, id, slot, now);
            Stuck(s, r, x) ==> Toll(r, x) <= Toll(s, x) && Eager(r, x)
  {
    hide Core, Hist, Schedule, Orderly, Remove, Hint, Unused, ConfigOk, OnAdmit, Served, Rank;
    if slot.Some? {
      ConfiguredSlot(s, slot.value);
    }
    CoreParts(s, false, []);
    var s0 := s.(now := now);
    if s.failed || (s.up.active.Some? && s.up.active.value.maintenance) {
      RefusedAdmission(s, id, slot, now);
    } else {
      ClockKeeps(s, now);
      var s1 := Vacating(s0, slot);
      VacatedIsWelcome(s0, id, slot);
      AdmitIs(s, id, slot, now);
      VacatingIdles(s0, slot);
      JoinKeeps(s1, id, slot);
      HintKeeps(Joined(s1, id, slot), id, false, []);
      var m := Hint(Joined(s1, id, slot), id);
      assert m.now == now by { JoinedClock(s1, id, slot); hide Joined; }
      JoinedToll(s0, s1, id, slot, x);
      ThenScheduleFair(s0, m, now, x);
    }
  }

  lemma VacatingIdles(s: State, slot: Option<int>)
    ensures Idles(s, Vacating(s, slot))
  {
    hide Remove, Served, Orderly, Moves;
    SameOrder(s.order);
    SameSessions(s);
  }

  lemma SameOrder(q: seq<int>)
    ensures Orderly(q, q)
  {
  }

  lemma SameSessions(s: State)
    ensures forall id | id in s.sessions :: Moves(s.sessions[id], s.sessions[id])
  {
  }

  lemma JoinedToll(s: State, s1: State, id: int, slot: Option<int>, x: int)
    requires Idles(s, s1) && Eager(s, x) && id > 0 && id !in s.sessions && (slot.Some? ==> slot.value in s1.slots)
    ensures var m := Hint(Joined(s1, id, slot), id);
            && Toll(m, x) <= Toll(s, x)
            && (x in m.sessions ==> x in s.sessions && Handled(s.sessions[x]) <= Handled(m.sessions[x]))
            && (x == 0 || Stuck(s, m, x) ==> Eager(m, x))
  {
    hide Hint, Served, Rank;
    var j := Joined(s1, id, slot);
    RankAppends(s1.order, id, x);
    RankNarrows(s.order, s1.order, x);
    var m := Hint(j, id);
    NearIdles(j, m);
    IdlingKeepsToll(j, m, x);
    hide Orderly;
    assert x in m.sessions ==> x in j.sessions;
    assert x in j.sessions ==> x in s1.sessions && j.sessions[x] == s1.sessions[x];
  }

  lemma ClientFrameFair(s: State, id: int, p: Bytes, now: Time, x: int)
    requires Inv(s) && s.now <= now && Eager(s, x)
    ensures var r := OnClientFrame(s, id, p, now);
            Stuck(s, r, x) ==> Toll(r, x) <= Toll(s, x) && Eager(r, x)
  {
    hide Core, Schedule, Served, Rank, Remove;
    ClockKeeps(s, now);
    var s0 := s.(now := now);
    SameOrder(s.order);
    if !s.failed && id in s.sessions {
      if QueueFull(s0, id) {
        RemoveKeeps(s0, id, false, []);
        NearIdles(s0, Remove(s0, id));
        hide Orderly;
        IdleThenSchedule(s, Remove(s0, id), now, x);
      } else {
        SubmitKeeps(s0, id, p, now);
        var c := s.sessions[id];
        var m := Put(s0, id, c.(commands := c.commands + [Queued(p, now)],
                                log := c.log.(submitted := c.log.submitted + [p])));
        hide Orderly;
        ScheduleFair(m, now, x);
      }
    }
  }

  lemma LeaveFair(s: State, id: int, now: Time, x: int)
    requires Inv(s) && s.now <= now && Eager(s, x)
    ensures var r := Schedule(Remove(s.(now := now), id), now);
            Stuck(s, r, x) ==> Toll(r, x) <= Toll(s, x) && Eager(r, x)
  {
    hide Core, Schedule, Served, Rank, Remove, Orderly;
    ClockKeeps(s, now);
    RemoveKeeps(s.(now := now), id, false, []);
    NearIdles(s.(now := now), Remove(s.(now := now), id));
    IdleThenSchedule(s, Remove(s.(now := now), id), now, x);
  }

  lemma WriteDoneFair(s: State, id: int, epoch: int, w: int, now: Time, x: int)
    requires Inv(s) && s.now <= now && Eager(s, x)
    ensures var r := OnWriteDone(s, id, epoch, w, now);
            Stuck(s, r, x) ==> Toll(r, x) <= Toll(s, x) && Eager(r, x)
  {
    hide Core, Schedule, Served, Rank, ClientWritten, Orderly;
    if epoch == s.epoch && !s.failed {
      if id == 0 {
        UpstreamWrittenKeeps(s, w, now);
        assert UpstreamWritten(s, w, now).up.wire == s.up.wire;
        hide UpstreamWritten;
        IdleThenSchedule(s, UpstreamWritten(s, w, now), now, x);
      } else if id in s.sessions {
        ClientWrittenKeeps(s, id, w);
        WrittenWires(s, id, w, now);
        IdleThenSchedule(s, ClientWritten(s, id, w), now, x);
      } else {
        ScheduleFair(s, now, x);
      }
    }
  }

  /** A failure leaves nobody stuck. */
  lemma FailedFair(s: State, r: State, x: int)
    requires Inv(r) && r.failed
    ensures !Stuck(s, r, x)
  {
    hide Core;
    CoreParts(r, false, []);
  }

  lemma UpstreamFrameFair(s: State, p: Bytes, now: Time, x: int)
    requires Inv(s) && s.now <= now && Eager(s, x)
    ensures var r := OnUpstreamFrame(s, p, now);
            Stuck(s, r, x) ==> Toll(r, x) <= Toll(s, x) && Eager(r, x)
  {
    hide Core, Schedule, Served, Rank, Orderly, FailEpoch, Push, TxnResponse, ResponseOverdue;
    UpstreamFrameKeeps(s, p, now);
    ClockKeeps(s, now);
    var s0 := s.(now := now);
    if !s.failed {
      if ResponseOverdue(s0, now) {
        OverdueEnds(s0);
        FailedFair(s, OverdueFail(s0), x);
      } else if !s.cfg.table.responseShape(p) {
        FailureEnds(s0);
        FailedFair(s, FailEpoch(s0), x);
      } else if IsPush(p) {
        PushKeeps(s0, p, now);
        PushIdles(s0, p, now);
        IdleThenSchedule(s, Push(s0, p, now), now, x);
      } else {
        TxnResponseKeeps(s0, p);
        TxnResponseIdles(s0, p);
        IdleThenSchedule(s, TxnResponse(s0, p), now, x);
      }
    }
  }

  lemma LeasesWire(s: State, now: Time)
    ensures ExpireLeases(s, now).up.wire == s.up.wire
  {
  }

  lemma OrderlyThrough(a: seq<int>, b: seq<int>, c: seq<int>)
    requires Orderly(a, b)
    ensures Orderly(b, c) ==> Orderly(a, c)
  {
  }

  lemma TickedIdles(s: State)
    ensures Idles(s, Ticked(s))
  {
    hide ExpireSessions, HintAll, Served, Orderly, ExpireLeases;
    var e := ExpireSessions(s, s.ids);
    var s1 := ExpireLeases(e, s.now);
    assert s1.up.wire == e.up.wire by { LeasesWire(e, s.now); }
    OrderlyThrough(s.order, e.order, s1.order);
    OrderlyThrough(s.order, s1.order, Ticked(s).order);
  }

  lemma TickFair(s: State, now: Time, x: int)
    requires Inv(s) && s.now <= now && Eager(s, x)
    ensures var r := OnTick(s, now);
            Stuck(s, r, x) ==> Toll(r, x) <= Toll(s, x) && Eager(r, x)
  {
    hide Core, FailEpoch, OverdueFail, Schedule, Ticked, AnyOverdue, ResponseOverdue, OnTick, Served, Rank, Orderly;
    TickKeeps(s, now);
    ClockKeeps(s, now);
    TickShape(s, now);
    var s0 := s.(now := now);
    if !s.failed {
      if ResponseOverdue(s0, now) {
        OverdueEnds(s0);
        FailedFair(s, OverdueFail(s0), x);
      } else if AnyOverdue(s.up.writes, now) {
        FailureEnds(s0);
        FailedFair(s, FailEpoch(s0), x);
      } else {
        TickedKeeps(s0);
        TickedIdles(s0);
        IdleThenSchedule(s, Ticked(s0), now, x);
      }
    }
  }

  lemma WriteFailedFair(s: State, id: int, epoch: int, now: Time, x: int)
    requires Inv(s) && s.now <= now && Eager(s, x)
    ensures var r := OnWriteFailed(s, id, epoch, now);
            Stuck(s, r, x) ==> Toll(r, x) <= Toll(s, x) && Eager(r, x)
  {
    hide Core, Schedule, Remove, FailEpoch, Toll, Stuck, Eager;
    if epoch == s.epoch && !s.failed {
      if id == 0 {
        FailureEnds(s.(now := now));
        WriteFailedKeeps(s, id, epoch, now);
        FailedFair(s, FailEpoch(s.(now := now)), x);
      } else {
        LeaveFair(s, id, now, x);
      }
    }
  }

  lemma FailFair(s: State, x: int)
    requires Inv(s)
    ensures !Stuck(s, FailEpoch(s), x)
  {
    hide Core, FailEpoch, Stuck;
    FailAgain(s);
    FailureEnds(s);
    FailedFair(s, FailEpoch(s), x);
  }

  /** Draining happens only when everybody has gone. */
  lemma DrainFrameFair(s: State, p: Bytes, now: Time, x: int)
    requires Inv(s) && Eager(s, x)
    ensures var r := OnDrainFrame(s, p, now);
            Stuck(s, r, x) ==> Toll(r, x) <= Toll(s, x) && Eager(r, x)
  {
    hide Core, Push, PopResult, Toll, Orderly, Listens, Moves;
    CoreParts(s, false, []);
  }

  lemma ReconnectFair(s: State, key: Bytes, now: Time, x: int)
    requires Inv(s)
    ensures !Stuck(s, OnReconnect(s, key, now), x)
  {
    hide Core;
  }

  lemma StepFair(s: State, e: Event, x: int)
    requires Good(s) && Legal(s, e) && Eager(s, x)
    ensures var r := StepEvent(s, e);
            Stuck(s, r, x) ==> Toll(r, x) <= Toll(s, x) && Eager(r, x)
  {
    hide Core, Hist, OnAdmit, OnClientFrame, OnWriteDone, OnWriteFailed, OnUpstreamFrame, OnTick, OnDrainFrame,
         OnReconnect, FailEpoch, Schedule, Remove, Unused, Stuck, Eager, Toll;
    match e
    case Admit(id, slot, now) => AdmitFair(s, id, slot, now, x);
    case ClientFrame(id, p, now) => ClientFrameFair(s, id, p, now, x);
    case ClientClosed(id, now) => LeaveFair(s, id, now, x);
    case WriteDone(id, epoch, w, now) => WriteDoneFair(s, id, epoch, w, now, x);
    case WriteFailed(id, epoch, now) => WriteFailedFair(s, id, epoch, now, x);
    case UpstreamFrame(p, now) => UpstreamFrameFair(s, p, now, x);
    case Tick(now) => TickFair(s, now, x);
    case Fail => FailFair(s, x);
    case DrainFrame(p, now) => DrainFrameFair(s, p, now, x);
    case Reconnect(key, now) => ReconnectFair(s, key, now, x);
  }

  /** Along the whole run `x` goes on waiting. */
  ghost predicate StuckThroughout(s: State, es: seq<Event>, x: int)
    decreases |es|
  {
    es == [] || (Stuck(s, StepEvent(s, es[0]), x) && StuckThroughout(StepEvent(s, es[0]), es[1..], x))
  }

  lemma {:induction false} TollNeverRises(s: State, es: seq<Event>, x: int)
    requires Good(s) && LegalRun(s, es) && Eager(s, x) && StuckThroughout(s, es, x)
    ensures Toll(Run(s, es), x) <= Toll(s, x)
    decreases |es|
  {
    hide Good, StepEvent, Legal, Stuck, Eager, Toll;
    if es != [] {
      StepStaysGood(s, es[0]);
      StepFair(s, es[0], x);
      TollNeverRises(StepEvent(s, es[0]), es[1..], x);
    }
  }

  /** While a live session waits with a command at the head of its queue, or the inbox consumer with a
      drain requested, fewer transactions are dispatched than the scheduling order had members when
      the wait began. */
  lemma BypassIsBounded(s: State, es: seq<Event>, x: int)
    requires Good(s) && LegalRun(s, es) && Eager(s, x) && StuckThroughout(s, es, x)
    ensures |Served(Run(s, es).up.wire)| - |Served(s.up.wire)| <= Rank(s.order, x) < |s.order|
  {
    hide Core, Hist, Served, Rank;
    CoreParts(s, false, []);
    TollNeverRises(s, es, x);
    RankIsBounded(s.order, x);
  }

  // ----- Waiting syncs -----

  /** Along the whole run, and when it ends, the sync of that session waits and no pop is in flight. */
  ghost predicate UnpoppedThroughout(s: State, es: seq<Event>, id: int)
    decreases |es|
  {
    && id in s.sessions && s.sessions[id].sync.Some? && !PopInFlight(s.up.active)
    && (es == [] || UnpoppedThroughout(StepEvent(s, es[0]), es[1..], id))
  }

  lemma WaitingWantsDrain(s: State, id: int)
    requires Good(s) && id in s.sessions && s.sessions[id].sync.Some? && !PopInFlight(s.up.active)
    ensures Stuck(s, s, 0)
  {
    hide Core, Hist, HeardBut;
    CoreParts(s, false, []);
    CoreSession(s, id, false, []);
  }

  lemma {:induction false} WaitingIsStuck(s: State, es: seq<Event>, id: int)
    requires Good(s) && LegalRun(s, es) && UnpoppedThroughout(s, es, id)
    ensures StuckThroughout(s, es, 0)
    decreases |es|
  {
    hide Good, StepEvent, Legal;
    if es != [] {
      var r := StepEvent(s, es[0]);
      StepStaysGood(s, es[0]);
      WaitingWantsDrain(r, id);
      WaitingIsStuck(r, es[1..], id);
    }
  }

  /** A waiting sync sees a pop before the companion has been given to others as often as the
      scheduling order has members. */
  lemma WaitingSyncIsServed(s: State, es: seq<Event>, id: int)
    requires Good(s) && LegalRun(s, es) && UnpoppedThroughout(s, es, id)
    ensures |Served(Run(s, es).up.wire)| - |Served(s.up.wire)| <= Rank(s.order, 0) < |s.order|
  {
    hide Inv, Hist, HeardBut, Working, Wakeful, StepEvent, Legal, Served, Rank, UnpoppedThroughout, StuckThroughout;
    WaitingIsStuck(s, es, id);
    BypassIsBounded(s, es, 0);
  }
}
