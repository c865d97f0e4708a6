/**
 Exactly when the mirror is safe. The rotation of `AckWorld` is what runs in time keep. Here is the
 weakest condition: while it holds nothing live is overwritten, and when it fails something can be.
 */
module AckExact {
  import opened Wire
  import opened AckRing
  import opened AckWorld

  // ----- The weakest condition -----

  /** The insertion, counted from one, that overwrites that place. */
  ghost function Gap(w: World, j: int): nat {
    (j - w.table.cursor) % CAPACITY + 1
  }

  /** How many places the mux has to write before that insertion is over: all that are pending, while a
      quarantine keeps the cursor uncertain. */
  ghost function Reach(w: World, j: int): nat {
    if w.mux.cursorUncertain then CAPACITY else Gap(w, j) + (if Unmirrored(w) then 1 else 0)
  }

  ghost function Upcoming(m: Radio, k: nat): Option<Entry>
    requires RadioOk(m)
  {
    m.ring.slots[(m.ring.next + k) % CAPACITY]
  }

  /** The mux cannot get there in time: the quarantine lasts as long as the entry, or a pending mirrored
      entry that stands in for it is in the way. */
  ghost predicate Watched(w: World, j: int)
    requires WorldOk(w) && 0 <= j < CAPACITY && w.table.cells[j].Some?
  {
    || (w.mux.until.Some? && w.table.cells[j].value.dies <= w.mux.until.value)
    || exists k: nat | k < Reach(w, j) :: Covers(Upcoming(w.mux, k), w.table.cells[j], w.now)
  }

  /** The entry of the message in flight, which its reply is going to mirror. */
  ghost predicate Excused(w: World, j: int)
    requires WorldOk(w) && 0 <= j < CAPACITY && w.table.cells[j].Some?
  {
    && Unmirrored(w) && j == Newest(w)
    && w.table.cells[j].value.token == w.flight.token && w.table.cells[j].value.dies <= w.flight.dies
  }

  ghost predicate Guarded(w: World)
    requires WorldOk(w)
  {
    forall j | 0 <= j < CAPACITY && Live(w.table.cells[j], w.now) :: Watched(w, j) || Excused(w, j)
  }

  /** A handler that runs within the quarantine of its message overwrites nothing. */
  ghost predicate Vacant(w: World)
    requires WorldOk(w)
  {
    (exists n :: 0 <= n < |w.lost| && w.now < w.lost[n]) ==> !Live(w.table.cells[w.table.cursor], w.now)
  }

  /** What holds of mux and companion together whatever happens: only the last lost message can still be
      in its quarantine, and the cursor is uncertain as long as it is. */
  ghost predicate Coherent(w: World) {
    && WorldOk(w)
    && (!w.flight.Idle? ==> w.mux.until.None? && FreeSlot(w.mux.ring, w.now))
    && (forall n | 0 <= n < |w.lost| && w.now < w.lost[n] ::
          n == |w.lost| - 1 && w.mux.cursorUncertain && w.lost[n] <= w.mux.until.value)
  }

  ghost predicate Secure(w: World) {
    Coherent(w) && !w.harmed && Guarded(w) && Vacant(w)
  }

  /** What a loss, or the run of a handler that outlived its connection, must leave behind. All that it
      speaks about is there when it happens. */
  ghost predicate Spares(w: World, e: Event, u: Time)
    requires WorldOk(w)
  {
    && (e.Do? && e.call.Lost? && e.call.dm ==> !Exposed(w, e.call.now, u))
    && (e.ExecuteLate? && e.token != 0 ==>
          && !Live(w.table.cells[w.table.cursor], w.now)
          && Guarded(Step(w, e, u)) && Vacant(Step(w, e, u)))
  }

  lemma CoherentIsOk(w: World)
    requires Coherent(w)
    ensures WorldOk(w)
  {
  }

  lemma SecureIsUnharmed(w: World)
    requires Secure(w)
    ensures WorldOk(w) && !w.harmed
  {
  }

  // ----- It is kept -----

  lemma AdvanceSecure(w: World, to: Time)
    requires Secure(w) && w.now <= to
    ensures Secure(w.(now := to))
  {
    var w' := w.(now := to);
    forall j | 0 <= j < CAPACITY && Live(w'.table.cells[j], to)
      ensures Watched(w', j) || Excused(w', j)
    {
      if Watched(w, j) && !(w.mux.until.Some? && w.table.cells[j].value.dies <= w.mux.until.value) {
        var k: nat :| k < Reach(w, j) && Covers(Upcoming(w.mux, k), w.table.cells[j], w.now);
        assert k < Reach(w', j) && Covers(Upcoming(w'.mux, k), w'.table.cells[j], to);
      }
    }
  }

  /** Lifting a quarantine: what it did not outlast is mirrored within reach. */
  lemma CheckSecure(w: World, t: Time, u: Time)
    requires Secure(w) && w.flight.Idle? && t <= w.now
    ensures Secure(Step(w, Do(Checked(t)), u))
  {
    var w' := Step(w, Do(Checked(t)), u);
    if !Quarantined(w.mux, t) {
      forall j | 0 <= j < CAPACITY && Live(w'.table.cells[j], w.now)
        ensures Watched(w', j)
      {
        var k: nat :| k < Reach(w, j) && Covers(Upcoming(w.mux, k), w.table.cells[j], w.now);
        if !w.mux.cursorUncertain {
          assert k < Reach(w', j) && Covers(Upcoming(w'.mux, k), w'.table.cells[j], w.now);
        }
      }
    }
  }

  /** Whether the mux or the companion moved, the entries but for `skip` keep their guards. */
  lemma SameGuards(w: World, w': World, skip: int)
    requires WorldOk(w) && WorldOk(w') && Guarded(w) && w'.mux.ring == w.mux.ring && w'.now == w.now
    requires w'.mux.until == w.mux.until && w'.mux.cursorUncertain == w.mux.cursorUncertain
    requires forall j | 0 <= j < CAPACITY && j != skip ::
               w'.table.cells[j] == w.table.cells[j] && (w.table.cells[j].Some? ==> Reach(w, j) <= Reach(w', j))
    requires forall j | 0 <= j < CAPACITY && j != skip && Live(w.table.cells[j], w.now) && Excused(w, j) ::
               Watched(w', j) || Excused(w', j)
    ensures forall j | 0 <= j < CAPACITY && j != skip && Live(w'.table.cells[j], w.now) ::
              Watched(w', j) || Excused(w', j)
  {
    hide Excused, Reach;
    forall j | 0 <= j < CAPACITY && j != skip && Live(w'.table.cells[j], w.now)
      ensures Watched(w', j) || Excused(w', j)
    {
      if Watched(w, j) && !(w.mux.until.Some? && w.table.cells[j].value.dies <= w.mux.until.value) {
        var k: nat :| k < Reach(w, j) && Covers(Upcoming(w.mux, k), w.table.cells[j], w.now);
        assert k < Reach(w', j) && Covers(Upcoming(w'.mux, k), w'.table.cells[j], w.now);
      }
    }
  }

  lemma SameReach(w: World, w': World, j: int)
    requires w'.table.cursor == w.table.cursor && w'.mux.cursorUncertain == w.mux.cursorUncertain
    requires w'.flight == w.flight
    ensures Reach(w', j) == Reach(w, j)
  {
  }

  lemma GapShrinks(w: World, w': World, j: int)
    requires WorldOk(w) && 0 <= j < CAPACITY && j != w.table.cursor
    requires w'.table.cursor == (w.table.cursor + 1) % CAPACITY
    ensures Gap(w', j) == Gap(w, j) - 1
  {
  }

  lemma CursorGap(w: World)
    requires WorldOk(w)
    ensures Gap(w, w.table.cursor) == 1
    ensures Newest(w) != w.table.cursor && 0 <= Newest(w) < CAPACITY && Gap(w, Newest(w)) == CAPACITY
    ensures forall j | 0 <= j < CAPACITY && j != Newest(w) :: Gap(w, j) < CAPACITY
  {
  }

  lemma NextBack(w: World)
    requires WorldOk(w)
    ensures ((w.table.cursor + 1) % CAPACITY - 1) % CAPACITY == w.table.cursor
  {
  }

  /** The place the companion writes next is free when the mux may launch. */
  lemma NothingLiveAtCursor(w: World)
    requires Coherent(w) && Guarded(w) && w.flight.Sent?
    ensures !Live(w.table.cells[w.table.cursor], w.now)
  {
    CursorGap(w);
    assert !Pending(Upcoming(w.mux, 0), w.now);
  }

  lemma ExecuteSecure(w: World, token: nat, dies: Time, u: Time)
    requires Secure(w) && w.flight.Sent?
    ensures Secure(Step(w, Execute(token, dies), u))
  {
    var w' := Step(w, Execute(token, dies), u);
    NothingLiveAtCursor(w);
    if token != 0 {
      NextBack(w);
      CursorGap(w');
      forall j | 0 <= j < CAPACITY && j != w.table.cursor
        ensures Reach(w, j) <= Reach(w', j)
      {
        GapShrinks(w, w', j);
      }
      SameGuards(w, w', w.table.cursor);
      assert Excused(w', w.table.cursor);
    } else {
      SameGuards(w, w', -1);
    }
  }

  lemma FreeCoversNothing(w: World, j: int)
    requires WorldOk(w) && FreeSlot(w.mux.ring, w.now) && 0 <= j < CAPACITY && Live(w.table.cells[j], w.now)
    ensures !Covers(Upcoming(w.mux, 0), w.table.cells[j], w.now)
  {
    assert !Pending(Upcoming(w.mux, 0), w.now);
  }

  /** Mirroring the executed message moves the mux one place on. */
  lemma AcceptedUpcoming(w: World, c: Call, u: Time, k: nat)
    requires WorldOk(w) && c.Accepted? && c.token != 0 && 0 < k < CAPACITY
    ensures Upcoming(Step(w, Do(c), u).mux, k - 1) == Upcoming(w.mux, k)
    ensures Upcoming(Step(w, Do(c), u).mux, 7) == Some(Entry(c.token, RetainedDeadline(c.now, c.timeout), false))
  {
    hide RetainedDeadline;
    LastUpcoming(w.mux.ring.next);
    StillUpcoming(w.mux.ring.next, k);
  }

  /** The entry of the message is watched by its mirrored one from now on, and no other is lost sight of. */
  lemma AcceptedWatches(w: World, c: Call, u: Time, j: int)
    requires Secure(w) && c.Accepted? && c.token != 0 && Legal(w, Do(c), u)
    requires 0 <= j < CAPACITY && Live(w.table.cells[j], w.now)
    ensures Watched(Step(w, Do(c), u), j)
  {
    hide RetainedDeadline, Insert;
    var w' := Step(w, Do(c), u);
    CursorGap(w);
    if Excused(w, j) {
      AcceptedUpcoming(w, c, u, 7);
      assert Covers(Upcoming(w'.mux, 7), w'.table.cells[j], w.now);
    } else {
      FreeCoversNothing(w, j);
      hide Covers;
      var k: nat :| k < Reach(w, j) && Covers(Upcoming(w.mux, k), w.table.cells[j], w.now);
      assert k != CAPACITY by { UpcomingRounds(w.mux); }
      AcceptedUpcoming(w, c, u, k);
      assert Covers(Upcoming(w'.mux, k - 1), w'.table.cells[j], w.now);
    }
  }

  lemma UpcomingRounds(m: Radio)
    requires RadioOk(m)
    ensures Upcoming(m, CAPACITY) == Upcoming(m, 0)
  {
  }

  /** The flight is over, and it had not been inserted. */
  lemma UnmirroredSettles(w: World, w': World)
    requires WorldOk(w) && Guarded(w) && !Unmirrored(w) && w' == w.(flight := Idle)
    ensures Guarded(w')
  {
    SameGuards(w, w', -1);
  }

  lemma AcceptedSecure(w: World, c: Call, u: Time)
    requires Secure(w) && c.Accepted? && Legal(w, Do(c), u)
    ensures Secure(Step(w, Do(c), u))
  {
    hide RetainedDeadline, Watched, Excused;
    var w' := Step(w, Do(c), u);
    if c.token == 0 {
      UnmirroredSettles(w, w');
    } else {
      forall j | 0 <= j < CAPACITY && Live(w'.table.cells[j], w.now)
        ensures Watched(w', j)
      {
        AcceptedWatches(w, c, u, j);
      }
    }
  }

  lemma LastUpcoming(next: nat)
    requires next < CAPACITY
    ensures ((next + 1) % CAPACITY + 7) % CAPACITY == next
  {
  }

  lemma StillUpcoming(next: nat, k: nat)
    requires next < CAPACITY && k <= CAPACITY
    ensures (next + k) % CAPACITY == next <==> k == 0 || k == CAPACITY
    ensures k > 0 ==> ((next + 1) % CAPACITY + (k - 1)) % CAPACITY == (next + k) % CAPACITY
  {
  }

  lemma StillCovers(m: Option<Entry>, c: Option<Cell>, token: nat, now: Time)
    requires Covers(m, c, now) && (c.Some? ==> c.value.token != token)
    ensures Covers(SettleEntry(m, token), c, now)
  {
  }

  lemma SettledUpcoming(m: Radio, token: nat, k: nat)
    requires RadioOk(m)
    ensures Upcoming(m.(ring := Settle(m.ring, token)), k) == SettleEntry(Upcoming(m, k), token)
  {
  }

  lemma ConfirmSecure(w: World, token: nat, u: Time)
    requires Secure(w)
    ensures Secure(Step(w, Do(Confirmed(token)), u))
  {
    var w' := Step(w, Do(Confirmed(token)), u);
    forall j | 0 <= j < CAPACITY && Live(w'.table.cells[j], w.now)
      ensures Watched(w', j) || Excused(w', j)
    {
      assert w'.table.cells[j] == w.table.cells[j] && w.table.cells[j].value.token != token;
      hide Covers, Reach, Excused, Settle;
      if Watched(w, j) && !(w.mux.until.Some? && w.table.cells[j].value.dies <= w.mux.until.value) {
        var k: nat :| k < Reach(w, j) && Covers(Upcoming(w.mux, k), w.table.cells[j], w.now);
        assert Reach(w', j) == Reach(w, j) by { SameReach(w, w', j); }
        StillCovers(Upcoming(w.mux, k), w.table.cells[j], token, w.now);
        SettledUpcoming(w.mux, token, k);
        assert k < Reach(w', j) && Covers(Upcoming(w'.mux, k), w'.table.cells[j], w.now);
      }
    }
  }

  lemma InRange(next: nat, i: int)
    requires next < CAPACITY && 0 <= i < CAPACITY
    ensures var k := (i - next) % CAPACITY; 0 <= k < CAPACITY && (next + k) % CAPACITY == i
  {
  }

  /** A lost message leaves a secure world exactly if it left no exposed entry. */
  lemma LossSecure(w: World, seen: Time, u: Time)
    requires Secure(w) && !w.flight.Idle? && seen <= w.now
    ensures Secure(Step(w, Do(Lost(seen, true)), u)) <==> !Exposed(w, seen, u)
    ensures Coherent(Step(w, Do(Lost(seen, true)), u)) && !Step(w, Do(Lost(seen, true)), u).harmed
  {
    var w' := Step(w, Do(Lost(seen, true)), u);
    CursorGap(w);
    if w.flight.Sent? {
      NothingLiveAtCursor(w);
    }
    forall j | 0 <= j < CAPACITY && Live(w'.table.cells[j], w.now) && !Excused(w, j)
      ensures Watched(w', j)
    {
      var k: nat :| k < Reach(w, j) && Covers(Upcoming(w.mux, k), w.table.cells[j], w.now);
      var k' := if k < CAPACITY then k else k - CAPACITY;
      assert Upcoming(w'.mux, k') == Upcoming(w.mux, k);
      assert Covers(Upcoming(w'.mux, k'), w'.table.cells[j], w.now);
    }
    var j := Newest(w);
    if Unmirrored(w) && Live(w.table.cells[j], w.now) {
      SomewhereIsWatched(w, w', j);
      if !Excused(w, j) {
        assert Watched(w', j);
      }
    }
  }

  lemma SomewhereIsWatched(w: World, w': World, j: int)
    requires WorldOk(w) && WorldOk(w') && 0 <= j < CAPACITY && w'.mux.cursorUncertain && Live(w.table.cells[j], w.now)
    requires w'.mux.ring == w.mux.ring && w'.table == w.table && w'.now == w.now
    ensures Watched(w', j) <==> w.table.cells[j].value.dies <= w'.mux.until.value || CoveredSomewhere(w, j)
  {
    if i :| 0 <= i < CAPACITY && Covers(w.mux.ring.slots[i], w.table.cells[j], w.now) {
      InRange(w.mux.ring.next, i);
      var k := (i - w.mux.ring.next) % CAPACITY;
      assert Covers(Upcoming(w'.mux, k), w'.table.cells[j], w.now);
    }
  }

  /** Other radio work lost with its connection only prolongs a quarantine. */
  lemma OtherLossSecure(w: World, seen: Time, u: Time)
    requires Secure(w) && w.flight.Idle?
    ensures Secure(Step(w, Do(Lost(seen, false)), u))
  {
    hide Covers, Reach, Upcoming, Excused, Quarantine;
    var w' := Step(w, Do(Lost(seen, false)), u);
    LongerQuarantine(w, seen, u);
    forall j | 0 <= j < CAPACITY && Live(w'.table.cells[j], w.now)
      ensures Watched(w', j)
    {
      assert Watched(w, j) by { IdleExcusesNothing(w, j); }
      if !(w.mux.until.Some? && w.table.cells[j].value.dies <= w.mux.until.value) {
        var k: nat :| k < Reach(w, j) && Covers(Upcoming(w.mux, k), w.table.cells[j], w.now);
        SameReach(w, w', j);
        assert k < Reach(w', j) && Covers(Upcoming(w'.mux, k), w'.table.cells[j], w.now);
      }
    }
  }

  lemma LongerQuarantine(w: World, seen: Time, u: Time)
    requires WorldOk(w) && w.flight.Idle?
    ensures var w' := Step(w, Do(Lost(seen, false)), u);
            && w' == w.(mux := w'.mux) && w'.mux.ring == w.mux.ring && w'.mux.cursorUncertain == w.mux.cursorUncertain
            && w'.mux.until.Some? && (w.mux.until.Some? ==> w.mux.until.value <= w'.mux.until.value)
            && forall k: nat :: Upcoming(w'.mux, k) == Upcoming(w.mux, k)
  {
  }

  lemma IdleExcusesNothing(w: World, j: int)
    requires Secure(w) && w.flight.Idle? && 0 <= j < CAPACITY && Live(w.table.cells[j], w.now)
    ensures Watched(w, j)
  {
    hide Watched, Covers;
  }

  /** A late execution leaves a secure world exactly if it spares what is live. */
  lemma LateSecure(w: World, n: nat, token: nat, dies: Time, u: Time)
    requires Secure(w) && n < |w.lost|
    ensures var e := ExecuteLate(n, token, dies);
            Coherent(Step(w, e, u)) && (Secure(Step(w, e, u)) <==> Spares(w, e, u))
  {
    var w' := Step(w, ExecuteLate(n, token, dies), u);
    assert forall k | 0 <= k < |w'.lost| :: w'.lost[k] == w.lost[if k < n then k else k + 1];
    if token == 0 {
      SameGuards(w, w', -1);
    }
  }

  /** Every call in order and every physical event that spares what is live keeps a world secure. */
  lemma StepStaysSecure(w: World, e: Event, u: Time)
    requires Secure(w) && Legal(w, e, u) && InOrder(w, e) && Spares(w, e, u)
    ensures Secure(Step(w, e, u))
  {
    match e
    case Advance(to) => AdvanceSecure(w, to);
    case Execute(token, dies) => ExecuteSecure(w, token, dies, u);
    case ExecuteLate(n, token, dies) => LateSecure(w, n, token, dies, u);
    case Do(c) =>
      match c
      case Checked(t) => CheckSecure(w, t, u);
      case Launched(t) => SameGuards(w, Step(w, e, u), -1);
      case Accepted(_, _, _) => AcceptedSecure(w, c, u);
      case Refused => SameGuards(w, Step(w, e, u), -1);
      case Confirmed(token) => ConfirmSecure(w, token, u);
      case Lost(seen, dm) =>
        if dm {
          LossSecure(w, seen, u);
        } else {
          OtherLossSecure(w, seen, u);
        }
  }

  // ----- Whole runs -----

  /** The late handler runs within the quarantine of its message, and so does its entry. */
  lemma LateInTimeSpares(w: World, n: nat, token: nat, dies: Time, u: Time)
    requires Secure(w) && n < |w.lost| && w.now < w.lost[n] && token != 0
    ensures var w' := Step(w, ExecuteLate(n, token, dies), u);
            Spares(w, ExecuteLate(n, token, dies), u) <==>
              dies <= w.now || dies <= w.mux.until.value || CoveredSomewhere(w', w.table.cursor)
  {
    var w' := Step(w, ExecuteLate(n, token, dies), u);
    assert forall k | 0 <= k < |w'.lost| :: w'.lost[k] == w.lost[if k < n then k else k + 1];
    SameGuards(w, w', w.table.cursor);
    if w.now < dies {
      SomewhereIsWatched(w', w', w.table.cursor);
    }
  }

  lemma TimelySpares(w: World, e: Event, u: Time)
    requires Secure(w) && Legal(w, e, u) && InOrder(w, e) && Timely(w, e, u)
    ensures Spares(w, e, u)
  {
    if e.ExecuteLate? && e.token != 0 {
      LateInTimeSpares(w, e.n, e.token, e.dies, u);
    }
  }

  /** A loss or a late execution that comes in time, or that spares what is live anyway. */
  ghost predicate Benign(w: World, e: Event, u: Time)
    requires WorldOk(w)
  {
    Timely(w, e, u) || Spares(w, e, u)
  }

  ghost predicate AllBenign(w: World, es: seq<Event>, u: Time)
    requires WorldOk(w)
    decreases |es|
  {
    es == [] || (Benign(w, es[0], u) && AllBenign(Step(w, es[0], u), es[1..], u))
  }

  lemma {:induction false} RunStaysSecure(w: World, es: seq<Event>, u: Time)
    requires Secure(w) && Possible(w, es, u) && AllBenign(w, es, u)
    ensures Secure(Run(w, es, u))
    decreases |es|
  {
    hide Secure, Coherent, Legal, InOrder, Timely, Spares, Step;
    if es != [] {
      assert WorldOk(w) by { SecureIsUnharmed(w); }
      if Timely(w, es[0], u) {
        TimelySpares(w, es[0], u);
      }
      StepStaysSecure(w, es[0], u);
      RunStaysSecure(Step(w, es[0], u), es[1..], u);
    }
  }

  lemma {:induction false} TimelyIsBenign(w: World, es: seq<Event>, u: Time)
    requires WorldOk(w) && AllTimely(w, es, u)
    ensures AllBenign(w, es, u)
    decreases |es|
  {
    hide Timely, Spares, Step;
    if es != [] {
      TimelyIsBenign(Step(w, es[0], u), es[1..], u);
    }
  }

  lemma StartIsSecure(now: Time)
    ensures Secure(Start(now))
  {
  }

  /** Whatever the companion does with the messages it gets, an orderly log of calls never makes it
      overwrite a live acknowledgement entry, as long as losses and late executions are benign. */
  lemma BenignRunsHarmNothing(start: Time, es: seq<Event>, u: Time)
    requires Feasible(Start(start), es, u) && LogOk(CallsIn(es), u) && AllBenign(Start(start), es, u)
    ensures var w := Run(Start(start), es, u);
            !w.harmed && w.mux == Replay(CallsIn(es), u) && (!w.flight.Idle? <==> InFlight(CallsIn(es)))
  {
    StartIsSecure(start);
    assert [] + CallsIn(es) == CallsIn(es);
    LogDrivesTheWorld(Start(start), [], es, u);
    RunStaysSecure(Start(start), es, u);
  }
}
