/**
 The companion's physical acknowledgement ring behind the mirror. The mux is unguarded here: its
 calls are events like any other, and that they come in order is a hypothesis.
 */
module AckWorld {
  import opened Wire
  import opened AckRing

  /** A physical entry: `dies` is when the firmware gives up on it, `acked` whether a
      confirmation carrying its token has been seen since it was inserted. */
  datatype Cell = Cell(token: nat, dies: Time, acked: bool)

  datatype Table = Table(cells: seq<Option<Cell>>, cursor: nat)

  ghost predicate TableOk(t: Table) {
    |t.cells| == CAPACITY && t.cursor < CAPACITY
  }

  ghost predicate Live(c: Option<Cell>, now: Time) {
    c.Some? && !c.value.acked && now < c.value.dies
  }

  /** A direct message the mux has launched and not yet seen answered. */
  datatype Flight =
    | Idle
    | Sent                                           // not executed by the firmware so far
    | Executed(token: nat, dies: Time, at: Time)     // executed, its reply not seen so far

  /** Mux and companion together. `lost` are the messages whose connection failed before the firmware
      executed them, as the bounds of their quarantines. `harmed` records that some insertion overwrote
      a live physical entry. */
  datatype World = World(mux: Radio, table: Table, flight: Flight, lost: seq<Time>, now: Time, harmed: bool)

  datatype Event =
    | Advance(to: Time)
    | Do(call: Call)                                  // the mux acts on its mirror
    | Execute(token: nat, dies: Time)                 // the firmware runs the message in flight
    | ExecuteLate(n: nat, token: nat, dies: Time)     // a handler that outlived its connection runs

  /** The clock reading a call acts on, if any; it may be older than the present. */
  predicate ReadBy(c: Call, now: Time) {
    match c
    case Checked(t) => t <= now
    case Launched(t) => t <= now
    case Accepted(_, _, t) => t <= now
    case Lost(t, _) => t <= now
    case _ => true
  }

  /** What can happen. A SENT reply belongs to an executed message whose entry is given up within the
      retained deadline of that reply; an ERR reply to one that was not executed; and an entry whose
      reply is never seen lives at most the uncertainty timeout from its insertion. */
  ghost predicate Legal(w: World, e: Event, u: Time) {
    match e
    case Advance(to) => w.now <= to
    case Do(c) =>
      && ReadBy(c, w.now)
      && (c.Accepted? ==>
            w.flight.Executed? && w.flight.token == c.token && w.flight.dies <= RetainedDeadline(c.now, c.timeout))
      && (c.Refused? ==> w.flight.Sent?)
      && (c.Lost? && w.flight.Executed? ==> w.flight.dies <= w.flight.at + u)
    case Execute(token, dies) => w.flight.Sent?
    case ExecuteLate(n, token, dies) => n < |w.lost| && dies <= w.now + u
  }

  ghost function Put(t: Table, token: nat, dies: Time): (t': Table)
    requires TableOk(t)
    ensures TableOk(t')
  {
    if token == 0 then t
    else Table(t.cells[t.cursor := Some(Cell(token, dies, false))], (t.cursor + 1) % CAPACITY)
  }

  ghost predicate Overwrites(t: Table, token: nat, now: Time)
    requires TableOk(t)
  {
    token != 0 && Live(t.cells[t.cursor], now)
  }

  ghost function Ack(c: Option<Cell>, token: nat): Option<Cell> {
    if c.Some? && c.value.token == token then Some(c.value.(acked := true)) else c
  }

  ghost function AckAll(t: Table, token: nat): (t': Table)
    requires TableOk(t)
    ensures TableOk(t')
  {
    Table(seq(CAPACITY, i requires 0 <= i < CAPACITY => Ack(t.cells[i], token)), t.cursor)
  }

  ghost function EmptyTable(): (t: Table)
    ensures TableOk(t) && forall i | 0 <= i < CAPACITY :: t.cells[i].None?
  {
    Table([None, None, None, None, None, None, None, None], 0)
  }

  ghost function Start(now: Time): World {
    World(FreshRadio(), EmptyTable(), Idle, [], now, false)
  }

  ghost predicate WorldOk(w: World) {
    RadioOk(w.mux) && TableOk(w.table)
  }

  ghost function FlightAfter(f: Flight, c: Call): Flight {
    if c.Launched? then Sent else if c.Accepted? || c.Refused? || c.Lost? then Idle else f
  }

  ghost function Dropped(q: seq<Time>, n: nat): seq<Time> {
    if n < |q| then q[..n] + q[n + 1..] else q
  }

  ghost function Step(w: World, e: Event, u: Time): (w': World)
    requires WorldOk(w)
    ensures WorldOk(w')
  {
    match e
    case Advance(to) => w.(now := to)
    case Do(c) =>
      w.(mux := Apply(w.mux, c, u), flight := FlightAfter(w.flight, c),
         table := if c.Confirmed? then AckAll(w.table, c.token) else w.table,
         lost := if c.Lost? && w.flight.Sent? then w.lost + [c.now + u] else w.lost)
    case Execute(token, dies) =>
      w.(table := Put(w.table, token, dies), flight := Executed(token, dies, w.now),
         harmed := w.harmed || Overwrites(w.table, token, w.now))
    case ExecuteLate(n, token, dies) =>
      w.(table := Put(w.table, token, dies), lost := Dropped(w.lost, n),
         harmed := w.harmed || Overwrites(w.table, token, w.now))
  }

  /** The calls come in order: launches one at a time, with no quarantine left and into a free slot. */
  ghost predicate InOrder(w: World, e: Event) {
    e.Do? ==> CallOk(w.mux, !w.flight.Idle?, e.call)
  }

  /** An entry whose reply is lost dies within the uncertainty timeout of the last clock reading before
      the loss; for this it is enough that the clock was read at or after the execution. A handler that
      outlives its connection runs within the quarantine, and its entry dies within it. */
  ghost predicate Timely(w: World, e: Event, u: Time) {
    && (e.Do? && e.call.Lost? && w.flight.Executed? && w.flight.token != 0 ==> w.flight.dies <= e.call.now + u)
    && (e.ExecuteLate? && e.token != 0 && e.n < |w.lost| ==> w.now < w.lost[e.n] && e.dies <= w.lost[e.n])
  }

  lemma ReadingAfterExecutionIsTimely(w: World, seen: Time, u: Time)
    requires Legal(w, Do(Lost(seen, true)), u) && w.flight.Executed? && w.flight.at <= seen
    ensures Timely(w, Do(Lost(seen, true)), u)
  {
  }

  // ----- The inductive invariant -----

  /** A live physical entry `c` is accounted for by the mirrored entry `m`. */
  ghost predicate Covers(m: Option<Entry>, c: Option<Cell>, now: Time) {
    Live(c, now) ==>
      m.Some? && !m.value.settled && m.value.token == c.value.token && c.value.dies <= m.value.deadline
  }

  /** Mirror index `i` stands for physical index `i + turn` around the ring. */
  ghost function At(i: int, turn: int): int {
    (i + turn) % CAPACITY
  }

  /** The message in flight has been inserted physically but not mirrored so far. */
  ghost predicate Unmirrored(w: World) {
    w.flight.Executed? && w.flight.token != 0
  }

  ghost predicate AlignedBy(w: World, turn: int)
    requires WorldOk(w)
  {
    && w.table.cursor == At(w.mux.ring.next + (if Unmirrored(w) then 1 else 0), turn)
    && (forall i | 0 <= i < CAPACITY ::
          (Unmirrored(w) && i == w.mux.ring.next) || Covers(w.mux.ring.slots[i], w.table.cells[At(i, turn)], w.now))
    && (Unmirrored(w) ==>
          var c := w.table.cells[At(w.mux.ring.next, turn)];
          c.Some? && c.value.token == w.flight.token && c.value.dies == w.flight.dies)
  }

  ghost predicate Aligned(w: World)
    requires WorldOk(w)
  {
    exists turn | 0 <= turn < CAPACITY :: AlignedBy(w, turn)
  }

  ghost predicate CoveredSomewhere(w: World, j: int)
    requires WorldOk(w) && 0 <= j < CAPACITY
  {
    exists i | 0 <= i < CAPACITY :: Covers(w.mux.ring.slots[i], w.table.cells[j], w.now)
  }

  /** While the cursor is uncertain every live physical entry is mirrored somewhere, or dies
      before the quarantine may end. */
  ghost predicate Fenced(w: World)
    requires WorldOk(w)
  {
    && w.flight.Idle?
    && w.mux.until.Some?
    && (forall j | 0 <= j < CAPACITY && Live(w.table.cells[j], w.now) ::
          w.table.cells[j].value.dies <= w.mux.until.value || CoveredSomewhere(w, j))
    && (forall n | 0 <= n < |w.lost| && w.now < w.lost[n] ::
          && n == |w.lost| - 1 && w.lost[n] <= w.mux.until.value
          && !Live(w.table.cells[w.table.cursor], w.now))
  }

  ghost predicate Safe(w: World) {
    && WorldOk(w)
    && !w.harmed
    && (if w.mux.cursorUncertain then Fenced(w)
        else Aligned(w) && forall n | 0 <= n < |w.lost| :: w.lost[n] <= w.now)
    && (!w.flight.Idle? ==> !w.mux.cursorUncertain && w.mux.until.None? && FreeSlot(w.mux.ring, w.now))
  }

  lemma StartIsSafe(now: Time)
    ensures Safe(Start(now))
  {
    assert AlignedBy(Start(now), 0);
  }

  lemma AdvanceKeepsSafe(w: World, to: Time)
    requires Safe(w) && w.now <= to
    ensures Safe(w.(now := to))
  {
    var w' := w.(now := to);
    if !w.mux.cursorUncertain {
      var turn :| 0 <= turn < CAPACITY && AlignedBy(w, turn);
      assert AlignedBy(w', turn);
    } else {
      forall j | 0 <= j < CAPACITY && Live(w'.table.cells[j], to)
        ensures w'.table.cells[j].value.dies <= w'.mux.until.value || CoveredSomewhere(w', j)
      {
        if w.table.cells[j].value.dies > w.mux.until.value {
          assert CoveredSomewhere(w, j);
          var i :| 0 <= i < CAPACITY && Covers(w.mux.ring.slots[i], w.table.cells[j], w.now);
          assert Covers(w'.mux.ring.slots[i], w'.table.cells[j], to);
        }
      }
    }
  }

  /** Lifting a quarantine: nothing is live any more, so any cursor position will do. */
  lemma CheckKeepsSafe(w: World, t: Time, u: Time)
    requires Safe(w) && w.flight.Idle? && t <= w.now
    ensures Safe(Step(w, Do(Checked(t)), u))
  {
    var w' := Step(w, Do(Checked(t)), u);
    if Quarantined(w.mux, t) {
    } else if w.mux.cursorUncertain {
      forall j | 0 <= j < CAPACITY
        ensures !Live(w.table.cells[j], w.now)
      {
        if Live(w.table.cells[j], w.now) {
          var i :| 0 <= i < CAPACITY && Covers(w.mux.ring.slots[i], w.table.cells[j], w.now);
          assert Pending(w.mux.ring.slots[i], t);
        }
      }
      var turn := (w.table.cursor - w.mux.ring.next) % CAPACITY;
      assert At(w.mux.ring.next, turn) == w.table.cursor;
      assert AlignedBy(w', turn);
    } else {
      var turn :| 0 <= turn < CAPACITY && AlignedBy(w, turn);
      assert AlignedBy(w', turn);
    }
  }

  lemma TurnsApart(i: int, k: int, turn: int)
    requires 0 <= i < CAPACITY && 0 <= k < CAPACITY && i != k
    ensures At(i, turn) != At(k, turn)
  {
  }

  lemma AroundTheRing(i: int, turn: int)
    ensures At(i + 1, turn) == (At(i, turn) + 1) % CAPACITY
  {
  }

  lemma TurnBack(j: int, turn: int) returns (i: int)
    requires 0 <= j < CAPACITY
    ensures 0 <= i < CAPACITY && At(i, turn) == j
  {
    i := (j - turn) % CAPACITY;
  }

  lemma ExecuteKeepsSafe(w: World, token: nat, dies: Time, u: Time)
    requires Safe(w) && w.flight.Sent?
    ensures Safe(Step(w, Execute(token, dies), u))
  {
    var w' := Step(w, Execute(token, dies), u);
    var turn :| 0 <= turn < CAPACITY && AlignedBy(w, turn);
    var next := w.mux.ring.next;
    assert w.table.cursor == At(next, turn);
    assert Covers(w.mux.ring.slots[next], w.table.cells[At(next, turn)], w.now);
    AroundTheRing(next, turn);
    forall i | 0 <= i < CAPACITY && i != next
      ensures At(i, turn) != w.table.cursor
    {
      TurnsApart(i, next, turn);
    }
    assert AlignedBy(w', turn);
  }

  lemma NextAt(next: int, turn: int)
    ensures At((next + 1) % CAPACITY, turn) == At(next + 1, turn)
  {
  }

  lemma InRing(turn: int)
    ensures forall i :: 0 <= At(i, turn) < CAPACITY
  {
  }

  /** Mirroring the executed message closes the gap between the rings. */
  lemma MirroringAligns(w: World, timeout: nat, t: Time, u: Time, turn: int)
    requires Safe(w) && w.flight.Executed? && Legal(w, Do(Accepted(w.flight.token, timeout, t)), u)
    requires AlignedBy(w, turn)
    ensures AlignedBy(Step(w, Do(Accepted(w.flight.token, timeout, t)), u), turn)
  {
    hide Aligned, RetainedDeadline, Overwrites, At;
    var w' := Step(w, Do(Accepted(w.flight.token, timeout, t)), u);
    var next := w.mux.ring.next;
    NextAt(next, turn);
    assert forall i :: 0 <= At(i, turn) < CAPACITY by { InRing(turn); }
    forall i | 0 <= i < CAPACITY
      ensures Covers(w'.mux.ring.slots[i], w'.table.cells[At(i, turn)], w.now)
    {
      if !Unmirrored(w) || i != next {
        assert Covers(w.mux.ring.slots[i], w.table.cells[At(i, turn)], w.now);
      }
    }
  }

  lemma AcceptedKeepsSafe(w: World, c: Call, u: Time)
    requires Safe(w) && c.Accepted? && Legal(w, Do(c), u)
    ensures Safe(Step(w, Do(c), u))
  {
    var turn :| 0 <= turn < CAPACITY && AlignedBy(w, turn);
    MirroringAligns(w, c.timeout, c.now, u, turn);
  }

  lemma ConfirmKeepsSafe(w: World, token: nat, u: Time)
    requires Safe(w)
    ensures Safe(Step(w, Do(Confirmed(token)), u))
  {
    var w' := Step(w, Do(Confirmed(token)), u);
    if !w.mux.cursorUncertain {
      var turn :| 0 <= turn < CAPACITY && AlignedBy(w, turn);
      assert AlignedBy(w', turn);
    } else {
      forall j | 0 <= j < CAPACITY && Live(w'.table.cells[j], w.now)
        ensures w'.table.cells[j].value.dies <= w'.mux.until.value || CoveredSomewhere(w', j)
      {
        if w.table.cells[j].value.dies > w.mux.until.value {
          assert CoveredSomewhere(w, j);
          var i :| 0 <= i < CAPACITY && Covers(w.mux.ring.slots[i], w.table.cells[j], w.now);
          assert Covers(w'.mux.ring.slots[i], w'.table.cells[j], w.now);
        }
      }
    }
  }

  /** The last insertion of an aligned world is the one not mirrored so far, if there is one. */
  lemma NewestIsUnmirrored(w: World)
    requires WorldOk(w) && Aligned(w) && Unmirrored(w)
    ensures var c := w.table.cells[Newest(w)];
            c.Some? && c.value.token == w.flight.token && c.value.dies == w.flight.dies
  {
    hide Covers, At;
    var turn :| 0 <= turn < CAPACITY && AlignedBy(w, turn);
    NewestAt(w, turn);
  }

  lemma NewestAt(w: World, turn: int)
    requires w.table.cursor == At(w.mux.ring.next + 1, turn)
    ensures Newest(w) == At(w.mux.ring.next, turn)
  {
  }

  /** In an aligned world every live entry is mirrored, or is the one not mirrored so far. */
  lemma LiveEntryIsKnown(w: World, j: int)
    requires WorldOk(w) && Aligned(w) && 0 <= j < CAPACITY && Live(w.table.cells[j], w.now)
    ensures CoveredSomewhere(w, j) || (Unmirrored(w) && j == Newest(w))
  {
    hide At, Covers;
    var turn :| 0 <= turn < CAPACITY && AlignedBy(w, turn);
    var i := TurnBack(j, turn);
    if Unmirrored(w) && i == w.mux.ring.next {
      NewestAt(w, turn);
    } else {
      assert Covers(w.mux.ring.slots[i], w.table.cells[At(i, turn)], w.now);
    }
  }

  /** Where the last insertion went. */
  ghost function Newest(w: World): int {
    (w.table.cursor - 1) % CAPACITY
  }

  lemma CursorIsFree(w: World)
    requires WorldOk(w) && Aligned(w) && w.flight.Sent? && FreeSlot(w.mux.ring, w.now)
    ensures !Live(w.table.cells[w.table.cursor], w.now)
  {
    var turn :| 0 <= turn < CAPACITY && AlignedBy(w, turn);
    assert Covers(w.mux.ring.slots[w.mux.ring.next], w.table.cells[At(w.mux.ring.next, turn)], w.now);
  }

  /** The unseen entry of a lost message outlives the quarantine and nothing mirrors it. */
  ghost predicate Exposed(w: World, seen: Time, u: Time)
    requires WorldOk(w)
  {
    && Unmirrored(w) && Live(w.table.cells[Newest(w)], w.now) && seen + u < w.table.cells[Newest(w)].value.dies
    && !CoveredSomewhere(w, Newest(w))
  }

  /** Losing a message fences the mirror unless the message was executed and its entry is exposed. */
  lemma LosingAMessageFences(w: World, seen: Time, u: Time)
    requires Safe(w) && !w.flight.Idle? && seen <= w.now
    ensures Fenced(Step(w, Do(Lost(seen, true)), u)) <==> !Exposed(w, seen, u)
  {
    hide Aligned, AlignedBy;
    var w' := Step(w, Do(Lost(seen, true)), u);
    assert w'.mux.until == Some(seen + u);
    if w.flight.Sent? {
      CursorIsFree(w);
    } else if w.flight.token != 0 {
      NewestIsUnmirrored(w);
    }
    assert forall j | 0 <= j < CAPACITY :: CoveredSomewhere(w', j) <==> CoveredSomewhere(w, j);
    forall j | 0 <= j < CAPACITY && Live(w'.table.cells[j], w.now) && !Exposed(w, seen, u)
      ensures w'.table.cells[j].value.dies <= w'.mux.until.value || CoveredSomewhere(w', j)
    {
      LiveEntryIsKnown(w, j);
    }
  }

  lemma LossKeepsSafe(w: World, seen: Time, dm: bool, u: Time)
    requires Safe(w) && seen <= w.now && dm == !w.flight.Idle? && (dm ==> !Exposed(w, seen, u))
    ensures Safe(Step(w, Do(Lost(seen, dm)), u))
  {
    var w' := Step(w, Do(Lost(seen, dm)), u);
    if dm {
      LosingAMessageFences(w, seen, u);
    } else if !w.mux.cursorUncertain {
      var turn :| 0 <= turn < CAPACITY && AlignedBy(w, turn);
      assert AlignedBy(w', turn);
    } else {
      forall j | 0 <= j < CAPACITY && Live(w'.table.cells[j], w.now)
        ensures w'.table.cells[j].value.dies <= w'.mux.until.value || CoveredSomewhere(w', j)
      {
        if w.table.cells[j].value.dies > w.mux.until.value {
          var i :| 0 <= i < CAPACITY && Covers(w.mux.ring.slots[i], w.table.cells[j], w.now);
          assert Covers(w'.mux.ring.slots[i], w'.table.cells[j], w.now);
        }
      }
    }
  }

  /** A late execution within the quarantine keeps the fence exactly if its entry dies within it, or is
      mirrored by chance. */
  lemma LateExecutionFences(w: World, n: nat, token: nat, dies: Time, u: Time)
    requires Safe(w) && n < |w.lost| && w.now < w.lost[n] && token != 0
    ensures var w' := Step(w, ExecuteLate(n, token, dies), u);
            Safe(w') <==> dies <= w.now || dies <= w.mux.until.value || CoveredSomewhere(w', w.table.cursor)
  {
    hide Aligned;
    var w' := Step(w, ExecuteLate(n, token, dies), u);
    forall j | 0 <= j < CAPACITY && Live(w'.table.cells[j], w.now) && j != w.table.cursor
      ensures w'.table.cells[j].value.dies <= w'.mux.until.value || CoveredSomewhere(w', j)
    {
      if w.table.cells[j].value.dies > w.mux.until.value {
        assert CoveredSomewhere(w, j);
        var i :| 0 <= i < CAPACITY && Covers(w.mux.ring.slots[i], w.table.cells[j], w.now);
        assert Covers(w'.mux.ring.slots[i], w'.table.cells[j], w.now);
      }
    }
  }

  lemma ExecuteLateKeepsSafe(w: World, n: nat, token: nat, dies: Time, u: Time)
    requires Safe(w) && n < |w.lost| && Timely(w, ExecuteLate(n, token, dies), u)
    ensures Safe(Step(w, ExecuteLate(n, token, dies), u))
  {
    var w' := Step(w, ExecuteLate(n, token, dies), u);
    assert forall k | 0 <= k < |w'.lost| :: w'.lost[k] == w.lost[if k < n then k else k + 1];
    if token != 0 {
      LateExecutionFences(w, n, token, dies, u);
    } else if !w.mux.cursorUncertain {
      var turn :| 0 <= turn < CAPACITY && AlignedBy(w, turn);
      assert AlignedBy(w', turn);
    } else {
      assert forall j | 0 <= j < CAPACITY :: CoveredSomewhere(w', j) <==> CoveredSomewhere(w, j);
    }
  }

  lemma LaunchKeepsSafe(w: World, t: Time, u: Time)
    requires Safe(w) && Legal(w, Do(Launched(t)), u) && InOrder(w, Do(Launched(t)))
    ensures Safe(Step(w, Do(Launched(t)), u))
  {
    var turn :| 0 <= turn < CAPACITY && AlignedBy(w, turn);
    assert AlignedBy(Step(w, Do(Launched(t)), u), turn);
  }

  lemma RefusedKeepsSafe(w: World, u: Time)
    requires Safe(w) && w.flight.Sent?
    ensures Safe(Step(w, Do(Refused), u))
  {
    var turn :| 0 <= turn < CAPACITY && AlignedBy(w, turn);
    assert AlignedBy(Step(w, Do(Refused), u), turn);
  }

  /** Some rotation maps every live physical entry to a mirrored one, or the mirror is fenced; every
      call in order and every timely physical event keeps this. */
  lemma StepKeepsSafe(w: World, e: Event, u: Time)
    requires Safe(w) && Legal(w, e, u) && InOrder(w, e) && Timely(w, e, u)
    ensures Safe(Step(w, e, u))
  {
    hide Safe;
    match e
    case Advance(to) => AdvanceKeepsSafe(w, to);
    case Execute(token, dies) => ExecuteKeepsSafe(w, token, dies, u);
    case ExecuteLate(n, token, dies) => ExecuteLateKeepsSafe(w, n, token, dies, u);
    case Do(c) => CallKeepsSafe(w, c, u);
  }

  lemma CallKeepsSafe(w: World, c: Call, u: Time)
    requires Safe(w) && Legal(w, Do(c), u) && InOrder(w, Do(c)) && Timely(w, Do(c), u)
    ensures Safe(Step(w, Do(c), u))
  {
    assert WorldOk(w);
    if c.Lost? && c.dm {
      TimelyLossExposesNothing(w, c.now, u);
    }
    hide Safe, Exposed, RetainedDeadline;
    match c
    case Checked(t) => CheckKeepsSafe(w, t, u);
    case Launched(t) => LaunchKeepsSafe(w, t, u);
    case Accepted(_, _, _) => AcceptedKeepsSafe(w, c, u);
    case Refused => RefusedKeepsSafe(w, u);
    case Confirmed(token) => ConfirmKeepsSafe(w, token, u);
    case Lost(seen, dm) => LossKeepsSafe(w, seen, dm, u);
  }

  lemma TimelyLossExposesNothing(w: World, seen: Time, u: Time)
    requires Safe(w) && !w.flight.Idle? && Timely(w, Do(Lost(seen, true)), u)
    ensures !Exposed(w, seen, u)
  {
    hide Aligned;
    if Unmirrored(w) {
      NewestIsUnmirrored(w);
    }
  }

  // ----- Whole runs -----

  ghost function Run(w: World, es: seq<Event>, u: Time): (w': World)
    requires WorldOk(w)
    ensures WorldOk(w')
    decreases |es|
  {
    if es == [] then w else Run(Step(w, es[0], u), es[1..], u)
  }

  /** Anything that can happen, with the calls in order. */
  ghost predicate Possible(w: World, es: seq<Event>, u: Time)
    requires WorldOk(w)
    decreases |es|
  {
    es == [] || (Legal(w, es[0], u) && InOrder(w, es[0]) && Possible(Step(w, es[0], u), es[1..], u))
  }

  ghost predicate AllTimely(w: World, es: seq<Event>, u: Time)
    requires WorldOk(w)
    decreases |es|
  {
    es == [] || (Timely(w, es[0], u) && AllTimely(Step(w, es[0], u), es[1..], u))
  }

  lemma {:induction false} RunIsSafe(w: World, es: seq<Event>, u: Time)
    requires Safe(w) && Possible(w, es, u) && AllTimely(w, es, u)
    ensures Safe(Run(w, es, u))
    decreases |es|
  {
    if es != [] {
      StepKeepsSafe(w, es[0], u);
      RunIsSafe(Step(w, es[0], u), es[1..], u);
    }
  }

  lemma {:induction false} RunJoins(w: World, a: seq<Event>, b: seq<Event>, u: Time)
    requires WorldOk(w)
    ensures Run(w, a + b, u) == Run(Run(w, a, u), b, u)
    ensures Possible(w, a + b, u) <==> Possible(w, a, u) && Possible(Run(w, a, u), b, u)
    ensures AllTimely(w, a + b, u) <==> AllTimely(w, a, u) && AllTimely(Run(w, a, u), b, u)
    decreases |a|
  {
    if a == [] {
      assert a + b == b;
    } else {
      assert (a + b)[0] == a[0] && (a + b)[1..] == a[1..] + b;
      RunJoins(Step(w, a[0], u), a[1..], b, u);
    }
  }

  // ----- Histories of calls -----

  /** The calls of a run, in order. */
  ghost function CallsIn(es: seq<Event>): seq<Call>
    decreases |es|
  {
    if es == [] then [] else (if es[0].Do? then [es[0].call] else []) + CallsIn(es[1..])
  }

  ghost predicate Feasible(w: World, es: seq<Event>, u: Time)
    requires WorldOk(w)
    decreases |es|
  {
    es == [] || (Legal(w, es[0], u) && Feasible(Step(w, es[0], u), es[1..], u))
  }

  lemma {:induction false} LogOkAt(log: seq<Call>, i: nat, u: Time)
    requires LogOk(log, u) && i < |log|
    ensures CallOk(Replay(log[..i], u), InFlight(log[..i]), log[i])
    decreases |log|
  {
    var n := |log| - 1;
    if i < n {
      LogOkAt(log[..n], i, u);
      assert log[..n][..i] == log[..i];
    }
  }

  /** A physical run whose calls form an orderly log is one of those above, and ends with the mirror that
      log leads to. */
  lemma {:induction false} LogDrivesTheWorld(w: World, log: seq<Call>, es: seq<Event>, u: Time)
    requires WorldOk(w) && w.mux == Replay(log, u) && (InFlight(log) <==> !w.flight.Idle?)
    requires Feasible(w, es, u) && LogOk(log + CallsIn(es), u)
    ensures Possible(w, es, u)
    ensures var r := Run(w, es, u);
            r.mux == Replay(log + CallsIn(es), u) && (InFlight(log + CallsIn(es)) <==> !r.flight.Idle?)
    decreases |es|
  {
    hide LogOk, Apply, CallOk, RetainedDeadline, Put, AckAll, Overwrites;
    if es == [] {
      assert log + CallsIn(es) == log;
    } else if es[0].Do? {
      var c := es[0].call;
      var more := log + CallsIn(es);
      assert more[..|log|] == log && more[|log|] == c;
      LogOkAt(more, |log|, u);
      var log' := log + [c];
      assert log'[..|log|] == log;
      assert log' + CallsIn(es[1..]) == more;
      LogDrivesTheWorld(Step(w, es[0], u), log', es[1..], u);
    } else {
      assert CallsIn(es) == CallsIn(es[1..]);
      LogDrivesTheWorld(Step(w, es[0], u), log, es[1..], u);
    }
  }

  /** Whatever the companion does with the messages it gets, an orderly log of calls never makes it
      overwrite a live acknowledgement entry, as long as entries whose replies are lost die in time. */
  lemma NoLiveEntryIsOverwritten(start: Time, es: seq<Event>, u: Time)
    requires Feasible(Start(start), es, u) && LogOk(CallsIn(es), u) && AllTimely(Start(start), es, u)
    ensures var w := Run(Start(start), es, u);
            !w.harmed && w.mux == Replay(CallsIn(es), u) && (!w.flight.Idle? <==> InFlight(CallsIn(es)))
  {
    StartIsSafe(start);
    assert [] + CallsIn(es) == CallsIn(es);
    LogDrivesTheWorld(Start(start), [], es, u);
    RunIsSafe(Start(start), es, u);
  }
}
