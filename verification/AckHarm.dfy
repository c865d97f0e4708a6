/**
 Exactly when something live can be overwritten: the condition of `AckExact` is the weakest, what a
 loss and a late execution must leave behind follows from it, and two runs show how each can fail.
 */
module AckHarm {
  import opened Wire
  import opened AckRing
  import opened AckWorld
  import opened AckExact

  // ----- Harm -----

  /** The mux may launch, and has `CAPACITY - k` free places before it, as many as it takes to overwrite
      the live entry at place `p`. */
  ghost predicate Poised(w: World, p: int, k: nat) {
    && WorldOk(w) && w.flight.Idle? && 0 <= p < CAPACITY && k <= CAPACITY
    && !Quarantined(w.mux, w.now)
    && w.table.cursor == (p + 1 + k) % CAPACITY
    && (forall j: nat | j < CAPACITY - k :: !Pending(Upcoming(w.mux, j), w.now))
    && (k < CAPACITY ==> Live(w.table.cells[p], w.now))
    && (k == CAPACITY ==> w.harmed)
  }

  /** One ordinary message: admitted, executed and accepted at once. */
  function Message(token: nat, t: Time): seq<Event> {
    [Do(Checked(t)), Do(Launched(t)), Execute(token, t), Do(Accepted(token, 0, t))]
  }

  /** The world after one ordinary message. */
  ghost function Messaged(w: World, f: nat): World
    requires WorldOk(w)
  {
    w.(mux := Radio(Insert(w.mux.ring, f, RetainedDeadline(w.now, 0)), None, false), table := Put(w.table, f, w.now),
       harmed := w.harmed || Overwrites(w.table, f, w.now))
  }

  lemma RunOne(w: World, e: Event, u: Time)
    requires WorldOk(w)
    ensures Run(w, [e], u) == Step(w, e, u) && (Possible(w, [e], u) <==> Legal(w, e, u) && InOrder(w, e))
    ensures AllTimely(w, [e], u) <==> Timely(w, e, u)
  {
    hide Step, Legal, InOrder, Timely;
    var es := [e];
    assert es[1..] == [];
    assert Run(Step(w, e, u), [], u) == Step(w, e, u);
    assert Possible(Step(w, e, u), es[1..], u) && AllTimely(Step(w, e, u), es[1..], u);
  }

  lemma RunTwo(w: World, d: Event, e: Event, u: Time)
    requires WorldOk(w)
    ensures var a := Step(w, d, u);
            && Run(w, [d, e], u) == Step(a, e, u)
            && (Possible(w, [d, e], u) <==> Legal(w, d, u) && InOrder(w, d) && Legal(a, e, u) && InOrder(a, e))
            && (AllTimely(w, [d, e], u) <==> Timely(w, d, u) && Timely(a, e, u))
  {
    hide Step, Legal, InOrder, Timely;
    assert [d, e] == [d] + [e];
    RunOne(w, d, u);
    RunOne(Step(w, d, u), e, u);
    RunJoins(w, [d], [e], u);
  }

  lemma MessageRuns(w: World, f: nat, u: Time)
    requires WorldOk(w) && w.flight.Idle? && !Quarantined(w.mux, w.now) && !Pending(Upcoming(w.mux, 0), w.now)
    ensures Possible(w, Message(f, w.now), u) && AllTimely(w, Message(f, w.now), u)
    ensures Run(w, Message(f, w.now), u) == Messaged(w, f)
  {
    hide Put, Insert, Overwrites, Run, Possible, AllTimely;
    var t := w.now;
    assert Message(f, t) == [Do(Checked(t)), Do(Launched(t))] + [Execute(f, t), Do(Accepted(f, 0, t))];
    var a := w.(mux := w.mux.(until := None, cursorUncertain := false), flight := Sent);
    RunTwo(w, Do(Checked(t)), Do(Launched(t)), u);
    RunTwo(a, Execute(f, t), Do(Accepted(f, 0, t)), u);
    RunJoins(w, [Do(Checked(t)), Do(Launched(t))], [Execute(f, t), Do(Accepted(f, 0, t))], u);
  }

  lemma CursorMoves(p: nat, k: nat)
    requires p < CAPACITY && k < CAPACITY
    ensures (p + 1 + k) % CAPACITY == p <==> k == CAPACITY - 1
    ensures ((p + 1 + k) % CAPACITY + 1) % CAPACITY == (p + 1 + (k + 1)) % CAPACITY
  {
  }

  lemma MessageMoves(w: World, p: int, k: nat, f: nat, u: Time)
    requires Poised(w, p, k) && k < CAPACITY && f != 0
    ensures Possible(w, Message(f, w.now), u) && AllTimely(w, Message(f, w.now), u)
    ensures Poised(Run(w, Message(f, w.now), u), p, k + 1) && Run(w, Message(f, w.now), u).now == w.now
  {
    assert !Pending(Upcoming(w.mux, 0), w.now);
    MessageRuns(w, f, u);
    var c := Messaged(w, f);
    hide Possible, AllTimely, Run, RetainedDeadline;
    CursorMoves(p, k);
    forall j: nat | j < CAPACITY - (k + 1)
      ensures !Pending(Upcoming(c.mux, j), w.now)
    {
      assert !Pending(Upcoming(w.mux, j + 1), w.now);
      StillUpcoming(w.mux.ring.next, j + 1);
    }
  }

  function Messages(token: nat, t: Time, n: nat): seq<Event> {
    if n == 0 then [] else Message(token, t) + Messages(token, t, n - 1)
  }

  /** As many messages as it takes overwrite the entry. */
  lemma {:induction false} MessagesHarm(w: World, p: int, k: nat, f: nat, u: Time)
    requires Poised(w, p, k) && f != 0
    ensures var es := Messages(f, w.now, CAPACITY - k);
            Possible(w, es, u) && AllTimely(w, es, u) && Run(w, es, u).harmed
    decreases CAPACITY - k
  {
    hide Poised, Message;
    if k == CAPACITY {
      assert w.harmed by { PoisedIsHarmed(w, p); }
    } else {
      assert WorldOk(w) && k <= CAPACITY by { PoisedIsOk(w, p, k); }
      MessageMoves(w, p, k, f, u);
      var w' := Run(w, Message(f, w.now), u);
      MessagesHarm(w', p, k + 1, f, u);
      RunJoins(w, Message(f, w.now), Messages(f, w.now, CAPACITY - (k + 1)), u);
    }
  }

  lemma PoisedIsOk(w: World, p: int, k: nat)
    requires Poised(w, p, k)
    ensures WorldOk(w) && k <= CAPACITY
  {
  }

  lemma PoisedIsHarmed(w: World, p: int)
    requires Poised(w, p, CAPACITY)
    ensures WorldOk(w) && w.harmed
  {
  }

  /** Confirmations for every mirrored entry from place `i` on, but for those with that token. */
  function Confirmations(slots: seq<Option<Entry>>, i: nat, token: nat): seq<Event>
    decreases |slots| - i
  {
    if i >= |slots| then []
    else
      (if slots[i].Some? && slots[i].value.token != token then [Do(Confirmed(slots[i].value.token))] else [])
      + Confirmations(slots, i + 1, token)
  }

  /** The entries before place `n` are settled or carry that token; nothing else of `w` has changed in
      what matters here. */
  ghost predicate Quieted(w: World, w': World, p: int, token: nat, n: nat)
    requires WorldOk(w) && 0 <= p < CAPACITY
  {
    && WorldOk(w') && w'.table.cells[p] == w.table.cells[p] && w'.table.cursor == w.table.cursor
    && w' == w.(mux := w.mux.(ring := w'.mux.ring), table := w'.table) && w'.mux.ring.next == w.mux.ring.next
    && (forall i | 0 <= i < CAPACITY ::
          && (w'.mux.ring.slots[i].Some? <==> w.mux.ring.slots[i].Some?)
          && (w.mux.ring.slots[i].Some? ==>
                var a := w.mux.ring.slots[i].value;
                var b := w'.mux.ring.slots[i].value;
                && b.token == a.token && b.deadline == a.deadline && (a.settled ==> b.settled)
                && (i < n && a.token != token ==> b.settled)))
  }

  lemma {:induction false} ConfirmationsSettle(w: World, w': World, p: int, token: nat, n: nat, u: Time)
    requires WorldOk(w) && 0 <= p < CAPACITY && n <= CAPACITY && Quieted(w, w', p, token, n)
    requires w.table.cells[p].Some? && w.table.cells[p].value.token == token
    ensures var es := Confirmations(w.mux.ring.slots, n, token);
            && Possible(w', es, u) && AllTimely(w', es, u)
            && Quieted(w, Run(w', es, u), p, token, CAPACITY)
    decreases CAPACITY - n
  {
    if n < CAPACITY {
      var slots := w.mux.ring.slots;
      if slots[n].Some? && slots[n].value.token != token {
        var e := Do(Confirmed(slots[n].value.token));
        var next := Step(w', e, u);
        assert Quieted(w, next, p, token, n + 1);
        ConfirmationsSettle(w, next, p, token, n + 1, u);
        RunOne(w', e, u);
        RunJoins(w', [e], Confirmations(slots, n + 1, token), u);
      } else {
        assert Quieted(w, w', p, token, n + 1);
        assert Confirmations(slots, n, token) == Confirmations(slots, n + 1, token);
        ConfirmationsSettle(w, w', p, token, n + 1, u);
      }
    }
  }

  /** Waiting until a moment before an unwatched entry dies, and confirming the others. */
  lemma UnwatchedIsPoised(w: World, j: int, u: Time) returns (es: seq<Event>)
    requires Coherent(w) && w.flight.Idle? && 0 <= j < CAPACITY && Live(w.table.cells[j], w.now) && !Watched(w, j)
    ensures Possible(w, es, u) && AllTimely(w, es, u) && Poised(Run(w, es, u), j, CAPACITY - Gap(w, j))
  {
    var token, t := w.table.cells[j].value.token, w.table.cells[j].value.dies - 1;
    var late := w.(now := t);
    assert Quieted(late, late, j, token, 0);
    ConfirmationsSettle(late, late, j, token, 0, u);
    var confirms := Confirmations(late.mux.ring.slots, 0, token);
    RunOne(w, Advance(t), u);
    RunJoins(w, [Advance(t)], confirms, u);
    es := [Advance(t)] + confirms;
    hide Run, Possible, AllTimely;
    QuietIsPoised(w, Run(late, confirms, u), j);
  }

  lemma QuietIsPoised(w: World, calm: World, j: int)
    requires Coherent(w) && w.flight.Idle? && 0 <= j < CAPACITY && Live(w.table.cells[j], w.now) && !Watched(w, j)
    requires var c := w.table.cells[j].value; Quieted(w.(now := c.dies - 1), calm, j, c.token, CAPACITY)
    ensures Poised(calm, j, CAPACITY - Gap(w, j))
  {
    var t := w.table.cells[j].value.dies - 1;
    forall k: nat | k < Reach(w, j)
      ensures !Pending(Upcoming(calm.mux, k), t)
    {
      assert !Covers(Upcoming(w.mux, k), w.table.cells[j], w.now);
    }
    if w.mux.cursorUncertain {
      forall i | 0 <= i < CAPACITY
        ensures !Pending(calm.mux.ring.slots[i], t)
      {
        InRange(w.mux.ring.next, i);
        assert !Pending(Upcoming(calm.mux, (i - w.mux.ring.next) % CAPACITY), t);
      }
    }
    GapBack(w, j);
  }

  lemma GapBack(w: World, j: int)
    requires WorldOk(w) && 0 <= j < CAPACITY
    ensures 1 <= Gap(w, j) <= CAPACITY && (j + 1 + (CAPACITY - Gap(w, j))) % CAPACITY == w.table.cursor
  {
  }

  /** Where the condition fails something live can be overwritten, by calls in order and with every loss
      and late execution in time. */
  lemma IdleInsecureCanHarm(w: World, u: Time) returns (es: seq<Event>)
    requires Coherent(w) && w.flight.Idle? && !Secure(w)
    ensures Possible(w, es, u) && AllTimely(w, es, u) && Run(w, es, u).harmed
  {
    if w.harmed {
      es := [];
    } else if !Vacant(w) {
      var n :| 0 <= n < |w.lost| && w.now < w.lost[n];
      var e := ExecuteLate(n, 1, if w.lost[n] < w.now + u then w.lost[n] else w.now + u);
      RunOne(w, e, u);
      es := [e];
    } else {
      var j :| 0 <= j < CAPACITY && Live(w.table.cells[j], w.now) && !Watched(w, j);
      var first := UnwatchedIsPoised(w, j, u);
      hide Poised, Watched, Guarded;
      GapBack(w, j);
      var r := Run(w, first, u);
      MessagesHarm(r, j, CAPACITY - Gap(w, j), 1, u);
      RunJoins(w, first, Messages(1, r.now, Gap(w, j)), u);
      es := first + Messages(1, r.now, Gap(w, j));
    }
  }

  /** A message that was not executed so far may be refused; nothing else changes by that. */
  lemma InsecureCanHarm(w: World, u: Time) returns (es: seq<Event>)
    requires Coherent(w) && !w.flight.Executed? && !Secure(w)
    ensures Possible(w, es, u) && AllTimely(w, es, u) && Run(w, es, u).harmed
  {
    if w.flight.Idle? {
      es := IdleInsecureCanHarm(w, u);
    } else {
      var w' := Step(w, Do(Refused), u);
      assert !Secure(w') by {
        if Secure(w') {
          SameGuards(w', w, -1);
        }
      }
      es := IdleInsecureCanHarm(w', u);
      RunOne(w, Do(Refused), u);
      RunJoins(w, [Do(Refused)], es, u);
      es := [Do(Refused)] + es;
    }
  }

  // ----- Exactly when -----

  /** No continuation overwrites a live entry, with calls in order and losses and late executions benign. */
  ghost predicate Harmless(w: World, u: Time)
    requires WorldOk(w)
  {
    forall es | Possible(w, es, u) && AllBenign(w, es, u) :: !Run(w, es, u).harmed
  }

  /** The condition is the weakest: while no executed message waits for its reply, it holds if and only if
      nothing live can be overwritten from here on. */
  lemma SecureIsExact(w: World, u: Time)
    requires Coherent(w) && !w.flight.Executed?
    ensures Harmless(w, u) <==> Secure(w)
  {
    hide Possible, AllBenign, AllTimely, Run, Secure, Coherent;
    assert WorldOk(w) by { CoherentIsOk(w); }
    if Secure(w) {
      forall es | Possible(w, es, u) && AllBenign(w, es, u)
        ensures !Run(w, es, u).harmed
      {
        RunStaysSecure(w, es, u);
        assert !Run(w, es, u).harmed by { SecureIsUnharmed(Run(w, es, u)); }
      }
    } else {
      var es := InsecureCanHarm(w, u);
      TimelyIsBenign(w, es, u);
    }
  }

  /** Exactly when the loss of a message is harmless: unless it left a live entry that outlives the
      quarantine counted from the last clock reading, with no mirrored one to stand in for it. */
  lemma LossIsSafeUnlessExposed(w: World, seen: Time, u: Time)
    requires Secure(w) && !w.flight.Idle? && seen <= w.now
    ensures Harmless(Step(w, Do(Lost(seen, true)), u), u) <==> !Exposed(w, seen, u)
  {
    LossSecure(w, seen, u);
    SecureIsExact(Step(w, Do(Lost(seen, true)), u), u);
  }

  /** Exactly when a handler that outlived its connection is harmless, however late it runs. */
  lemma LateExecutionIsSafeIfItSpares(w: World, n: nat, token: nat, dies: Time, u: Time)
    requires Secure(w) && !w.flight.Executed? && n < |w.lost|
    ensures var e := ExecuteLate(n, token, dies);
            Harmless(Step(w, e, u), u) <==> Spares(w, e, u)
  {
    LateSecure(w, n, token, dies, u);
    SecureIsExact(Step(w, ExecuteLate(n, token, dies), u), u);
  }

  /** While its message is in quarantine, such a handler is harmless exactly if its entry dies within the
      quarantine, or is mirrored by chance. */
  lemma LateExecutionInQuarantine(w: World, n: nat, token: nat, dies: Time, u: Time)
    requires Secure(w) && n < |w.lost| && w.now < w.lost[n] && token != 0
    ensures var w' := Step(w, ExecuteLate(n, token, dies), u);
            Harmless(w', u) <==>
              dies <= w.now || dies <= w.mux.until.value || CoveredSomewhere(w', w.table.cursor)
  {
    LateInTimeSpares(w, n, token, dies, u);
    LateExecutionIsSafeIfItSpares(w, n, token, dies, u);
  }

  /** The rotation that runs in time keep is enough. */
  lemma SafeIsSecure(w: World)
    requires Safe(w)
    ensures Secure(w)
  {
    if w.mux.cursorUncertain {
      forall j | 0 <= j < CAPACITY && Live(w.table.cells[j], w.now)
        ensures Watched(w, j)
      {
        SomewhereIsWatched(w, w, j);
      }
    } else {
      var turn :| 0 <= turn < CAPACITY && AlignedBy(w, turn);
      forall j | 0 <= j < CAPACITY && Live(w.table.cells[j], w.now)
        ensures Watched(w, j) || Excused(w, j)
      {
        AlignedIsWatched(w, turn, j);
      }
    }
  }

  lemma AlignedIsWatched(w: World, turn: int, j: int)
    requires WorldOk(w) && AlignedBy(w, turn) && !w.mux.cursorUncertain
    requires 0 <= j < CAPACITY && Live(w.table.cells[j], w.now)
    ensures Watched(w, j) || Excused(w, j)
  {
    hide Covers;
    var i := TurnBack(j, turn);
    if Unmirrored(w) && i == w.mux.ring.next {
      hide At;
      NewestAt(w, turn);
    } else {
      var k := (i - w.mux.ring.next) % CAPACITY;
      InRange(w.mux.ring.next, i);
      TurnedReach(w, turn, i);
      hide At;
      assert Covers(Upcoming(w.mux, k), w.table.cells[j], w.now);
    }
  }

  lemma Residues(a: int, b: int)
    ensures (a % CAPACITY - b % CAPACITY) % CAPACITY == (a - b) % CAPACITY
  {
  }

  lemma OneBefore(d: int)
    requires d % CAPACITY != 0
    ensures d % CAPACITY == (d - 1) % CAPACITY + 1
  {
  }

  lemma Apart(i: int, next: int)
    requires 0 <= i < CAPACITY && 0 <= next < CAPACITY && i != next
    ensures (i - next) % CAPACITY != 0
  {
  }

  lemma TurnedReach(w: World, turn: int, i: int)
    requires WorldOk(w) && 0 <= i < CAPACITY && !w.mux.cursorUncertain
    requires w.table.cursor == At(w.mux.ring.next + (if Unmirrored(w) then 1 else 0), turn)
    requires Unmirrored(w) ==> i != w.mux.ring.next
    ensures (i - w.mux.ring.next) % CAPACITY < Reach(w, At(i, turn))
  {
    var x := if Unmirrored(w) then 1 else 0;
    Residues(i + turn, w.mux.ring.next + x + turn);
    assert i + turn - (w.mux.ring.next + x + turn) == i - w.mux.ring.next - x;
    if Unmirrored(w) {
      Apart(i, w.mux.ring.next);
      OneBefore(i - w.mux.ring.next);
    }
  }

  // ----- Two runs that do harm -----

  function MessageCalls(token: nat, t: Time, n: nat): seq<Call> {
    if n == 0 then [] else [Checked(t), Launched(t), Accepted(token, 0, t)] + MessageCalls(token, t, n - 1)
  }

  lemma {:induction false} CallsJoin(a: seq<Event>, b: seq<Event>)
    ensures CallsIn(a + b) == CallsIn(a) + CallsIn(b)
    decreases |a|
  {
    if a == [] {
      assert a + b == b;
    } else {
      assert (a + b)[0] == a[0] && (a + b)[1..] == a[1..] + b;
      CallsJoin(a[1..], b);
      var first := if a[0].Do? then [a[0].call] else [];
      assert first + (CallsIn(a[1..]) + CallsIn(b)) == first + CallsIn(a[1..]) + CallsIn(b);
    }
  }

  lemma OneCall(e: Event)
    ensures CallsIn([e]) == if e.Do? then [e.call] else []
  {
  }

  lemma TwoCalls(d: Event, e: Event)
    ensures CallsIn([d, e]) == CallsIn([d]) + CallsIn([e])
  {
    CallsJoin([d], [e]);
  }

  lemma {:induction false} CallsOfMessages(token: nat, t: Time, n: nat)
    ensures CallsIn(Messages(token, t, n)) == MessageCalls(token, t, n)
    decreases n
  {
    if n > 0 {
      var a, b := [Do(Checked(t)), Do(Launched(t))], [Execute(token, t), Do(Accepted(token, 0, t))];
      assert Message(token, t) == a + b;
      CallsJoin(a, b);
      TwoCalls(a[0], a[1]);
      TwoCalls(b[0], b[1]);
      CallsJoin(Message(token, t), Messages(token, t, n - 1));
      CallsOfMessages(token, t, n - 1);
    }
  }

  /** A message admitted at 0 and lost with its connection, and eight more after its quarantine of 100. */
  function HarmfulCalls(): seq<Call> {
    [Checked(0), Launched(0)] + [Lost(0, true)] + MessageCalls(1, 109, CAPACITY)
  }

  /** The clock was not read again after the message had been executed at 10. */
  function StaleReading(): seq<Event> {
    [Do(Checked(0)), Do(Launched(0))] + [Advance(10), Execute(1, 110)]
  }

  /** The connection was lost at once, and a handler that outlived it executes the message at 10. */
  function LateHandler(): seq<Event> {
    [Do(Checked(0)), Do(Launched(0))] + [Do(Lost(0, true)), Advance(10)]
  }

  function Afterwards(): seq<Event> {
    [Advance(109)] + Messages(1, 109, CAPACITY)
  }

  function StaleRun(): seq<Event> {
    StaleReading() + [Do(Lost(0, true))] + Afterwards()
  }

  function LateRun(): seq<Event> {
    LateHandler() + [ExecuteLate(0, 1, 110)] + Afterwards()
  }

  /** In both runs the entry outlives the quarantine, and nothing mirrors it. */
  ghost function Forgotten(now: Time): World {
    World(Radio(EmptyRing(), Some(100), true),
          Table([Some(Cell(1, 110, false)), None, None, None, None, None, None, None], 1), Idle, [], now, false)
  }

  lemma ForgottenIsPoised()
    ensures Poised(Forgotten(109), 0, 0)
  {
    var w := Forgotten(109);
    assert forall i | 0 <= i < CAPACITY :: w.mux.ring.slots[i].None?;
    assert forall k: nat :: Upcoming(w.mux, k).None?;
  }

  lemma ForgottenWaits()
    ensures WorldOk(Forgotten(10)) && Forgotten(109) == Step(Forgotten(10), Advance(109), 100)
    ensures Legal(Forgotten(10), Advance(109), 100) && Forgotten(109).now == 109
  {
  }

  lemma AfterwardsHarms()
    ensures Possible(Forgotten(10), Afterwards(), 100) && AllTimely(Forgotten(10), Afterwards(), 100)
    ensures Run(Forgotten(10), Afterwards(), 100).harmed
  {
    hide Run, Possible, AllTimely, Poised, Forgotten, Messages, Step;
    ForgottenIsPoised();
    ForgottenWaits();
    RunOne(Forgotten(10), Advance(109), 100);
    MessagesHarm(Forgotten(109), 0, 0, 1, 100);
    RunJoins(Forgotten(10), [Advance(109)], Messages(1, 109, CAPACITY), 100);
  }

  lemma FirstLaunch()
    ensures var es := [Do(Checked(0)), Do(Launched(0))];
            && Possible(Start(0), es, 100) && AllTimely(Start(0), es, 100)
            && Run(Start(0), es, 100) == Start(0).(flight := Sent)
  {
    hide Run, Possible, AllTimely;
    RunTwo(Start(0), Do(Checked(0)), Do(Launched(0)), 100);
  }

  lemma StaleLeadsThere()
    ensures Possible(Start(0), StaleReading() + [Do(Lost(0, true))], 100) && AllTimely(Start(0), StaleReading(), 100)
    ensures Run(Start(0), StaleReading() + [Do(Lost(0, true))], 100) == Forgotten(10)
  {
    hide Run, Possible, AllTimely;
    var sent := Start(0).(flight := Sent);
    FirstLaunch();
    RunTwo(sent, Advance(10), Execute(1, 110), 100);
    RunJoins(Start(0), [Do(Checked(0)), Do(Launched(0))], [Advance(10), Execute(1, 110)], 100);
    assert EmptyTable().cells[0 := Some(Cell(1, 110, false))] == Forgotten(10).table.cells;
    var a := Run(Start(0), StaleReading(), 100);
    assert a == Step(sent.(now := 10), Execute(1, 110), 100);
    RunOne(a, Do(Lost(0, true)), 100);
    RunJoins(Start(0), StaleReading(), [Do(Lost(0, true))], 100);
  }

  lemma LateLeadsThere()
    ensures Possible(Start(0), LateHandler() + [ExecuteLate(0, 1, 110)], 100) && AllTimely(Start(0), LateHandler(), 100)
    ensures Run(Start(0), LateHandler() + [ExecuteLate(0, 1, 110)], 100) == Forgotten(10)
  {
    hide Run, Possible, AllTimely;
    var sent := Start(0).(flight := Sent);
    FirstLaunch();
    RunTwo(sent, Do(Lost(0, true)), Advance(10), 100);
    RunJoins(Start(0), [Do(Checked(0)), Do(Launched(0))], [Do(Lost(0, true)), Advance(10)], 100);
    assert EmptyTable().cells[0 := Some(Cell(1, 110, false))] == Forgotten(10).table.cells;
    var a := Run(Start(0), LateHandler(), 100);
    assert a == Step(Step(sent, Do(Lost(0, true)), 100), Advance(10), 100);
    RunOne(a, ExecuteLate(0, 1, 110), 100);
    RunJoins(Start(0), LateHandler(), [ExecuteLate(0, 1, 110)], 100);
  }

  /** With a stale clock reading at the loss the quarantine is too short; all else is in time. */
  lemma StaleReadingCanHarm()
    ensures Possible(Start(0), StaleRun(), 100) && Run(Start(0), StaleRun(), 100).harmed
    ensures CallsIn(StaleRun()) == HarmfulCalls()
    ensures AllTimely(Start(0), StaleReading(), 100)
    ensures AllTimely(Run(Start(0), StaleReading() + [Do(Lost(0, true))], 100), Afterwards(), 100)
  {
    hide Run, Possible, AllTimely, Forgotten, Messages, MessageCalls;
    StaleLeadsThere();
    AfterwardsHarms();
    RunJoins(Start(0), StaleReading() + [Do(Lost(0, true))], Afterwards(), 100);
    HarmfulLog(StaleReading(), Do(Lost(0, true)));
  }

  /** A late execution can do the same with a fresh reading at the loss; all else is in time. */
  lemma LateHandlerCanHarm()
    ensures Possible(Start(0), LateRun(), 100) && Run(Start(0), LateRun(), 100).harmed
    ensures CallsIn(LateRun()) == HarmfulCalls()
    ensures AllTimely(Start(0), LateHandler(), 100)
    ensures AllTimely(Run(Start(0), LateHandler() + [ExecuteLate(0, 1, 110)], 100), Afterwards(), 100)
  {
    hide Run, Possible, AllTimely, Forgotten, Messages, MessageCalls;
    LateLeadsThere();
    AfterwardsHarms();
    RunJoins(Start(0), LateHandler() + [ExecuteLate(0, 1, 110)], Afterwards(), 100);
    HarmfulLog(LateHandler(), ExecuteLate(0, 1, 110));
  }

  lemma HarmfulLog(before: seq<Event>, e: Event)
    requires || (before == StaleReading() && e == Do(Lost(0, true)))
             || (before == LateHandler() && e == ExecuteLate(0, 1, 110))
    ensures CallsIn(before + [e] + Afterwards()) == HarmfulCalls()
  {
    hide CallsIn, Messages, MessageCalls;
    FirstCalls(before, e);
    OneCall(Advance(109));
    CallsJoin([Advance(109)], Messages(1, 109, CAPACITY));
    CallsOfMessages(1, 109, CAPACITY);
    CallsJoin(before + [e], Afterwards());
  }

  lemma FirstCalls(before: seq<Event>, e: Event)
    requires || (before == StaleReading() && e == Do(Lost(0, true)))
             || (before == LateHandler() && e == ExecuteLate(0, 1, 110))
    ensures CallsIn(before + [e]) == [Checked(0), Launched(0)] + [Lost(0, true)]
  {
    hide CallsIn;
    var a := [Do(Checked(0)), Do(Launched(0))];
    var b := before[2..];
    assert before == a + b && b == [before[2], before[3]];
    TwoCalls(a[0], a[1]);
    TwoCalls(b[0], b[1]);
    OneCall(a[0]);
    OneCall(a[1]);
    OneCall(b[0]);
    OneCall(b[1]);
    OneCall(e);
    CallsJoin(a, b);
    CallsJoin(before, [e]);
  }
}
