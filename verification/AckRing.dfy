/** The mux's mirror of the companion's direct-message acknowledgement ring, and its quarantine. */
module AckRing {
  import opened Wire

  const CAPACITY: nat := 8

  // ----- The mux's mirror -----

  datatype Entry = Entry(token: nat, deadline: Time, settled: bool)

  datatype Ring = Ring(slots: seq<Option<Entry>>, next: nat)

  ghost predicate RingOk(r: Ring) {
    |r.slots| == CAPACITY && r.next < CAPACITY
  }

  function EmptyRing(): (r: Ring)
    ensures RingOk(r) && forall i | 0 <= i < CAPACITY :: r.slots[i].None?
  {
    Ring([None, None, None, None, None, None, None, None], 0)
  }

  /** A mirrored reservation that may still be waiting for its acknowledgement. */
  predicate Pending(e: Option<Entry>, now: Time) {
    e.Some? && !e.value.settled && now < e.value.deadline
  }

  predicate FreeSlot(r: Ring, now: Time) {
    r.next < |r.slots| && !Pending(r.slots[r.next], now)
  }

  function Insert(r: Ring, token: nat, deadline: Time): (r': Ring)
    ensures RingOk(r) ==> RingOk(r')
  {
    if token == 0 || r.next >= |r.slots| then r
    else Ring(r.slots[r.next := Some(Entry(token, deadline, false))], (r.next + 1) % CAPACITY)
  }

  function SettleEntry(e: Option<Entry>, token: nat): Option<Entry> {
    if e.Some? && e.value.token == token then Some(e.value.(settled := true)) else e
  }

  function Settle(r: Ring, token: nat): (r': Ring)
    ensures RingOk(r) ==> RingOk(r')
  {
    Ring(seq(|r.slots|, i requires 0 <= i < |r.slots| => SettleEntry(r.slots[i], token)), r.next)
  }

  predicate AnyPending(r: Ring, now: Time) {
    exists i | 0 <= i < |r.slots| :: Pending(r.slots[i], now)
  }

  // ----- Quarantine after an unanswered send -----

  /** The part of the radio state that survives a replaced upstream socket. */
  datatype Radio = Radio(ring: Ring, until: Option<Time>, cursorUncertain: bool)

  ghost predicate RadioOk(m: Radio) {
    RingOk(m.ring) && (m.cursorUncertain ==> m.until.Some?)
  }

  function FreshRadio(): (m: Radio)
    ensures RadioOk(m)
  {
    Radio(EmptyRing(), None, false)
  }

  predicate Quarantined(m: Radio, now: Time) {
    m.until.Some? && (now < m.until.value || (m.cursorUncertain && AnyPending(m.ring, now)))
  }

  /** Asking whether radio work is quarantined also lifts a quarantine that is over. */
  function AfterCheck(m: Radio, now: Time): (m': Radio)
    ensures RadioOk(m) ==> RadioOk(m')
  {
    if Quarantined(m, now) then m else m.(until := None, cursorUncertain := false)
  }

  function Quarantine(m: Radio, now: Time, duration: Time, cursor: bool): (m': Radio)
    ensures m'.until.Some? && m'.until.value >= now + duration
    ensures RadioOk(m) ==> RadioOk(m')
  {
    var deadline := now + duration;
    m.(until := if m.until.None? || deadline > m.until.value then Some(deadline) else m.until,
       cursorUncertain := m.cursorUncertain || cursor)
  }

  /** The calls the broker makes on this state, as history. */
  datatype Call =
    | Checked(now: Time)                                 // is radio work quarantined?
    | Launched(now: Time)                                // a plain direct message was admitted
    | Accepted(token: nat, timeout: nat, now: Time)      // its SENT reply
    | Refused                                            // its ERR reply, or it never left the mux
    | Confirmed(token: nat)                              // SEND_CONFIRMED
    | Lost(now: Time, dm: bool)                          // radio work lost with its connection

  ghost function Apply(m: Radio, c: Call, uncertainty: Time): (m': Radio)
    ensures RadioOk(m) ==> RadioOk(m')
  {
    match c
    case Checked(now) => AfterCheck(m, now)
    case Accepted(token, timeout, now) => m.(ring := Insert(m.ring, token, RetainedDeadline(now, timeout)))
    case Confirmed(token) => m.(ring := Settle(m.ring, token))
    case Lost(now, dm) => Quarantine(m, now, uncertainty, dm)
    case _ => m
  }

  /** Whether a direct message is upstream after a call, given whether one was before. */
  ghost predicate Flying(before: bool, c: Call) {
    c.Launched? || (before && !c.Accepted? && !c.Refused? && !c.Lost?)
  }

  /** Messages are launched one at a time, with no quarantine left, and only into a free slot. */
  ghost predicate CallOk(m: Radio, flying: bool, c: Call) {
    match c
    case Checked(_) => !flying
    case Launched(now) => !flying && m.until.None? && FreeSlot(m.ring, now)
    case Accepted(_, _, now) => flying && FreeSlot(m.ring, now)
    case Refused => flying
    case Confirmed(_) => true
    case Lost(_, dm) => dm == flying
  }

  /** The state a history of calls leads to. */
  ghost function Replay(log: seq<Call>, uncertainty: Time): (m: Radio)
    ensures RadioOk(m)
  {
    if log == [] then FreshRadio() else Apply(Replay(log[..|log| - 1], uncertainty), log[|log| - 1], uncertainty)
  }

  ghost predicate InFlight(log: seq<Call>) {
    log != [] && Flying(InFlight(log[..|log| - 1]), log[|log| - 1])
  }

  ghost predicate LogOk(log: seq<Call>, uncertainty: Time) {
    log == [] ||
    var before := log[..|log| - 1];
    LogOk(before, uncertainty) && CallOk(Replay(before, uncertainty), InFlight(before), log[|log| - 1])
  }

  lemma CallExtends(log: seq<Call>, c: Call, uncertainty: Time)
    requires LogOk(log, uncertainty) && CallOk(Replay(log, uncertainty), InFlight(log), c)
    ensures LogOk(log + [c], uncertainty)
    ensures Replay(log + [c], uncertainty) == Apply(Replay(log, uncertainty), c, uncertainty)
    ensures InFlight(log + [c]) == Flying(InFlight(log), c)
  {
    assert (log + [c])[..|log|] == log;
  }
}
