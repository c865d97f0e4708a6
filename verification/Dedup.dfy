/** Bounded memory of recently received texts: a queue of identities, and a set that mirrors it. */
module Dedup {
  import opened Wire
  import opened TextIdentity

  const CAPACITY: nat := 1024

  predicate Duplicate(seen: seq<string>, p: Bytes) {
    Identity(p).Some? && Identity(p).value in seen
  }

  function Remember(seen: seq<string>, p: Bytes): seq<string> {
    if Identity(p).None? || Duplicate(seen, p) then seen
    else (if |seen| >= CAPACITY then seen[1..] else seen) + [Identity(p).value]
  }

  // ----- A sliding window -----

  ghost predicate NoRepeats(q: seq<string>) {
    forall i, j | 0 <= i < j < |q| :: q[i] != q[j]
  }

  /** The memory after a history of payloads. */
  ghost function Memory(ps: seq<Bytes>): seq<string> {
    if ps == [] then [] else Remember(Memory(ps[..|ps| - 1]), ps[|ps| - 1])
  }

  /** Every identity ever recorded, in order. */
  ghost function Recorded(ps: seq<Bytes>): seq<string> {
    if ps == [] then []
    else
      var before := ps[..|ps| - 1];
      var p := ps[|ps| - 1];
      Recorded(before) + (if Identity(p).Some? && !Duplicate(Memory(before), p) then [Identity(p).value] else [])
  }

  ghost function Window(h: seq<string>): seq<string> {
    if |h| <= CAPACITY then h else h[|h| - CAPACITY..]
  }

  /** The memory is the last identities recorded, without repeats. */
  lemma {:induction false} MemoryIsAWindow(ps: seq<Bytes>)
    ensures Memory(ps) == Window(Recorded(ps))
    ensures NoRepeats(Memory(ps)) && |Memory(ps)| <= CAPACITY
    decreases |ps|
  {
    hide Identity, Memory, Recorded, Remember, Duplicate, Window, NoRepeats;
    if ps == [] {
      NothingRemembered();
    } else {
      var before := ps[..|ps| - 1];
      MemoryIsAWindow(before);
      RememberSlides(Recorded(before), Memory(before), ps[|ps| - 1]);
      LastMemory(ps);
      assert Recorded(before) + [] == Recorded(before);
    }
  }

  lemma NothingRemembered()
    ensures Memory([]) == Window(Recorded([])) && NoRepeats(Memory([])) && |Memory([])| <= CAPACITY
  {
  }

  lemma LastMemory(ps: seq<Bytes>)
    requires ps != []
    ensures var before := ps[..|ps| - 1];
            var p := ps[|ps| - 1];
            && Memory(ps) == Remember(Memory(before), p)
            && Recorded(ps) ==
               Recorded(before) +
               (if Identity(p).Some? && !Duplicate(Memory(before), p) then [Identity(p).value] else [])
  {
    hide Remember, Duplicate, Identity;
  }

  lemma RememberSlides(h: seq<string>, m: seq<string>, p: Bytes)
    requires m == Window(h) && NoRepeats(m) && |m| <= CAPACITY
    ensures NoRepeats(Remember(m, p)) && |Remember(m, p)| <= CAPACITY
    ensures Identity(p).None? || Duplicate(m, p) ==> Remember(m, p) == m
    ensures Identity(p).Some? && !Duplicate(m, p) ==> Remember(m, p) == Window(h + [Identity(p).value])
  {
    hide Identity;
    if Identity(p).Some? && !Duplicate(m, p) {
      var x := Identity(p).value;
      assert forall i | 0 <= i < |m| :: m[i] != x;
      if |h| >= CAPACITY {
        assert (h + [x])[|h| + 1 - CAPACITY..] == h[|h| - CAPACITY..][1..] + [x];
      }
    }
  }

  /** A text is called a duplicate exactly when the same text is among the last identities recorded. */
  lemma DuplicateMeansSeenRecently(ps: seq<Bytes>, p: Bytes)
    ensures Duplicate(Memory(ps), p) <==>
              && Identity(p).Some?
              && exists i | 0 <= i < |Recorded(ps)| && i >= |Recorded(ps)| - CAPACITY ::
                   Recorded(ps)[i] == Identity(p).value
  {
    hide Identity, Memory, Recorded;
    MemoryIsAWindow(ps);
    var h := Recorded(ps);
    var start := if |h| <= CAPACITY then 0 else |h| - CAPACITY;
    assert forall i | 0 <= i < |Window(h)| :: Window(h)[i] == h[start + i];
    if Duplicate(Memory(ps), p) {
      var i :| 0 <= i < |Window(h)| && Window(h)[i] == Identity(p).value;
      assert h[start + i] == Identity(p).value;
    }
    if i :| 0 <= i < |h| && i >= |h| - CAPACITY && Identity(p).Some? && h[i] == Identity(p).value {
      assert Window(h)[i - start] == Identity(p).value;
    }
  }

  // ----- The object -----

  /** The set is consulted, the queue decides what to forget. */
  class Deduplicator {
    var seen: set<string>
    var order: seq<string>

    ghost predicate Valid()
      reads this
    {
      && NoRepeats(order) && |order| <= CAPACITY
      && (forall x :: x in seen <==> x in order)
    }

    constructor ()
      ensures Valid() && order == []
    {
      seen := {};
      order := [];
    }

    method IsDuplicate(p: Bytes) returns (duplicate: bool)
      requires Valid()
      modifies this
      ensures Valid()
      ensures duplicate == Duplicate(old(order), p)
      ensures order == Remember(old(order), p)
    {
      var identity := Identity(p);
      if identity.None? {
        return false;
      }
      if identity.value in seen {
        return true;
      }
      assert forall i | 0 <= i < |order| :: order[i] != identity.value;
      if |order| >= CAPACITY {
        var oldest := order[0];
        assert forall i | 1 <= i < |order| :: order[i] != oldest;
        assert forall x :: x in order[1..] <==> x in order && x != oldest;
        seen := seen - {oldest};
        order := order[1..];
      }
      order := order + [identity.value];
      seen := seen + {identity.value};
      return false;
    }
  }
}
