/** Port-identified clients and their bounded, firmware-style offline queues. */
module Slots {
  import opened Wire

  /** `arrivals`, `taken` and `cleared` are history: every item offered to the slot, every item whose
      delivery was recorded, and how many items a change of companion identity discarded. */
  datatype Slot = Slot(
    queue: seq<Bytes>, attached: Option<int>, enqueued: nat, delivered: nat, evictions: nat, discards: nat,
    highWater: nat, arrivals: seq<Bytes>, taken: seq<Bytes>, cleared: nat)

  predicate IsChannel(p: Bytes) {
    p != [] && p[0] in {0x08, 0x11, 0x1b}
  }

  /** Index of the oldest channel-class item, or the length when there is none. */
  function OldestChannel(q: seq<Bytes>): (i: nat)
    ensures i <= |q|
    ensures i < |q| ==> IsChannel(q[i])
    ensures forall k | 0 <= k < i :: !IsChannel(q[k])
  {
    if q == [] then 0 else if IsChannel(q[0]) then 0 else 1 + OldestChannel(q[1..])
  }

  function Drop(q: seq<Bytes>, i: nat): (r: seq<Bytes>)
    requires i < |q|
    ensures |r| == |q| - 1
  {
    q[..i] + q[i + 1..]
  }

  function Append(s: Slot, p: Bytes): Slot {
    var queue := s.queue + [p];
    s.(queue := queue, enqueued := s.enqueued + 1, highWater := if s.highWater < |queue| then |queue| else s.highWater,
       arrivals := s.arrivals + [p])
  }

  predicate Discards(s: Slot, limit: nat) {
    |s.queue| >= limit && OldestChannel(s.queue) == |s.queue|
  }

  function Enqueue(s: Slot, p: Bytes, limit: nat): Slot {
    if |s.queue| < limit then Append(s, p)
    else
      var i := OldestChannel(s.queue);
      if i == |s.queue| then s.(discards := s.discards + 1, arrivals := s.arrivals + [p])
      else Append(s.(queue := Drop(s.queue, i), evictions := s.evictions + 1), p)
  }

  /** Removing the oldest item once output has accepted it. */
  function Take(s: Slot): Slot
    requires s.queue != []
  {
    s.(queue := s.queue[1..], delivered := s.delivered + 1, taken := s.taken + [s.queue[0]])
  }

  function Clear(s: Slot): Slot {
    s.(queue := [], attached := None, cleared := s.cleared + |s.queue|)
  }

  /** `a` is `b` with some elements left out. */
  ghost predicate Sub(a: seq<Bytes>, b: seq<Bytes>)
    decreases |b|
  {
    || a == []
    || (b != [] && a[|a| - 1] == b[|b| - 1] && Sub(a[..|a| - 1], b[..|b| - 1]))
    || (b != [] && Sub(a, b[..|b| - 1]))
  }

  /** Conservation, and order: what was delivered followed by what is queued is a subsequence of
      what arrived. */
  ghost predicate SlotOk(s: Slot) {
    && |s.arrivals| == s.enqueued + s.discards
    && s.enqueued == s.delivered + s.evictions + s.cleared + |s.queue|
    && |s.taken| == s.delivered
    && Sub(s.taken + s.queue, s.arrivals)
  }

  lemma {:induction false} SubSelf(a: seq<Bytes>, b: seq<Bytes>, x: Bytes)
    requires Sub(a, b)
    ensures Sub(a + [x], b + [x]) && Sub(a, b + [x])
  {
    assert (a + [x])[..|a|] == a;
    assert (b + [x])[..|b|] == b;
  }

  lemma {:induction false} SubDrop(a: seq<Bytes>, b: seq<Bytes>, i: nat)
    requires Sub(a, b) && i < |a|
    ensures Sub(Drop(a, i), b)
    decreases |b|
  {
    var n := |a| - 1;
    if b != [] && a[n] == b[|b| - 1] && Sub(a[..n], b[..|b| - 1]) {
      if i == n {
        assert Drop(a, i) == a[..n];
      } else {
        SubDrop(a[..n], b[..|b| - 1], i);
        assert Drop(a, i)[..n - 1] == Drop(a[..n], i);
      }
    } else {
      SubDrop(a, b[..|b| - 1], i);
    }
  }

  lemma AppendConserves(s: Slot, p: Bytes)
    requires SlotOk(s)
    ensures SlotOk(Append(s, p))
  {
    hide Sub;
    SubSelf(s.taken + s.queue, s.arrivals, p);
    assert s.taken + (s.queue + [p]) == s.taken + s.queue + [p];
  }

  lemma EvictConserves(s: Slot, i: nat)
    requires SlotOk(s) && i < |s.queue|
    ensures SlotOk(s.(queue := Drop(s.queue, i), evictions := s.evictions + 1))
  {
    hide Sub;
    SubDrop(s.taken + s.queue, s.arrivals, |s.taken| + i);
    assert Drop(s.taken + s.queue, |s.taken| + i) == s.taken + Drop(s.queue, i);
  }

  lemma EnqueueConserves(s: Slot, p: Bytes, limit: nat)
    requires SlotOk(s)
    ensures SlotOk(Enqueue(s, p, limit))
    ensures |s.queue| <= limit && limit > 0 ==> |Enqueue(s, p, limit).queue| <= limit
  {
    hide Sub;
    var i := OldestChannel(s.queue);
    if |s.queue| < limit {
      AppendConserves(s, p);
    } else if i == |s.queue| {
      SubSelf(s.taken + s.queue, s.arrivals, p);
    } else {
      EvictConserves(s, i);
      AppendConserves(s.(queue := Drop(s.queue, i), evictions := s.evictions + 1), p);
    }
  }

  /** Eviction takes the oldest channel item and nothing else. */
  lemma EnqueueEvictsOldestChannel(s: Slot, p: Bytes, limit: nat)
    requires limit > 0
    ensures var r := Enqueue(s, p, limit);
            if |s.queue| < limit then r.queue == s.queue + [p]
            else if forall k | 0 <= k < |s.queue| :: !IsChannel(s.queue[k]) then r.queue == s.queue
            else exists i | 0 <= i < |s.queue| ::
                   && IsChannel(s.queue[i]) && (forall k | 0 <= k < i :: !IsChannel(s.queue[k]))
                   && r.queue == s.queue[..i] + s.queue[i + 1..] + [p]
  {
    var i := OldestChannel(s.queue);
    if |s.queue| >= limit && i < |s.queue| {
      assert IsChannel(s.queue[i]);
    }
  }

  lemma TakeConserves(s: Slot)
    requires SlotOk(s) && s.queue != []
    ensures SlotOk(Take(s))
  {
    assert s.taken + [s.queue[0]] + s.queue[1..] == s.taken + s.queue;
  }

  lemma {:induction false} SubPrefix(a: seq<Bytes>, n: nat, b: seq<Bytes>)
    requires Sub(a, b) && n <= |a|
    ensures Sub(a[..n], b)
    decreases |a|
  {
    if n == |a| {
      assert a[..n] == a;
    } else {
      SubDrop(a, b, |a| - 1);
      assert Drop(a, |a| - 1)[..n] == a[..n];
      SubPrefix(Drop(a, |a| - 1), n, b);
    }
  }

  lemma ClearConserves(s: Slot)
    requires SlotOk(s)
    ensures SlotOk(Clear(s))
  {
    SubPrefix(s.taken + s.queue, |s.taken|, s.arrivals);
    assert (s.taken + s.queue)[..|s.taken|] == s.taken + [];
  }

  // ----- The object -----

  datatype EnqueueResult = Added | ChannelEvicted | NewMessageDiscarded

  class DedicatedClientSlot {
    var queue: seq<Bytes>
    var attached: Option<int>
    var enqueued: nat
    var delivered: nat
    var evictions: nat
    var discards: nat
    var highWater: nat
    ghost var arrivals: seq<Bytes>
    ghost var taken: seq<Bytes>
    ghost var cleared: nat

    ghost function View(): Slot
      reads this
    {
      Slot(queue, attached, enqueued, delivered, evictions, discards, highWater, arrivals, taken, cleared)
    }

    ghost predicate Valid()
      reads this
    {
      SlotOk(View())
    }

    constructor ()
      ensures Valid() && queue == [] && attached == None && arrivals == [] && taken == []
    {
      queue, attached, enqueued, delivered, evictions, discards, highWater := [], None, 0, 0, 0, 0, 0;
      arrivals, taken, cleared := [], [], 0;
    }

    /** At capacity the oldest channel-class item makes way; without one the new item is dropped. */
    method EnqueueOffline(payload: Bytes, limit: nat) returns (result: EnqueueResult)
      requires Valid()
      modifies this
      ensures Valid() && View() == Enqueue(old(View()), payload, limit)
      ensures result == if |old(queue)| < limit then Added
                        else if Discards(old(View()), limit) then NewMessageDiscarded else ChannelEvicted
    {
      hide SlotOk;
      EnqueueConserves(View(), payload, limit);
      result := Added;
      ghost var was := queue;
      if |queue| >= limit {
        var i := 0;
        while i < |queue| && !IsChannel(queue[i])
          invariant i <= |queue| && forall k | 0 <= k < i :: !IsChannel(queue[k])
        {
          i := i + 1;
        }
        assert i == OldestChannel(queue);
        if i == |queue| {
          discards := discards + 1;
          arrivals := arrivals + [payload];
          return NewMessageDiscarded;
        }
        queue := queue[..i] + queue[i + 1..];
        evictions := evictions + 1;
        result := ChannelEvicted;
      }
      queue := queue + [payload];
      enqueued := enqueued + 1;
      highWater := if highWater < |queue| then |queue| else highWater;
      arrivals := arrivals + [payload];
    }

    /** The oldest item leaves once output has accepted it. */
    method RecordDelivery() returns (item: Bytes)
      requires Valid() && queue != []
      modifies this
      ensures Valid() && item == old(queue[0]) && View() == Take(old(View()))
    {
      TakeConserves(View());
      item := queue[0];
      queue := queue[1..];
      delivered := delivered + 1;
      taken := taken + [item];
    }

    method Discard() returns (count: nat)
      requires Valid()
      modifies this
      ensures Valid() && count == |old(queue)| && View() == Clear(old(View()))
    {
      ClearConserves(View());
      count := |queue|;
      cleared := cleared + count;
      queue := [];
      attached := None;
    }
  }
}
