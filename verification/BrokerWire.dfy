/** How the upstream history grows. */
module BrokerWire {
  import opened Wire
  import opened Protocol
  import opened Broker
  import opened BrokerInvariant
  import opened BrokerClients

  lemma Asking(t: Table, w: seq<WireEvent>, frame: Bytes, j: Job)
    requires Disciplined(t, w) && Owed(t, w).None? && WantOk(t, j)
    requires j.kind.ClientCommand? || j.kind.Pop? ==> PhysicalScope(w) == j.want
    ensures Disciplined(t, w + [Asked(frame, j)])
    ensures Owed(t, w + [Asked(frame, j)]) == Some(j)
    ensures PhysicalScope(w + [Asked(frame, j)]) == PhysicalScope(w)
  {
    assert (w + [Asked(frame, j)])[..|w|] == w;
  }

  lemma Getting(t: Table, w: seq<WireEvent>, p: Bytes)
    requires Disciplined(t, w)
    ensures Disciplined(t, w + [Got(p)])
    ensures Owed(t, w + [Got(p)]) ==
            (if Owed(t, w).Some? && Final(t, Owed(t, w).value, p) then None else Owed(t, w))
    ensures PhysicalScope(w + [Got(p)]) ==
            (if w != [] && w[|w| - 1].Asked? && p == OK
             && (w[|w| - 1].job.kind.SetScope? || w[|w| - 1].job.kind.ResetScope?)
             then w[|w| - 1].frame else PhysicalScope(w))
  {
    assert (w + [Got(p)])[..|w|] == w;
  }

  lemma DueGrows(t: Table, w: seq<WireEvent>, e: WireEvent, id: int)
    ensures Due(t, w + [e], id) == Due(t, w, id) + (if e.Got? && DueTo(t, w, e.payload, id) then [|w|] else [])
  {
    assert (w + [e])[..|w|] == w;
  }

  lemma OutGrows(t: Table, w: seq<WireEvent>, e: WireEvent, sent: seq<Out>, i: nat, id: int)
    requires i < |sent| && OutOk(t, w, sent, i, id)
    ensures OutOk(t, w + [e], sent, i, id)
  {
    hide DueTo, Final, ResultDue, Downgrade, TargetOf, Owed;
    var o := sent[i];
    if o.role.Answer? && o.role.cause.Reply? {
      assert (w + [e])[..o.role.cause.k] == w[..o.role.cause.k];
    }
    if o.role.Part? {
      assert (w + [e])[..o.role.cause.k] == w[..o.role.cause.k];
    }
  }

  /** The history grows by something that session need not see. */
  lemma SentStays(t: Table, w: seq<WireEvent>, e: WireEvent, sent: seq<Out>, id: int)
    requires SentOk(t, w, sent, id) && (e.Got? ==> !DueTo(t, w, e.payload, id))
    ensures SentOk(t, w + [e], sent, id)
  {
    hide OutOk;
    DueGrows(t, w, e, id);
    forall i | 0 <= i < |sent|
      ensures OutOk(t, w + [e], sent, i, id)
    {
      OutGrows(t, w, e, sent, i, id);
    }
  }

  /** The history grows by a reply, and the session is sent it. */
  lemma SentRelays(t: Table, w: seq<WireEvent>, p: Bytes, sent: seq<Out>, id: int, o: Out)
    requires SentOk(t, w, sent, id) && DueTo(t, w, p, id)
    requires IsRelay(o) && o.role.cause.k == |w| && OutOk(t, w + [Got(p)], sent + [o], |sent|, id)
    ensures SentOk(t, w + [Got(p)], sent + [o], id)
  {
    hide OutOk;
    DueGrows(t, w, Got(p), id);
    RelaysGrow(sent, o);
    forall i | 0 <= i < |sent + [o]|
      ensures OutOk(t, w + [Got(p)], sent + [o], i, id)
    {
      if i < |sent| {
        OutGrows(t, w, Got(p), sent, i, id);
        OutStays(t, w + [Got(p)], sent, i, id, o);
      }
    }
  }

  lemma OutsGrow(t: Table, sessions: map<int, Session>, w: seq<WireEvent>, e: WireEvent)
    requires OutsOk(t, sessions, w) && (e.Got? ==> forall id | id in sessions :: !DueTo(t, w, e.payload, id))
    ensures OutsOk(t, sessions, w + [e])
  {
    hide SentOk, DueTo;
    forall id | id in sessions
      ensures SentOk(t, w + [e], sessions[id].log.sent, id)
    {
      SentStays(t, w, e, sessions[id].log.sent, id);
    }
  }

  /** One reply, and perhaps the next question. */
  ghost predicate Extends(w: seq<WireEvent>, p: Bytes, w': seq<WireEvent>) {
    w' == w + [Got(p)] || (|w'| == |w| + 2 && w'[|w| + 1].Asked? && w' == w + [Got(p)] + [w'[|w| + 1]])
  }

  lemma OutsExtend(t: Table, sessions: map<int, Session>, w: seq<WireEvent>, p: Bytes, w': seq<WireEvent>)
    requires OutsOk(t, sessions, w) && Extends(w, p, w') && (forall id | id in sessions :: !DueTo(t, w, p, id))
    ensures OutsOk(t, sessions, w')
  {
    hide OutsOk, DueTo;
    OutsGrow(t, sessions, w, Got(p));
    if |w'| == |w| + 2 {
      OutsGrow(t, sessions, w + [Got(p)], w'[|w| + 1]);
    }
  }

  lemma SentExtends(t: Table, w: seq<WireEvent>, p: Bytes, w': seq<WireEvent>, sent: seq<Out>, id: int)
    requires SentOk(t, w + [Got(p)], sent, id) && Extends(w, p, w')
    ensures SentOk(t, w', sent, id)
  {
    hide SentOk;
    if |w'| == |w| + 2 {
      SentStays(t, w + [Got(p)], w'[|w| + 1], sent, id);
    }
  }
}
