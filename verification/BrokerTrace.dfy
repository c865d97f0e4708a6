/**
 The histories kept in the state are the real ones: every frame recorded as sent to a session or
 upstream is a frame of the action stream, every popped item was offered to every dedicated
 slot, and what a dedicated session was sent is what its slot counts as delivered.
 */
module BrokerTrace {
  import opened Wire
  import opened Protocol
  import opened Leases
  import opened Slots
  import opened Broker
  import opened BrokerInvariant
  import AckRing
  import Dedup

  /** The frames handed to the writer of that endpoint; 0 is the companion. */
  ghost function Frames(actions: seq<Action>, id: int): seq<Bytes> {
    if actions == [] then []
    else
      var last := actions[|actions| - 1];
      Frames(actions[..|actions| - 1], id) + (if last.SendFrame? && last.session == id then [last.payload] else [])
  }

  ghost function SentFrames(sent: seq<Out>): seq<Bytes> {
    if sent == [] then [] else SentFrames(sent[..|sent| - 1]) + [sent[|sent| - 1].payload]
  }

  ghost function AskedFrames(w: seq<WireEvent>): seq<Bytes> {
    if w == [] then []
    else
      var last := w[|w| - 1];
      AskedFrames(w[..|w| - 1]) + (if last.Asked? then [last.frame] else [])
  }

  ghost predicate Voiced(actions: seq<Action>, sessions: map<int, Session>, wire: seq<WireEvent>) {
    && 0 !in sessions
    && Frames(actions, 0) == AskedFrames(wire)
    && (forall id | id in sessions :: Frames(actions, id) == SentFrames(sessions[id].log.sent))
  }

  /** `rest` holds the slots the newest item has not been offered to so far. */
  ghost predicate Offered(slots: map<int, Slot>, pops: seq<Bytes>, rest: seq<int>) {
    && (rest != [] ==> pops != [])
    && (forall d | d in slots :: slots[d].arrivals == if d in rest then pops[..|pops| - 1] else pops)
  }

  ghost predicate TiedTo(slots: map<int, Slot>, c: Session) {
    c.slot.Some? && c.slot.value in slots ==>
      c.log.joined <= |slots[c.slot.value].taken| && slots[c.slot.value].taken[c.log.joined..] == c.log.taken
  }

  /** Each slot serves one session at a time. */
  ghost predicate Tied(slots: map<int, Slot>, sessions: map<int, Session>) {
    && (forall id | id in sessions :: TiedTo(slots, sessions[id]))
    && (forall a, b | a in sessions && b in sessions && sessions[a].slot.Some? ::
          sessions[a].slot == sessions[b].slot ==> a == b)
  }

  ghost predicate Hist(s: State, rest: seq<int>) {
    && Voiced(s.actions, s.sessions, s.up.wire)
    && Offered(s.slots, s.pops, rest)
    && Tied(s.slots, s.sessions)
  }

  // ----- Primitive changes -----

  lemma FramesGrow(actions: seq<Action>, a: Action, id: int)
    ensures Frames(actions + [a], id) ==
            Frames(actions, id) + (if a.SendFrame? && a.session == id then [a.payload] else [])
  {
    assert (actions + [a])[..|actions|] == actions;
  }

  lemma SentFramesGrow(sent: seq<Out>, o: Out)
    ensures SentFrames(sent + [o]) == SentFrames(sent) + [o.payload]
  {
    assert (sent + [o])[..|sent|] == sent;
  }

  lemma AskedFramesGrow(w: seq<WireEvent>, e: WireEvent)
    ensures AskedFrames(w + [e]) == AskedFrames(w) + (if e.Asked? then [e.frame] else [])
  {
    assert (w + [e])[..|w|] == w;
  }

  /** Nothing a history speaks about has changed. */
  ghost predicate Alike(s: State, r: State) {
    && r.sessions == s.sessions && r.actions == s.actions && r.up.wire == s.up.wire
    && r.slots == s.slots && r.pops == s.pops
  }

  lemma AlikeTraced(s: State, r: State, rest: seq<int>)
    requires Hist(s, rest) && Alike(s, r)
    ensures Hist(r, rest)
  {
  }

  /** A session changed in nothing a history speaks about. */
  ghost predicate Twin(c: Session, c': Session) {
    c'.slot == c.slot && c'.log.sent == c.log.sent && c'.log.taken == c.log.taken && c'.log.joined == c.log.joined
  }

  lemma PutTraced(s: State, id: int, c': Session, rest: seq<int>)
    requires Hist(s, rest) && id in s.sessions && Twin(s.sessions[id], c')
    ensures Hist(Put(s, id, c'), rest)
  {
    hide Frames, SentFrames, AskedFrames;
  }

  lemma WriteVoiced(s: State, id: int, o: Out)
    requires Voiced(s.actions, s.sessions, s.up.wire) && id in s.sessions
    ensures Voiced(Write(s, id, o).actions, Write(s, id, o).sessions, s.up.wire)
  {
    var r := Write(s, id, o);
    hide Aside, Only, Frames, SentFrames, AskedFrames;
    var a := SendFrame(id, s.nextWrite + 1, o.payload);
    SentFramesGrow(s.sessions[id].log.sent, o);
    FramesGrow(s.actions, a, 0);
    forall x | x in r.sessions
      ensures Frames(r.actions, x) == SentFrames(r.sessions[x].log.sent)
    {
      FramesGrow(s.actions, a, x);
    }
  }

  lemma WriteTraced(s: State, id: int, o: Out, rest: seq<int>)
    requires Hist(s, rest) && id in s.sessions
    ensures Hist(Write(s, id, o), rest)
  {
    hide Frames, SentFrames, AskedFrames, Voiced, Aside, Only;
    WriteVoiced(s, id, o);
  }

  lemma DetachTraced(s: State, id: int, rest: seq<int>)
    requires Hist(s, rest) && id in s.sessions
    ensures Hist(Detach(s, id), rest)
  {
    hide Frames, SentFrames, AskedFrames, Aside, Only;
    var r := Detach(s, id);
    FramesGrow(s.actions, CloseSession(id), 0);
    forall x | x in r.sessions
      ensures Frames(r.actions, x) == SentFrames(r.sessions[x].log.sent)
    {
      FramesGrow(s.actions, CloseSession(id), x);
    }
  }

  lemma CloseTraced(s: State, a: Action, rest: seq<int>)
    requires Hist(s, rest) && !a.SendFrame?
    ensures Hist(s.(actions := s.actions + [a]), rest)
  {
    hide SentFrames, AskedFrames, Frames;
    FramesGrow(s.actions, a, 0);
    forall x | x in s.sessions
      ensures Frames(s.actions + [a], x) == SentFrames(s.sessions[x].log.sent)
    {
      FramesGrow(s.actions, a, x);
    }
  }

  lemma SendStepTraced(s: State, t: Txn, step: Step, frame: Bytes, kind: JobKind, rest: seq<int>)
    requires Hist(s, rest)
    ensures Hist(SendStep(s, t, step, frame, kind), rest)
  {
    hide SentFrames, Frames, AskedFrames;
    var r := SendStep(s, t, step, frame, kind);
    var a := SendFrame(0, s.nextWrite + 1, frame);
    AskedFramesGrow(s.up.wire, Asked(frame, Job(kind, t.owner, t.command, t.want)));
    FramesGrow(s.actions, a, 0);
    forall x | x in s.sessions
      ensures Frames(r.actions, x) == SentFrames(s.sessions[x].log.sent)
    {
      FramesGrow(s.actions, a, x);
    }
  }

  lemma HeardTraced(s: State, p: Bytes, rest: seq<int>)
    requires Hist(s, rest)
    ensures Hist(Heard(s, p), rest)
  {
    hide SentFrames, Frames, AskedFrames;
    AskedFramesGrow(s.up.wire, Got(p));
  }

  // ----- Leaving and failing -----

  lemma {:induction false} DetachAllTraced(s: State, ids: seq<int>, rest: seq<int>)
    requires Hist(s, rest)
    ensures Hist(DetachAll(s, ids), rest)
    decreases |ids|
  {
    hide Hist, Detach;
    if ids != [] {
      if ids[0] in s.sessions {
        DetachTraced(s, ids[0], rest);
      }
      DetachAllTraced(if ids[0] in s.sessions then Detach(s, ids[0]) else s, ids[1..], rest);
    }
  }

  lemma FailTraced(s: State, rest: seq<int>)
    requires Hist(s, rest)
    ensures Hist(FailEpoch(s), rest)
  {
    hide Hist, DetachAll, AfterLoss, DebtAfter, SigningOwnerGone, Near, Aside;
    if !s.failed {
      var t := s.up.active;
      var marked := s.(failed := true, debt := DebtAfter(s.debt, t),
                       radio := AfterLoss(s.radio, t, s.now, s.cfg.uncertaintyTimeout));
      AlikeTraced(s, marked, rest);
      DetachAllTraced(marked, marked.ids, rest);
      var empty := DetachAll(marked, marked.ids);
      CloseTraced(empty, EndEpoch, rest);
      AlikeTraced(empty.(actions := empty.actions + [EndEpoch]), FailEpoch(s), rest);
    }
  }

  lemma FinishTraced(s: State, t: Txn, rest: seq<int>)
    requires Hist(s, rest)
    ensures Hist(Finish(s, t), rest)
  {
    hide Hist, FailEpoch, SigningOwnerGone;
    var released := s.(up := s.up.(active := None),
                       signing := if t.owner in s.sessions then s.signing else SigningOwnerGone(s.signing, t.owner));
    AlikeTraced(s, released, rest);
    FailTraced(released, rest);
  }

  lemma RemoveTraced(s: State, id: int, rest: seq<int>)
    requires Hist(s, rest)
    ensures Hist(Remove(s, id), rest)
  {
    hide Hist, Detach, Finish;
    if id in s.sessions {
      DetachTraced(s, id, rest);
      var gone := Detach(s, id);
      if AwaitingResultWrite(gone, id) {
        FinishTraced(gone, gone.up.active.value, rest);
      }
    }
  }

  // ----- Output -----

  lemma EmitTraced(s: State, id: int, o: Out, rest: seq<int>)
    requires Hist(s, rest)
    ensures Hist(Emit(s, id, o), rest)
  {
    hide Hist, Remove, Write;
    if HasRoom(s, id) {
      WriteTraced(s, id, o, rest);
    } else {
      RemoveTraced(s, id, rest);
    }
  }

  lemma HintTraced(s: State, id: int, rest: seq<int>)
    requires Hist(s, rest)
    ensures Hist(Hint(s, id), rest)
  {
    hide Hist, Remove, Aside, Only;
    if id in s.sessions && s.sessions[id].hint.None? {
      if HasRoom(s, id) {
        var r := Write(s, id, Out(WAITING, Notice));
        WriteTraced(s, id, Out(WAITING, Notice), rest);
        PutTraced(r, id, r.sessions[id].(hint := Some(r.nextWrite)), rest);
      } else {
        RemoveTraced(s, id, rest);
      }
    }
  }

  lemma {:induction false} HintAllTraced(s: State, ids: seq<int>, rest: seq<int>)
    requires Hist(s, rest)
    ensures Hist(HintAll(s, ids), rest)
    decreases |ids|
  {
    hide Hist, Hint;
    if ids != [] {
      HintTraced(s, ids[0], rest);
      HintAllTraced(Hint(s, ids[0]), ids[1..], rest);
    }
  }

  lemma {:induction false} BroadcastTraced(s: State, ids: seq<int>, p: Bytes, rest: seq<int>)
    requires Hist(s, rest)
    ensures Hist(Broadcast(s, ids, p), rest)
    decreases |ids|
  {
    hide Hist, Emit;
    if ids != [] {
      EmitTraced(s, ids[0], Out(p, Notice), rest);
      BroadcastTraced(Emit(s, ids[0], Out(p, Notice)), ids[1..], p, rest);
    }
  }

  /** A session taken out of its queue and answered. */
  lemma AnswerTraced(s: State, id: int, c: Session, o: Out, rest: seq<int>)
    requires Hist(s, rest) && id in s.sessions && Twin(s.sessions[id], c)
    ensures Hist(Emit(Put(s, id, c), id, o), rest)
  {
    hide Hist, Emit;
    PutTraced(s, id, c, rest);
    EmitTraced(Put(s, id, c), id, o, rest);
  }

  // ----- Inboxes -----

  lemma ConsumeTraced(s: State, id: int, rest: seq<int>)
    requires Hist(s, rest) && id in s.sessions
    ensures Hist(Consume(s, id), rest)
  {
    hide Frames, SentFrames, AskedFrames, Aside, Only;
    var c := s.sessions[id];
    if c.slot.Some? && c.slot.value in s.slots && s.slots[c.slot.value].queue != [] {
      var d := c.slot.value;
      var slot := s.slots[d];
      assert (slot.taken + [slot.queue[0]])[c.log.joined..] == slot.taken[c.log.joined..] + [slot.queue[0]];
    }
  }

  lemma DeliverTraced(s: State, id: int, command: Bytes, rest: seq<int>)
    requires Hist(s, rest) && id in s.sessions
    ensures Hist(Deliver(s, id, command), rest)
  {
    hide Hist, Consume, Remove, Aside, Only, Downgrade;
    var q := InboxOf(s, id);
    if q == [] || !s.cfg.table.responseShape(q[0]) {
      AlikeTraced(s, s.(fault := true), rest);
    } else if HasRoom(s, id) {
      var o := Out(Downgrade(q[0], s.sessions[id].target), Answer(command, FromInbox(q[0])));
      WriteTraced(s, id, o, rest);
      ConsumeTraced(Write(s, id, o), id, rest);
    } else {
      RemoveTraced(s, id, rest);
    }
  }

  lemma EnqueueMultiTraced(s: State, id: int, p: Bytes, rest: seq<int>)
    requires Hist(s, rest)
    ensures Hist(EnqueueMulti(s, id, p), rest)
  {
    hide Hist, Deliver, Remove, Hint, Aside, Only;
    if id in s.sessions {
      var c := s.sessions[id];
      if |c.inbox| >= s.cfg.inboxEntries {
        RemoveTraced(s, id, rest);
      } else {
        var r := Put(s, id, Enqueued(c, p).(sync := None));
        PutTraced(s, id, Enqueued(c, p).(sync := None), rest);
        if c.sync.Some? {
          DeliverTraced(r, id, c.sync.value.command, rest);
        } else {
          HintTraced(r, id, rest);
        }
      }
    }
  }

  lemma {:induction false} EnqueueAllTraced(s: State, ids: seq<int>, p: Bytes, rest: seq<int>)
    requires Hist(s, rest)
    ensures Hist(EnqueueAll(s, ids, p), rest)
    decreases |ids|
  {
    hide Hist, EnqueueMulti;
    if ids != [] {
      EnqueueMultiTraced(s, ids[0], p, rest);
      EnqueueAllTraced(EnqueueMulti(s, ids[0], p), ids[1..], p, rest);
    }
  }

  lemma OfferedOne(s: State, d: int, p: Bytes, rest: seq<int>)
    requires Hist(s, [d] + rest) && d !in rest && d in s.slots && s.pops[|s.pops| - 1] == p
    ensures Hist(s.(slots := s.slots[d := Enqueue(s.slots[d], p, s.cfg.offlineQueueSize)]), rest)
  {
    hide Frames, SentFrames, AskedFrames;
    var slot := Enqueue(s.slots[d], p, s.cfg.offlineQueueSize);
    assert slot.arrivals == s.slots[d].arrivals + [p] && slot.taken == s.slots[d].taken;
    assert s.pops == s.pops[..|s.pops| - 1] + [p];
    hide Enqueue;
  }

  lemma NotOffered(s: State, d: int, rest: seq<int>)
    requires Hist(s, [d] + rest) && d !in s.slots
    ensures Hist(s, rest)
  {
    hide Frames, SentFrames, AskedFrames;
  }

  lemma OfferSlotTraced(s: State, d: int, p: Bytes, rest: seq<int>)
    requires Hist(s, [d] + rest) && d !in rest && s.pops != [] && s.pops[|s.pops| - 1] == p
    ensures Hist(OfferSlot(s, d, p), rest)
  {
    hide Hist, Deliver, Remove, Hint, Aside, Only, Enqueue, Discards;
    if d !in s.slots {
      NotOffered(s, d, rest);
    } else {
      OfferedOne(s, d, p, rest);
      var was := s.slots[d];
      var r := s.(slots := s.slots[d := Enqueue(was, p, s.cfg.offlineQueueSize)]);
      if was.attached.Some? && was.attached.value in s.sessions {
        var id := was.attached.value;
        var c := s.sessions[id];
        if c.sync.Some? {
          PutTraced(r, id, c.(sync := None), rest);
          DeliverTraced(Put(r, id, c.(sync := None)), id, c.sync.value.command, rest);
        } else {
          HintTraced(r, id, rest);
        }
      }
    }
  }

  lemma {:induction false} FanOutTraced(s: State, ds: seq<int>, p: Bytes)
    requires Hist(s, ds) && Distinct(ds) && s.pops != [] && s.pops[|s.pops| - 1] == p
    ensures Hist(FanOut(s, ds, p), [])
    decreases |ds|
  {
    hide Hist, OfferSlot;
    if ds != [] {
      assert ds == [ds[0]] + ds[1..];
      OfferSlotTraced(s, ds[0], p, ds[1..]);
      FanOutTraced(OfferSlot(s, ds[0], p), ds[1..], p);
    }
  }

  lemma {:induction false} SettleEmptyTraced(s: State, ids: seq<int>, t: Txn, rest: seq<int>)
    requires Hist(s, rest)
    ensures Hist(SettleEmpty(s, ids, t), rest)
    decreases |ids|
  {
    hide Hist, Emit;
    if ids != [] {
      var id := ids[0];
      if id in s.sessions && s.sessions[id].sync.Some? && s.sessions[id].sync.value.minimumPop <= t.popSeq {
        var c := s.sessions[id];
        AnswerTraced(s, id, c.(sync := None),
                     Out(NO_MORE, Answer(c.sync.value.command, Empty(c.sync.value.registered, t.born))), rest);
      }
      SettleEmptyTraced(SettleOne(s, id, t), ids[1..], t, rest);
    }
  }

  lemma NotedTraced(s: State, seen: seq<string>, p: Bytes)
    requires Hist(s, []) && forall d | d in s.slots :: d in s.cfg.slotIds
    ensures Hist(s.(radio := s.radio.(seen := seen, heard := s.radio.heard + [p]), pops := s.pops + [p]), s.cfg.slotIds)
  {
    hide Frames, SentFrames, AskedFrames;
    assert (s.pops + [p])[..|s.pops|] == s.pops;
  }

  lemma SetDrainTraced(s: State, requested: bool, authorized: bool)
    requires Hist(s, [])
    ensures Hist(SetDrain(s, requested, authorized), [])
  {
    hide Hist;
    AlikeTraced(s, SetDrain(s, requested, authorized), []);
  }

  lemma PopResultTraced(s: State, t: Txn, p: Bytes)
    requires Hist(s, []) && (forall d | d in s.slots :: d in s.cfg.slotIds) && Distinct(s.cfg.slotIds)
    ensures Hist(PopResult(s, t, p), [])
  {
    hide Hist, SettleEmpty, FanOut, EnqueueAll, Aside, Dedup.Duplicate, Dedup.Remember, SetDrain, MultiIds, AnySync;
    if Opcode(p) == RESP_NO_MORE_MESSAGES {
      SettleEmptyTraced(s, s.ids, t, []);
      var r := SettleEmpty(s, s.ids, t);
      var more := (r.drain.generation > t.generation || AnySync(r)) && r.sessions != map[];
      SetDrainTraced(r, more, more);
    } else if s.cfg.deduplicate && Dedup.Duplicate(s.radio.seen, p) {
      var noted := s.(radio := s.radio.(heard := s.radio.heard + [p]));
      AlikeTraced(s, noted, []);
      SetDrainTraced(noted, s.drain.authorized && s.sessions != map[], s.drain.authorized);
    } else {
      var seen := if s.cfg.deduplicate then Dedup.Remember(s.radio.seen, p) else s.radio.seen;
      NotedTraced(s, seen, p);
      var noted := s.(radio := s.radio.(seen := seen, heard := s.radio.heard + [p]), pops := s.pops + [p]);
      FanOutTraced(noted, s.cfg.slotIds, p);
      var r := FanOut(noted, s.cfg.slotIds, p);
      var multi := MultiIds(r, r.ids);
      EnqueueAllTraced(r, multi, p, []);
      AlikeTraced(r, r.(orphan := Some(p)), []);
      var r' := if multi == [] && t.hadMulti then r.(orphan := Some(p)) else EnqueueAll(r, multi, p);
      SetDrainTraced(r', r'.drain.authorized && r'.sessions != map[], r'.drain.authorized);
    }
  }

  // ----- Scheduling -----

  lemma RegisterTraced(s: State, id: int)
    requires Hist(s, []) && id in s.sessions && s.sessions[id].commands != []
    ensures Hist(Register(s, id), [])
  {
    hide Hist, Aside, Only;
    var r := Register(s, id);
    PutTraced(s, id, r.sessions[id], []);
    AlikeTraced(Put(s, id, r.sessions[id]), r, []);
  }

  lemma LocalHeadTraced(s: State, id: int)
    requires Hist(s, []) && id in s.sessions && s.sessions[id].commands != []
    ensures Hist(LocalHead(s, id), [])
  {
    hide Hist, Emit, Deliver, Decide, Register, InboxOf, Aside, Only;
    var c := s.sessions[id];
    var q := c.commands[0].payload;
    match Decide(s.cfg, c.commands[0], s.now)
    case Forward =>
    case Refuse(p) => AnswerTraced(s, id, Shift(c), Out(p, Answer(q, Local)), []);
    case Rescope => AnswerTraced(s, id, Shift(c).(scope := q), Out(OK, Answer(q, Local)), []);
    case Sync =>
      if InboxOf(s, id) == [] {
        RegisterTraced(s, id);
      } else {
        PutTraced(s, id, Shift(c), []);
        DeliverTraced(Put(s, id, Shift(c)), id, q, []);
      }
  }

  lemma {:induction false} LocalHeadsTraced(s: State, id: int, n: nat)
    requires Hist(s, [])
    ensures Hist(LocalHeads(s, id, n), [])
    decreases n
  {
    hide Hist, LocalHead, Decide;
    if n > 0 && !Idle(s, id) && !Decide(s.cfg, s.sessions[id].commands[0], s.now).Forward? {
      LocalHeadTraced(s, id);
      LocalHeadsTraced(LocalHead(s, id), id, n - 1);
    }
  }

  lemma {:induction false} LocalPassTraced(s: State, ids: seq<int>)
    requires Hist(s, [])
    ensures Hist(LocalPass(s, ids), [])
    decreases |ids|
  {
    hide Hist, LocalHeads;
    if ids != [] {
      var id := ids[0];
      if id !in s.sessions || s.sessions[id].sync.Some? || IsActiveOwner(s, id) {
        LocalPassTraced(s, ids[1..]);
      } else {
        LocalHeadsTraced(s, id, |s.sessions[id].commands|);
        LocalPassTraced(LocalHeads(s, id, |s.sessions[id].commands|), ids[1..]);
      }
    }
  }

  lemma DispatchTraced(s: State, owner: int, c: Bytes)
    requires Hist(s, [])
    ensures Hist(Dispatch(s, owner, c), [])
  {
    hide Hist, SendStep, NewTxn;
    if s.cfg.table.descriptor(c).None? {
      AlikeTraced(s, s.(fault := true), []);
    } else {
      var t := NewTxn(s, owner, c, s.cfg.table.descriptor(c).value);
      SendStepTraced(s, t, Setup, t.want, SetScope, []);
      SendStepTraced(s, t, Command, Forwarded(t.command), if t.owner == 0 then Pop else ClientCommand, []);
    }
  }

  lemma LaunchTraced(s: State, id: int)
    requires Hist(s, []) && id in s.sessions && s.sessions[id].commands != []
    ensures Hist(Launch(s, id), [])
  {
    hide Hist, Dispatch, Admission, Emit, Aside, Only;
    var c := s.sessions[id];
    var q := c.commands[0].payload;
    var v := Admission(s, id, q);
    var r := s.(radio := v.radio, signing := v.signing, fault := s.fault || v.fault);
    AlikeTraced(s, r, []);
    if v.reason.Some? {
      AnswerTraced(r, id, Shift(c), Out(Err(v.reason.value), Answer(q, Local)), []);
    } else {
      PutTraced(r, id, Shift(c), []);
      DispatchTraced(Put(r, id, Shift(c)), id, q);
    }
  }

  lemma ServeTraced(s: State, id: int)
    requires Hist(s, [])
    ensures Hist(Serve(s, id), [])
  {
    hide Hist, Dispatch, Launch;
    if id == 0 {
      var r := s.(drain := s.drain.(requested := false, popSeq := s.drain.popSeq + 1));
      AlikeTraced(s, r, []);
      DispatchTraced(r, 0, POP);
    } else if id in s.sessions && s.sessions[id].commands != [] {
      LaunchTraced(s, id);
    }
  }

  lemma {:induction false} RotateTraced(s: State, n: nat)
    requires Hist(s, [])
    ensures Hist(Rotate(s, n), [])
    decreases n
  {
    hide Hist, Serve;
    if n > 0 && s.order != [] {
      AlikeTraced(s, Turn(s), []);
      ServeTraced(Turn(s), s.order[0]);
      RotateTraced(Serve(Turn(s), s.order[0]), n - 1);
    }
  }

  lemma ScheduleTraced(s: State, now: Time)
    requires Hist(s, [])
    ensures Hist(Schedule(s, now), [])
  {
    hide Hist, LocalPass, Rotate, Aside;
    if !s.failed {
      var s1 := s.(now := now);
      AlikeTraced(s, s1, []);
      LocalPassTraced(s1, s1.ids);
      var s2 := LocalPass(s1, s1.ids);
      RotateTraced(s2, |s2.order|);
    }
  }

  // ----- Replies -----

  lemma ScopeResponseTraced(s: State, t: Txn, p: Bytes)
    requires Hist(s, [])
    ensures Hist(ScopeResponse(s, t, p), [])
  {
    hide Hist, FailEpoch, Emit, Finish, Abandon, SendStep;
    FailTraced(s, []);
    var t' := t.(progress := s.now);
    var r := SetActive(Heard(s, p), t');
    HeardTraced(s, p, []);
    AlikeTraced(Heard(s, p), r, []);
    FailTraced(r, []);
    FinishTraced(r, t', []);
    var a := r.(radio := Abandon(r.radio, t));
    AlikeTraced(r, a, []);
    var o := Out(p, Answer(t.command, Reply(|s.up.wire|)));
    EmitTraced(a, t.owner, o, []);
    FinishTraced(Emit(a, t.owner, o), t', []);
    SendStepTraced(r, t', Command, Forwarded(t'.command), if t'.owner == 0 then Pop else ClientCommand, []);
  }

  lemma CompleteTraced(s: State, t: Txn, p: Bytes, emitted: Option<int>)
    requires Hist(s, [])
    ensures Hist(CompleteCommand(s, t, p, emitted), [])
  {
    hide Hist, Outcome, SendStep, Finish;
    var r := RecordAcceptance(s, t, p);
    AlikeTraced(s, r, []);
    SendStepTraced(r, t, Restore, DEFAULT_SCOPE, ResetScope, []);
    AlikeTraced(r, SetActive(r, t.(step := MaintenanceResult, resultWrite := emitted)), []);
    FinishTraced(r, t, []);
  }

  lemma RelayingTraced(s: State, t: Txn, p: Bytes)
    requires Hist(s, [])
    ensures Hist(Relaying(s, t, p), [])
  {
    hide Hist;
    var r := SetActive(Heard(s, p), Progressed(t, p, s.now));
    HeardTraced(s, p, []);
    AlikeTraced(Heard(s, p), r, []);
    if t.owner in s.sessions && |t.command| >= 2 {
      PutTraced(r, t.owner, s.sessions[t.owner].(target := t.command[1]), []);
    }
  }

  lemma ClientReplyTraced(s: State, t: Txn, p: Bytes)
    requires Hist(s, [])
    ensures Hist(ClientReply(s, t, p), [])
  {
    hide Hist, Relaying, Emit, CompleteCommand, Relayed, Completes;
    RelayingTraced(s, t, p);
    var r := Relaying(s, t, p);
    EmitTraced(r, t.owner, Relayed(s, t, p), []);
    var e := Emit(r, t.owner, Relayed(s, t, p));
    CompleteTraced(e, Progressed(t, p, s.now), p, if HasRoom(r, t.owner) then Some(e.nextWrite) else None);
  }

  /** The slots are the configured ones. */
  ghost predicate SlotsKnown(s: State) {
    (forall d | d in s.slots :: d in s.cfg.slotIds) && Distinct(s.cfg.slotIds)
  }

  lemma CommandResponseTraced(s: State, t: Txn, p: Bytes)
    requires Hist(s, []) && SlotsKnown(s)
    ensures Hist(CommandResponse(s, t, p), [])
  {
    hide Hist, ClientReply, PopResult, FailEpoch, ValidResponse;
    FailTraced(s, []);
    ClientReplyTraced(s, t, p);
    HeardTraced(s, p, []);
    FailTraced(Heard(s, p), []);
    var h := Heard(s, p).(up := Heard(s, p).up.(active := None));
    AlikeTraced(Heard(s, p), h, []);
    PopResultTraced(h, t, p);
  }

  lemma TxnResponseTraced(s: State, p: Bytes)
    requires Hist(s, []) && SlotsKnown(s)
    ensures Hist(TxnResponse(s, p), [])
  {
    hide Hist, ScopeResponse, CommandResponse, FailEpoch;
    FailTraced(s, []);
    if s.up.active.Some? {
      var r := SettleWrite(s);
      AlikeTraced(s, r, []);
      var t := r.up.active.value;
      ScopeResponseTraced(r, t, p);
      FailTraced(r, []);
      CommandResponseTraced(r, t, p);
    }
  }

  // ----- Pushes and deadlines -----

  lemma PushTraced(s: State, p: Bytes, now: Time)
    requires Hist(s, []) && SlotsKnown(s)
    ensures Hist(Push(s, p, now), [])
  {
    hide Hist, HintAll, Broadcast, TxnResponse, Emit, MatchPush, SlotsKnown, U32;
    var noted := s.(drain := s.drain.(generation := s.drain.generation + 1,
                                      requested := s.drain.requested || s.drain.authorized));
    AlikeTraced(s, noted, []);
    HintAllTraced(noted, noted.ids, []);
    AlikeTraced(s, s.(fault := true), []);
    if |p| == 9 {
      var settled := s.(radio := s.radio.(air := s.radio.air.(ring := AckRing.Settle(s.radio.air.ring, U32(p, 1))),
                                          log := s.radio.log + [AckRing.Confirmed(U32(p, 1))]));
      AlikeTraced(s, settled, []);
      BroadcastTraced(settled, settled.ids, p, []);
    }
    TxnResponseTraced(s, p);
    RemoteResultTraced(s, p, now);
    BroadcastTraced(s, s.ids, p, []);
  }

  lemma RemoteResultTraced(s: State, p: Bytes, now: Time)
    requires Hist(s, [])
    ensures Hist(RemoteResult(s, p, now), [])
  {
    hide Hist, Emit, MatchPush;
    var m := MatchPush(s.radio.remote, p, now);
    var r := s.(radio := s.radio.(remote := m.0), fault := s.fault || m.1.Unreadable?);
    AlikeTraced(s, r, []);
    if m.1.Matched? && m.1.owner.Some? {
      EmitTraced(r, m.1.owner.value, Out(p, Result(m.1.command, m.1.tag)), []);
    }
  }

  lemma {:induction false} ExpireSessionsTraced(s: State, ids: seq<int>)
    requires Hist(s, [])
    ensures Hist(ExpireSessions(s, ids), [])
    decreases |ids|
  {
    hide Hist, Emit, Remove, AnyOverdue;
    if ids != [] {
      var id := ids[0];
      if id in s.sessions {
        RemoveTraced(s, id, []);
        var c := s.sessions[id];
        if c.sync.Some? {
          AnswerTraced(s, id, c.(sync := None), Out(Err(ERR_BAD_STATE), Answer(c.sync.value.command, Local)), []);
        }
      }
      ExpireSessionsTraced(ExpireSession(s, id), ids[1..]);
    }
  }
}
