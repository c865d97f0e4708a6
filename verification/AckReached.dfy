/**
 The calls of the two runs that do harm are calls the broker makes: one client sends a direct message,
 its connection is lost, and after the quarantine it sends eight more.
 */
module AckReached {
  import opened Wire
  import opened Protocol
  import opened Broker
  import opened BrokerRuns
  import opened AckRing
  import AckWorld
  import opened AckExact
  import opened AckHarm
  import NativeTable

  // ----- One client, one direct message at a time -----

  /** SENT with the token 1 and no suggested timeout. */
  const SENT: Bytes := [RESP_SENT, 0, 1, 0, 0, 0, 0, 0, 0, 0]

  lemma SentReads()
    ensures |SENT| == 10 && U32(SENT, 2) == 1 && U32(SENT, 6) == 0
  {
  }

  /** A plain direct message the companion knows and answers with SENT. */
  ghost predicate Sendable(cfg: Config, c: Bytes) {
    ConfigOk(cfg) && ValidCommand(cfg.table, c) && PlainDm(c) && cfg.table.responseShape(SENT)
  }

  lemma MessageIsPlain(cfg: Config, c: Bytes)
    requires Sendable(cfg, c)
    ensures cfg.table.descriptor(c).Some?
    ensures var d := cfg.table.descriptor(c).value;
            d.success == {RESP_SENT} && !d.maintenance && !d.remoteLease && !d.grammar.Contacts? && !d.signing
  {
    hide ShapesOk, Leasable;
    assert CommandOk(cfg.table, c, cfg.table.descriptor(c).value);
  }

  /** One multi-client session is there, in the default scope, and nothing is to be drained. */
  ghost predicate Alone(s: State, id: int) {
    && !s.failed && id > 0 && s.ids == [id] && id in s.sessions && s.sessions.Keys == {id}
    && s.sessions[id].slot.None? && s.sessions[id].sync.None? && s.sessions[id].scope == DEFAULT_SCOPE
    && !s.drain.requested && s.orphan.None? && (s.order == [0, id] || s.order == [id, 0])
  }

  /** It has nothing to send. */
  ghost predicate Lone(s: State, id: int) {
    Alone(s, id) && s.sessions[id].commands == [] && s.up.active.None?
  }

  /** It has just submitted that message. */
  ghost predicate Holds(s: State, id: int, c: Bytes, t: Time) {
    Alone(s, id) && s.sessions[id].commands == [Queued(c, t)] && s.up.active.None? && s.now == t
  }

  /** The message is upstream and unanswered. */
  ghost predicate InAir(s: State, id: int, c: Bytes) {
    && Alone(s, id) && s.sessions[id].commands == [] && s.up.active.Some? && s.cfg.table.descriptor(c).Some?
    && var t := s.up.active.value;
       && t.owner == id && t.command == c && t.desc == s.cfg.table.descriptor(c).value
       && t.step.Command? && t.write.Some? && !t.contacts && !t.scoped && !t.maintenance
  }

  // ----- Sending -----

  lemma LonePass(s: State, id: int)
    requires Lone(s, id)
    ensures LocalPass(s, s.ids) == s
  {
    hide LocalHead, Orderly, Near;
    assert s.ids[1..] == [];
  }

  /** With nothing to do the order turns once around. */
  lemma LoneSchedule(s: State, id: int, now: Time)
    requires Lone(s, id)
    ensures Schedule(s, now) == s.(now := now)
  {
    hide LocalPass, Rotate, Quietly, Wakeful, Spoken;
    LonePass(s.(now := now), id);
    LoneRotates(s.(now := now), id);
  }

  lemma LoneRotates(s: State, id: int)
    requires Lone(s, id)
    ensures Rotate(s, |s.order|) == s
  {
    hide Onward, Quietly;
    var a := Turn(s);
    var b := Turn(a);
    assert Serve(a, s.order[0]) == a && Serve(b, a.order[0]) == b;
    assert b == s;
    assert Rotate(b, 0) == b;
    assert Rotate(a, 1) == b;
  }

  /** What sending a message changes, as far as it matters here. */
  ghost predicate Sends(s: State, r: State, id: int, t: Time) {
    && id in s.sessions && id in r.sessions && r.sessions[id].writes == s.sessions[id].writes
    && r.cfg == s.cfg && r.epoch == s.epoch && r.now == t
    && r.radio.air == AfterCheck(s.radio.air, t) && r.radio.log == s.radio.log + [Checked(t)] + [Launched(t)]
  }

  lemma DmAdmitted(s: State, id: int, c: Bytes, t: Time)
    requires Holds(s, id, c, t) && Sendable(s.cfg, c) && !Quarantined(s.radio.air, t) && FreeSlot(s.radio.air.ring, t)
    ensures var v := Admission(s, id, c);
            && v.reason.None? && !v.fault && v.signing == s.signing
            && v.radio == s.radio.(air := AfterCheck(s.radio.air, t), log := s.radio.log + [Checked(t)] + [Launched(t)])
  {
    hide Quarantined, FreeSlot, ConfigOk, Onward, Quietly;
    MessageIsPlain(s.cfg, c);
  }

  /** The message is admitted and dispatched, whoever was first in the order. */
  lemma DmLaunched(s: State, id: int, c: Bytes, t: Time)
    requires Holds(s, id, c, t) && Sendable(s.cfg, c) && !Quarantined(s.radio.air, t) && FreeSlot(s.radio.air.ring, t)
    ensures InAir(Launch(s, id), id, c) && Sends(s, Launch(s, id), id, t)
  {
    hide Quarantined, FreeSlot, AfterCheck, ConfigOk, Onward, Quietly, Admission, Forwarded, HasMulti;
    DmAdmitted(s, id, c, t);
    MessageIsPlain(s.cfg, c);
  }

  lemma HeadForwards(s: State, id: int, c: Bytes, t: Time)
    requires Holds(s, id, c, t) && Sendable(s.cfg, c)
    ensures Decide(s.cfg, s.sessions[id].commands[0], s.now).Forward? && LocalPass(s, s.ids) == s
  {
    hide TableOk, LocalHead, Orderly, Near;
    assert s.ids[1..] == [];
  }

  lemma DmRotated(s: State, id: int, c: Bytes, t: Time)
    requires Holds(s, id, c, t) && Sendable(s.cfg, c) && !Quarantined(s.radio.air, t) && FreeSlot(s.radio.air.ring, t)
    ensures InAir(Rotate(s, 2), id, c) && Sends(s, Rotate(s, 2), id, t)
  {
    hide Quarantined, FreeSlot, AfterCheck, ConfigOk, Onward, Quietly, Launch, InAir, Sends;
    var a := Turn(s);
    if s.order == [id, 0] {
      DmLaunched(a, id, c, t);
      SentOnce(s, a, Launch(a, id), id, c, t);
    } else {
      assert Serve(a, 0) == a;
      DmLaunched(Turn(a), id, c, t);
      SentOnce(s, Turn(a), Launch(Turn(a), id), id, c, t);
      assert Rotate(a, 1) == Launch(Turn(a), id);
    }
  }

  /** Whose turn it was does not matter. */
  lemma SentOnce(s: State, a: State, r: State, id: int, c: Bytes, t: Time)
    requires InAir(r, id, c) && Sends(a, r, id, t) && a == s.(order := a.order)
    ensures r.up.active.Some? && Sends(s, r, id, t)
  {
  }

  lemma DmSent(s: State, id: int, c: Bytes, t: Time)
    requires Lone(s, id) && Sendable(s.cfg, c) && !Quarantined(s.radio.air, t) && FreeSlot(s.radio.air.ring, t)
    ensures InAir(OnClientFrame(s, id, c, t), id, c) && Sends(s, OnClientFrame(s, id, c, t), id, t)
  {
    hide Quarantined, FreeSlot, AfterCheck, ConfigOk, Rotate, LocalPass, Quietly, Wakeful, Spoken, InAir, Sends;
    assert !QueueFull(s.(now := t), id) by { LimitIsPositive(s.cfg); }
    var old' := s.sessions[id];
    var m := Put(s.(now := t), id, old'.(commands := old'.commands + [Queued(c, t)],
                                         log := old'.log.(submitted := old'.log.submitted + [c])));
    assert Holds(m, id, c, t);
    HeadForwards(m, id, c, t);
    DmRotated(m, id, c, t);
    SentFrom(s, m, Rotate(m, 2), id, t);
    assert |m.order| == 2 && m.(now := t) == m;
  }

  lemma LimitIsPositive(cfg: Config)
    requires ConfigOk(cfg)
    ensures cfg.commandLimit > 0 && cfg.outputFrames > 0 && |cfg.selfKey| >= 6
  {
  }

  lemma SentFrom(s: State, m: State, r: State, id: int, t: Time)
    requires id in s.sessions && id in m.sessions && m.cfg == s.cfg && m.epoch == s.epoch && m.radio == s.radio
    requires m.sessions[id].writes == s.sessions[id].writes && Sends(m, r, id, t)
    ensures Sends(s, r, id, t)
  {
  }

  // ----- The answer -----

  /** What the answer changes, as far as it matters here. */
  ghost predicate Answers(s: State, r: State, id: int) {
    && id in s.sessions && id in r.sessions && |r.sessions[id].writes| <= |s.sessions[id].writes| + 1
    && r.cfg == s.cfg && r.epoch == s.epoch && r.now == s.now
    && r.radio.air == s.radio.air.(ring := Insert(s.radio.air.ring, 1, RetainedDeadline(s.now, 0)))
    && r.radio.log == s.radio.log + [Accepted(1, 0, s.now)]
  }

  lemma SentIsFinal(cfg: Config, c: Bytes)
    requires Sendable(cfg, c)
    ensures var d := cfg.table.descriptor(c).value;
            ValidResponse(cfg.table, d, SENT, c, false) && Completes(d, SENT) && Visible(SENT) == SENT
  {
    MessageIsPlain(cfg, c);
  }

  /** Handing the reply over, with room for it. */
  lemma DmHanded(s: State, id: int, c: Bytes)
    requires InAir(s, id, c) && Sendable(s.cfg, c) && HasRoom(s, id)
    ensures var a := SettleWrite(s);
            var t := a.up.active.value;
            var e := Handed(a, t, SENT);
            && Alone(e, id) && e.sessions[id].commands == [] && |e.sessions[id].writes| <= |s.sessions[id].writes| + 1
            && e.cfg == s.cfg && e.epoch == s.epoch && e.now == s.now && e.radio == s.radio
            && e.up.active == Some(Progressed(t, SENT, s.now))
  {
    hide ConfigOk, Onward, Quietly, Visible, Completes;
  }

  lemma DmCompleted(e: State, id: int, t: Txn, emitted: Option<int>)
    requires Alone(e, id) && e.sessions[id].commands == [] && PlainDm(t.command) && t.owner == id
    requires !t.scoped && !t.maintenance && FreeSlot(e.radio.air.ring, e.now)
    ensures var r := CompleteCommand(e, t, SENT, emitted);
            Lone(r, id) && Answers(e, r, id) && r.sessions == e.sessions
  {
    hide Onward, Quietly, FreeSlot, Insert, RetainedDeadline;
    SentReads();
  }

  lemma DmAnswered(s: State, id: int, c: Bytes)
    requires InAir(s, id, c) && Sendable(s.cfg, c) && HasRoom(s, id) && FreeSlot(s.radio.air.ring, s.now)
    ensures Lone(OnUpstreamFrame(s, SENT, s.now), id) && Answers(s, OnUpstreamFrame(s, SENT, s.now), id)
  {
    hide ConfigOk, Onward, Quietly, FreeSlot, Insert, RetainedDeadline, Handed, CompleteCommand, ValidResponse,
         Completes, Progressed, Schedule, HandedAs, Wakeful, Spoken;
    SentIsFinal(s.cfg, c);
    DmHanded(s, id, c);
    var a := SettleWrite(s);
    var t := a.up.active.value;
    var e := Handed(a, t, SENT);
    var t' := Progressed(t, SENT, s.now);
    assert t'.command == c && t'.owner == id && !t'.scoped && !t'.maintenance by { ProgressKeeps(t, s.now); }
    DmCompleted(e, id, t', HandedAs(a, t, SENT));
    var r := CompleteCommand(e, t', SENT, HandedAs(a, t, SENT));
    assert s.(now := s.now) == s;
    assert TxnResponse(s, SENT) == r;
    LoneSchedule(r, id, s.now);
  }

  lemma ProgressKeeps(t: Txn, now: Time)
    ensures var t' := Progressed(t, SENT, now);
            t'.command == t.command && t'.owner == t.owner && t'.scoped == t.scoped && t'.maintenance == t.maintenance
  {
  }

  // ----- Runs -----

  /** That many messages, one after the other, each answered at once. */
  function Chat(id: int, c: Bytes, t: Time, n: nat): seq<Event> {
    if n == 0 then [] else [ClientFrame(id, c, t), UpstreamFrame(SENT, t)] + Chat(id, c, t, n - 1)
  }

  /** The mux may launch that many messages. */
  ghost predicate Open(m: Radio, t: Time, n: nat) {
    && RadioOk(m) && n <= CAPACITY && !Quarantined(m, t)
    && forall j: nat | j < n :: !Pending(Upcoming(m, j), t)
  }

  lemma OpenCloses(m: Radio, t: Time, n: nat)
    requires Open(m, t, n) && n > 0
    ensures FreeSlot(m.ring, t)
    ensures var m' := AfterCheck(m, t);
            Open(m'.(ring := Insert(m'.ring, 1, RetainedDeadline(t, 0))), t, n - 1)
  {
    hide RetainedDeadline;
    assert !Pending(Upcoming(m, 0), t);
    var m' := AfterCheck(m, t);
    var r := m'.(ring := Insert(m'.ring, 1, RetainedDeadline(t, 0)));
    forall j: nat | j < n - 1
      ensures !Pending(Upcoming(r, j), t)
    {
      assert !Pending(Upcoming(m, j + 1), t);
      StillUpcoming(m.ring.next, j + 1);
    }
  }

  lemma RunPair(s: State, a: Event, b: Event, es: seq<Event>)
    ensures Run(s, [a, b] + es) == Run(StepEvent(StepEvent(s, a), b), es)
    ensures Legal(s, a) && Legal(StepEvent(s, a), b) && LegalRun(StepEvent(StepEvent(s, a), b), es) ==>
              LegalRun(s, [a, b] + es)
  {
    hide StepEvent, Legal;
    assert ([a, b] + es)[1..] == [b] + es && ([b] + es)[1..] == es;
  }

  lemma {:induction false} ChatMakesCalls(s: State, id: int, c: Bytes, t: Time, n: nat)
    requires Lone(s, id) && Sendable(s.cfg, c) && s.now <= t && Open(s.radio.air, t, n)
    requires |s.sessions[id].writes| + n <= s.cfg.outputFrames
    ensures var r := Run(s, Chat(id, c, t, n));
            && LegalRun(s, Chat(id, c, t, n)) && r.cfg == s.cfg
            && r.radio.log == s.radio.log + MessageCalls(1, t, n)
    decreases n
  {
    hide StepEvent, Sendable, Lone, InAir, Open, Answers, Sends, Legal, Run, LegalRun;
    if n == 0 {
      NothingRuns(s);
      assert s.radio.log + [] == s.radio.log;
    } else {
      var a := StepEvent(s, ClientFrame(id, c, t));
      var r := StepEvent(a, UpstreamFrame(SENT, t));
      OneExchange(s, id, c, t, n);
      ChatMakesCalls(r, id, c, t, n - 1);
      RunPair(s, ClientFrame(id, c, t), UpstreamFrame(SENT, t), Chat(id, c, t, n - 1));
      assert s.radio.log + [Checked(t), Launched(t), Accepted(1, 0, t)] + MessageCalls(1, t, n - 1) ==
             s.radio.log + ([Checked(t), Launched(t), Accepted(1, 0, t)] + MessageCalls(1, t, n - 1));
    }
  }

  lemma NothingRuns(s: State)
    ensures Run(s, []) == s && LegalRun(s, [])
  {
  }

  lemma EventsAre(s: State, a: State, id: int, c: Bytes, t: Time)
    ensures StepEvent(s, ClientFrame(id, c, t)) == OnClientFrame(s, id, c, t)
    ensures StepEvent(a, UpstreamFrame(SENT, t)) == OnUpstreamFrame(a, SENT, t)
  {
    hide OnClientFrame, OnUpstreamFrame;
  }

  lemma OneExchange(s: State, id: int, c: Bytes, t: Time, n: nat)
    requires Lone(s, id) && Sendable(s.cfg, c) && s.now <= t && Open(s.radio.air, t, n) && n > 0
    requires |s.sessions[id].writes| + n <= s.cfg.outputFrames
    ensures var a := StepEvent(s, ClientFrame(id, c, t));
            var r := StepEvent(a, UpstreamFrame(SENT, t));
            && Legal(s, ClientFrame(id, c, t)) && Legal(a, UpstreamFrame(SENT, t))
            && Lone(r, id) && r.cfg == s.cfg && r.now == t && Open(r.radio.air, t, n - 1)
            && |r.sessions[id].writes| + (n - 1) <= r.cfg.outputFrames
            && r.radio.log == s.radio.log + [Checked(t), Launched(t), Accepted(1, 0, t)]
  {
    hide OnClientFrame, OnUpstreamFrame, Sendable, Quarantined, FreeSlot, AfterCheck, Insert, Alone, RetainedDeadline;
    var a := OnClientFrame(s, id, c, t);
    EventsAre(s, a, id, c, t);
    hide StepEvent;
    OpenCloses(s.radio.air, t, n);
    DmSent(s, id, c, t);
    assert a.radio.air.ring == s.radio.air.ring by { CheckKeepsRing(s.radio.air, t); }
    assert HasRoom(a, id);
    DmAnswered(a, id, c);
  }

  lemma CheckKeepsRing(m: Radio, t: Time)
    ensures AfterCheck(m, t).ring == m.ring
  {
  }

  // ----- From the start -----

  /** An epoch without clients. */
  ghost predicate Empty(s: State) {
    && !s.failed && s.sessions == map[] && s.ids == [] && s.order == [0] && s.orphan.None?
    && s.up.active.None? && !s.drain.requested && s.cfg.outputFrames > 0
  }

  ghost function Alone1(s: State, t: Time): State {
    s.(now := t, sessions := map[1 := NewSession(None, |s.pops|, [])], ids := [1], order := [0, 1])
  }

  lemma FirstJoins(s: State, t: Time)
    requires Empty(s)
    ensures OnAdmit(s, 1, None, t) == Schedule(Hint(Alone1(s, t), 1), t)
  {
    hide Schedule, EnqueueMulti, Hint, Wakeful, Near;
    assert s.ids + [1] == [1] && s.order + [1] == [0, 1];
  }

  lemma FirstHint(s: State, t: Time)
    requires Empty(s)
    ensures var m := Hint(Alone1(s, t), 1);
            && Lone(m, 1) && m.cfg == s.cfg && m.now == t && m.radio == s.radio && |m.sessions[1].writes| <= 1
  {
    hide Near, Remove;
  }

  /** It admits its first client. */
  lemma FirstClient(s: State, t: Time)
    requires Empty(s)
    ensures var r := OnAdmit(s, 1, None, t);
            && Lone(r, 1) && r.cfg == s.cfg && r.now == t && r.radio == s.radio && |r.sessions[1].writes| <= 1
  {
    hide Schedule, Hint, Lone, OnAdmit, Empty;
    FirstJoins(s, t);
    FirstHint(s, t);
    LoneSchedule(Hint(Alone1(s, t), 1), 1, t);
  }

  /** A message in flight when the connection is lost, at the clock reading of that moment. */
  lemma LosingTheMessage(s: State, id: int, c: Bytes)
    requires InAir(s, id, c) && PlainDm(c) && !s.cfg.table.descriptor(c).value.remoteLease
    ensures var r := FailEpoch(s);
            && r.failed && r.cfg == s.cfg && r.epoch == s.epoch && r.orphan == s.orphan
            && r.radio.air == Quarantine(s.radio.air, s.now, s.cfg.uncertaintyTimeout, true)
            && r.radio.log == s.radio.log + [Lost(s.now, true)]
  {
    hide Near, Quietly, Without, Quarantine;
    assert DetachAll(Marked(s), [id]).radio.air == Marked(s).radio.air by { DetachedRadio(Marked(s), id); }
  }

  ghost function Marked(s: State): State {
    s.(failed := true, debt := DebtAfter(s.debt, s.up.active),
       radio := AfterLoss(s.radio, s.up.active, s.now, s.cfg.uncertaintyTimeout))
  }

  lemma DetachedRadio(s: State, id: int)
    ensures var r := DetachAll(s, [id]); r.radio.air == s.radio.air && r.radio.log == s.radio.log
  {
    hide Near, Without;
    assert [id][1..] == [];
  }

  lemma RunCons(s: State, e: Event, es: seq<Event>)
    ensures Run(s, [e] + es) == Run(StepEvent(s, e), es)
    ensures Legal(s, e) && LegalRun(StepEvent(s, e), es) ==> LegalRun(s, [e] + es)
  {
    hide StepEvent, Legal;
    assert ([e] + es)[1..] == es;
  }

  lemma FirstIsLegal(s: State, t: Time)
    requires Empty(s) && s.now <= t && s.up.wire == [] && s.actions == []
    ensures Legal(s, Admit(1, None, t))
  {
  }

  /** The first epoch: the message is sent, and its connection lost. */
  lemma FirstEpoch(cfg: Config, c: Bytes)
    requires Sendable(cfg, c)
    ensures var b := Boot(cfg, 0);
            var a := StepEvent(b, Admit(1, None, 0));
            var m := StepEvent(a, ClientFrame(1, c, 0));
            var f := StepEvent(m, Fail);
            && Legal(b, Admit(1, None, 0)) && Legal(a, ClientFrame(1, c, 0))
            && f.failed && f.cfg == cfg && f.orphan.None?
            && f.radio.air == Quarantine(AfterCheck(FreshRadio(), 0), 0, cfg.uncertaintyTimeout, true)
            && f.radio.log == [Checked(0), Launched(0)] + [Lost(0, true)]
  {
    hide OnAdmit, OnClientFrame, FailEpoch, ConfigOk, Alone, AfterCheck, Quarantine;
    var b := Boot(cfg, 0);
    assert cfg.outputFrames > 0 by { LimitIsPositive(cfg); }
    FirstIsLegal(b, 0);
    FirstClient(b, 0);
    var a := OnAdmit(b, 1, None, 0);
    FreshIsOpen();
    DmSent(a, 1, c, 0);
    MessageIsPlain(cfg, c);
    LosingTheMessage(OnClientFrame(a, 1, c, 0), 1, c);
    assert [] + [Checked(0)] + [Launched(0)] == [Checked(0), Launched(0)];
    assert a.radio.log == [];
    assert OnClientFrame(a, 1, c, 0).orphan.None? by { AloneKeepsNoOrphan(OnClientFrame(a, 1, c, 0), 1); }
  }

  lemma AloneKeepsNoOrphan(s: State, id: int)
    requires Alone(s, id)
    ensures s.orphan.None?
  {
  }

  lemma FreshIsOpen()
    ensures !Quarantined(FreshRadio(), 0) && FreeSlot(FreshRadio().ring, 0)
  {
  }

  lemma AfterQuarantine()
    ensures Open(Quarantine(AfterCheck(FreshRadio(), 0), 0, 100, true), 109, CAPACITY)
  {
    var m := Quarantine(AfterCheck(FreshRadio(), 0), 0, 100, true);
    assert forall i | 0 <= i < CAPACITY :: m.ring.slots[i].None?;
    assert forall j: nat :: Upcoming(m, j).None?;
  }

  /** A broker configured for such a message makes the calls that do harm in `AckHarm`, be it because of the
      stale reading or of the late handler: it cannot tell them from those of a harmless run. */
  lemma BrokerMakesHarmfulCalls(cfg: Config, c: Bytes) returns (s: State)
    requires Sendable(cfg, c) && cfg.uncertaintyTimeout == 100 && cfg.outputFrames > CAPACITY
    ensures Reachable(s) && s.cfg == cfg && s.radio.log == HarmfulCalls()
  {
    hide StepEvent, Legal, Run, LegalRun, ConfigOk, Empty, Lone, Open, Quarantine, AfterCheck, Boot;
    FirstEpoch(cfg, c);
    LimitIsPositive(cfg);
    var b := Boot(cfg, 0);
    var a := StepEvent(b, Admit(1, None, 0));
    var m := StepEvent(a, ClientFrame(1, c, 0));
    var f := StepEvent(m, Fail);
    SecondEpoch(f);
    var n := StepEvent(f, Reconnect(cfg.selfKey, 109));
    var q := StepEvent(n, Admit(1, None, 109));
    AfterQuarantine();
    ChatMakesCalls(q, 1, c, 109, CAPACITY);
    var chat := Chat(1, c, 109, CAPACITY);
    RunCons(n, Admit(1, None, 109), chat);
    RunPair(m, Fail, Reconnect(cfg.selfKey, 109), [Admit(1, None, 109)] + chat);
    var rest := [Fail, Reconnect(cfg.selfKey, 109)] + ([Admit(1, None, 109)] + chat);
    RunPair(b, Admit(1, None, 0), ClientFrame(1, c, 0), rest);
    var es := [Admit(1, None, 0), ClientFrame(1, c, 0)] + rest;
    s := Run(b, es);
    assert Legal(m, Fail) by { FailIsLegal(m); }
  }

  lemma FailIsLegal(s: State)
    ensures Legal(s, Fail)
  {
  }

  /** The companion is met again, and the client comes back. */
  lemma SecondEpoch(f: State)
    requires f.failed && f.orphan.None? && |f.cfg.selfKey| >= 6 && f.cfg.outputFrames > 0
    ensures var n := StepEvent(f, Reconnect(f.cfg.selfKey, 109));
            var q := StepEvent(n, Admit(1, None, 109));
            && Legal(f, Reconnect(f.cfg.selfKey, 109)) && Legal(n, Admit(1, None, 109))
            && Lone(q, 1) && q.cfg == f.cfg && q.now == 109 && q.radio == f.radio && |q.sessions[1].writes| <= 1
  {
    hide OnAdmit;
    var n := OnReconnect(f, f.cfg.selfKey, 109);
    FirstIsLegal(n, 109);
    FirstClient(n, 109);
  }

  /** The smallest plain direct message. */
  const HELLO: Bytes := [CMD_SEND_TXT_MSG, 0, 0, 0, 0, 0, 0, 0, 0, 0, 0, 0, 0, 0]

  function AnyConfig(): Config {
    Config(NativeTable.Native(), [0, 0, 0, 0, 0, 0], [], 8, 8, 8, 16,
           1000, 1000, 1000, 1000, 1000, 1000, 100, 1000, true, false, false, false)
  }

  lemma HelloIsSendable()
    ensures Sendable(AnyConfig(), HELLO)
  {
    hide TableOk;
    NativeTable.NativeTableIsOk();
    assert NativeTable.CommandShape(HELLO) && NativeTable.Lookup(HELLO).Some? && NativeTable.ResponseShape(SENT);
  }

  /** With the native table: both runs that do harm are made of calls of a reachable broker. */
  lemma HarmIsReachable()
    ensures exists s :: Reachable(s) && s.cfg.uncertaintyTimeout == 100
                        && s.radio.log == AckWorld.CallsIn(StaleRun()) && s.radio.log == AckWorld.CallsIn(LateRun())
    ensures AckWorld.Run(AckWorld.Start(0), StaleRun(), 100).harmed
    ensures AckWorld.Run(AckWorld.Start(0), LateRun(), 100).harmed
  {
    hide Sendable, HarmfulCalls, Reachable, AckWorld.Run, AckWorld.CallsIn, StaleRun, LateRun;
    StaleReadingCanHarm();
    LateHandlerCanHarm();
    HelloIsSendable();
    var s := BrokerMakesHarmfulCalls(AnyConfig(), HELLO);
  }
}
