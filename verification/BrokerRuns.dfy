/** Whole runs of the broker. */
module BrokerRuns {
  import opened Wire
  import opened Slots
  import opened Broker
  import opened BrokerInvariant
  import opened BrokerClients
  import opened BrokerEvents
  import opened BrokerHistory
  import opened BrokerSigning
  import opened BrokerTrace
  import opened BrokerTraceEvents
  import opened BrokerWakeup

  /** What the runtime promises the broker: the clock never goes back within an epoch, admitted ids
      are fresh and name configured slots, and a new epoch starts only after a failed one, with the
      key startup has read. Frames, closures and completions may be anything at any time. */
  ghost predicate Legal(s: State, e: Event) {
    match e
    case Admit(id, slot, now) =>
      && s.now <= now && id > 0 && id !in s.sessions && !Owns(s.up.active, id) 
      && Unused(s.up.wire, id) && Unheard(s.actions, id)
      && (slot.Some? ==> slot.value in s.cfg.slotIds)
    case ClientFrame(_, _, now) => s.now <= now
    case ClientClosed(_, now) => s.now <= now
    case WriteDone(_, _, _, now) => s.now <= now
    case WriteFailed(_, _, now) => s.now <= now
    case UpstreamFrame(_, now) => s.now <= now
    case Tick(now) => s.now <= now
    case Fail => true
    case DrainFrame(_, _) => true
    case Reconnect(key, _) => s.failed && |key| >= 6
  }

  lemma StepKeeps(s: State, e: Event)
    requires Inv(s) && Legal(s, e)
    ensures Inv(StepEvent(s, e))
  {
    hide Core, OnAdmit, OnClientFrame, OnClientClosed, OnWriteDone, OnWriteFailed, OnUpstreamFrame, OnTick, FailEpoch,
         OnDrainFrame, OnReconnect, Schedule, Remove, Unused, Unheard;
    match e
    case Admit(id, slot, now) =>
      if slot.Some? {
        ConfiguredSlot(s, slot.value);
      }
      AdmitKeeps(s, id, slot, now);
    case ClientFrame(id, p, now) => ClientFrameKeeps(s, id, p, now);
    case ClientClosed(id, now) => ClosedKeeps(s, id, now);
    case WriteDone(id, epoch, w, now) => WriteDoneKeeps(s, id, epoch, w, now);
    case WriteFailed(id, epoch, now) => WriteFailedKeeps(s, id, epoch, now);
    case UpstreamFrame(p, now) => UpstreamFrameKeeps(s, p, now);
    case Tick(now) => TickKeeps(s, now);
    case Fail => FailAgain(s);
    case DrainFrame(p, now) => DrainFrameKeeps(s, p, now);
    case Reconnect(key, now) => ReconnectKeeps(s, key, now);
  }

  lemma ConfiguredSlot(s: State, d: int)
    requires Inv(s) && d in s.cfg.slotIds
    ensures d in s.slots
  {
    hide Core, SlotOk, ItemsOk;
    CoreParts(s, false, []);
  }

  lemma ClosedKeeps(s: State, id: int, now: Time)
    requires Inv(s) && s.now <= now
    ensures Inv(OnClientClosed(s, id, now))
  {
    hide Core, Schedule, Remove;
    LeaveKeeps(s, id, now);
  }

  lemma FailAgain(s: State)
    requires Inv(s)
    ensures Inv(FailEpoch(s))
  {
    hide Core;
    if !s.failed {
      FailKeeps(s, false, [], false, []);
    }
  }

  function Run(s: State, es: seq<Event>): State
    decreases |es|
  {
    if es == [] then s else Run(StepEvent(s, es[0]), es[1..])
  }

  ghost predicate LegalRun(s: State, es: seq<Event>)
    decreases |es|
  {
    es == [] || (Legal(s, es[0]) && LegalRun(StepEvent(s, es[0]), es[1..]))
  }

  function EmptySlot(): Slot {
    Slot([], None, 0, 0, 0, 0, 0, [], [], 0)
  }

  /** The first epoch of a mux. */
  function Boot(cfg: Config, now: Time): State {
    Fresh(cfg, 1, now, None, map d | d in cfg.slotIds :: EmptySlot(), FreshRadioState(0))
  }

  /** What every reachable state satisfies. */
  ghost predicate Good(s: State) {
    Inv(s) && Hist(s, []) && HeardOk(s) && SignOk(s) && Wakeful(s) && Working(s)
  }

  lemma GoodHasInv(s: State)
    requires Good(s)
    ensures Inv(s)
  {
    hide Inv, Hist, HeardBut, SignOk, Wakeful, Working;
  }

  lemma BootIsGood(cfg: Config, now: Time)
    requires ConfigOk(cfg)
    ensures Good(Boot(cfg, now))
  {
    FreshRadioOk(cfg, 0);
    BootIsCalm(cfg, now);
    hide ConfigOk, RemoteOk, AirOk, Core, Hist, HeardBut, SignOk, Wakeful, Working;
    FreshKeeps(cfg, 1, now, None, map d | d in cfg.slotIds :: EmptySlot(), FreshRadioState(0), []);
  }

  lemma BootIsCalm(cfg: Config, now: Time)
    ensures var b := Boot(cfg, now);
            HeardOk(b) && SignOk(b) && Wakeful(b) && Working(b)
  {
  }

  lemma StepTraced(s: State, e: Event)
    requires Inv(s) && Hist(s, []) && Legal(s, e)
    ensures Hist(StepEvent(s, e), [])
  {
    hide Core, Hist, OnAdmit, OnClientFrame, OnClientClosed, OnWriteDone, OnWriteFailed, OnUpstreamFrame, OnTick,
         FailEpoch, OnDrainFrame, OnReconnect, Unused, Unheard, SlotsKnown;
    KnownSlots(s);
    match e
    case Admit(id, slot, now) =>
      if slot.Some? {
        ConfiguredSlot(s, slot.value);
      }
      AdmitTraced(s, id, slot, now);
    case ClientFrame(id, p, now) => ClientFrameTraced(s, id, p, now);
    case ClientClosed(id, now) => ClosedTraced(s, id, now);
    case WriteDone(id, epoch, w, now) => WriteDoneTraced(s, id, epoch, w, now);
    case WriteFailed(id, epoch, now) => WriteFailedTraced(s, id, epoch, now);
    case UpstreamFrame(p, now) => UpstreamFrameTraced(s, p, now);
    case Tick(now) => TickTraced(s, now);
    case Fail => FailTraced(s, []);
    case DrainFrame(p, now) => DrainFrameTraced(s, p, now);
    case Reconnect(key, now) => ReconnectTraced(s, key, now);
  }

  lemma ClosedTraced(s: State, id: int, now: Time)
    requires Hist(s, [])
    ensures Hist(OnClientClosed(s, id, now), [])
  {
    hide Hist, Schedule, Remove;
    LeaveTraced(s, id, now);
  }

  lemma StepRecords(s: State, e: Event)
    requires Inv(s) && HeardOk(s) && Legal(s, e)
    ensures HeardOk(StepEvent(s, e))
  {
    hide Core, HeardBut, OnAdmit, OnClientFrame, OnWriteDone, OnWriteFailed, OnUpstreamFrame, OnTick, FailEpoch,
         OnDrainFrame, OnReconnect, Schedule, Remove, Unused, Unheard;
    match e
    case Admit(id, slot, now) =>
      if slot.Some? {
        ConfiguredSlot(s, slot.value);
      }
      AdmitRecords(s, id, slot, now);
    case ClientFrame(id, p, now) => ClientFrameRecords(s, id, p, now);
    case ClientClosed(id, now) => LeaveRecords(s, id, now);
    case WriteDone(id, epoch, w, now) => WriteDoneRecords(s, id, epoch, w, now);
    case WriteFailed(id, epoch, now) => WriteFailedRecords(s, id, epoch, now);
    case UpstreamFrame(p, now) => UpstreamFrameRecords(s, p, now);
    case Tick(now) => TickRecords(s, now);
    case Fail => FailRecords(s);
    case DrainFrame(p, now) => DrainFrameRecords(s, p, now);
    case Reconnect(key, now) => ReconnectRecords(s, key, now);
  }

  lemma StepCounts(s: State, e: Event)
    requires Inv(s) && SignOk(s) && Legal(s, e)
    ensures SignOk(StepEvent(s, e))
  {
    hide Core, SignOk, OnAdmit, OnClientFrame, OnWriteDone, OnWriteFailed, OnUpstreamFrame, OnTick, FailEpoch,
         OnDrainFrame, OnReconnect, Schedule, Remove, Unused, Unheard;
    match e
    case Admit(id, slot, now) =>
      if slot.Some? {
        ConfiguredSlot(s, slot.value);
      }
      AdmitCounts(s, id, slot, now);
    case ClientFrame(id, p, now) => ClientFrameCounts(s, id, p, now);
    case ClientClosed(id, now) => LeaveCounts(s, id, now);
    case WriteDone(id, epoch, w, now) => WriteDoneCounts(s, id, epoch, w, now);
    case WriteFailed(id, epoch, now) => WriteFailedCounts(s, id, epoch, now);
    case UpstreamFrame(p, now) => UpstreamFrameCounts(s, p, now);
    case Tick(now) => TickCounts(s, now);
    case Fail => FailedCounts(FailEpoch(s), s);
    case DrainFrame(p, now) => DrainFrameCounts(s, p, now);
    case Reconnect(key, now) => ReconnectCounts(s, key, now);
  }

  lemma StepWorks(s: State, e: Event)
    requires Inv(s) && Wakeful(s) && Working(s) && Legal(s, e)
    ensures Wakeful(StepEvent(s, e)) && Working(StepEvent(s, e))
  {
    hide Core, OnAdmit, OnClientFrame, OnWriteDone, OnWriteFailed, OnUpstreamFrame, OnTick, FailEpoch, OnDrainFrame,
         Schedule, Remove, Unused, Unheard, Orderly, Moves, Listens;
    match e
    case Admit(id, slot, now) =>
      if slot.Some? {
        ConfiguredSlot(s, slot.value);
      }
      AdmitWorks(s, id, slot, now);
    case ClientFrame(id, p, now) => ClientFrameWorks(s, id, p, now);
    case ClientClosed(id, now) => LeaveWorks(s, id, now);
    case WriteDone(id, epoch, w, now) => WriteDoneWorks(s, id, epoch, w, now);
    case WriteFailed(id, epoch, now) => WriteFailedWorks(s, id, epoch, now);
    case UpstreamFrame(p, now) => UpstreamFrameWorks(s, p, now);
    case Tick(now) => TickWorks(s, now);
    case Fail => FailureEnds(s);
    case DrainFrame(p, now) => DrainFrameWorks(s, p, now);
    case Reconnect(key, now) =>
  }

  lemma DrainFrameWorks(s: State, p: Bytes, now: Time)
    requires Inv(s) && Working(s)
    ensures Working(OnDrainFrame(s, p, now))
  {
    hide Core, Push, PopResult, Listens, Orderly, Moves, Wakeful;
    CoreParts(s, false, []);
  }

  lemma StepStaysGood(s: State, e: Event)
    requires Good(s) && Legal(s, e)
    ensures Good(StepEvent(s, e))
  {
    hide Core, Hist, HeardBut, SignOk, Wakeful, Working, StepEvent, Legal;
    StepKeeps(s, e);
    StepCounts(s, e);
    StepTraced(s, e);
    StepRecords(s, e);
    StepWorks(s, e);
  }

  lemma {:induction false} RunStaysGood(s: State, es: seq<Event>)
    requires Good(s) && LegalRun(s, es)
    ensures Good(Run(s, es))
    decreases |es|
  {
    hide Good, StepEvent, Legal;
    if es != [] {
      StepStaysGood(s, es[0]);
      RunStaysGood(StepEvent(s, es[0]), es[1..]);
    }
  }

  /** The states a legal run of any length leads to, over any number of epochs. */
  ghost predicate Reachable(s: State) {
    exists cfg: Config, now: Time, es: seq<Event> ::
      ConfigOk(cfg) && LegalRun(Boot(cfg, now), es) && s == Run(Boot(cfg, now), es)
  }

  lemma ReachableIsGood(s: State)
    requires Reachable(s)
    ensures Good(s)
  {
    hide Good, ConfigOk;
    var cfg: Config, now: Time, es: seq<Event> :|
      ConfigOk(cfg) && LegalRun(Boot(cfg, now), es) && s == Run(Boot(cfg, now), es);
    BootIsGood(cfg, now);
    RunStaysGood(Boot(cfg, now), es);
  }
}
