/**
 The broker and the physical acknowledgement ring together. The log of calls that the broker has
 really made is orderly in every reachable state, and an orderly log is all that safety needs.
 */
module AckBridge {
  import opened Wire
  import opened AckRing
  import opened AckWorld
  import opened AckExact
  import Broker
  import BrokerInvariant
  import BrokerClients
  import BrokerRuns

  /** Take any run of the broker, and any physical history in which its present companion got the calls
      the broker has made: which messages were executed and how late, under which tokens, and when
      entries died is open, as long as losses and late executions are benign. The broker's mirror is
      the mirror of that world, a message is in flight there exactly when one is upstream here, and no
      live entry was overwritten. */
  lemma BrokerNeverOverwritesALiveEntry(s: Broker.State, start: Time, es: seq<Event>)
    requires BrokerRuns.Reachable(s)
    requires Feasible(Start(start), es, s.cfg.uncertaintyTimeout) && CallsIn(es) == s.radio.log
    requires AllBenign(Start(start), es, s.cfg.uncertaintyTimeout)
    ensures var w := Run(Start(start), es, s.cfg.uncertaintyTimeout);
            && !w.harmed
            && w.mux == s.radio.air
            && (!w.flight.Idle? <==> BrokerInvariant.DmUpstream(s.up.active))
  {
    hide BrokerInvariant.Core, BrokerRuns.Reachable, Feasible, AllBenign, LogOk, Replay, InFlight;
    BrokerRuns.ReachableIsGood(s);
    BrokerClients.CoreParts(s, false, []);
    BenignRunsHarmNothing(start, es, s.cfg.uncertaintyTimeout);
  }
}
