/** The theorems about runs, for the simulator object: what its fields hold after any number of events,
    and what the log analysis makes of what it printed. */
module SimulationFacts {
  import opened ChoTypes
  import opened SystemModel
  import Conservation
  import HandoverLog
  import LogRoundTrip
  import PingPong
  import Reachable
  import Simulator

  /** The first `n` events for a population: the counters are conserved, no cancel was sent, queue and
      phases are in lockstep, and the printed lines read back as the CSV. */
  method Simulate(env: Env, population: seq<Ue>, n: nat) returns (sim: Simulator.Simulation)
    requires Starting(env, population)
    ensures fresh(sim) && fresh(sim.ues) && sim.env == env && sim.ues.Length == |population|
    ensures sim.Snapshot() == Run(env, Start(population), n)
    ensures Conservation.Conserved(sim.Snapshot()) && sim.cancels == 0
    ensures forall i :: 0 <= i < |population| ==> Reachable.QueueMatchesPhase(sim.Snapshot(), i)
    ensures PingPong.Readable(env.cfg, sim.Snapshot()) ==>
              HandoverLog.Parsed(LogRoundTrip.Print(sim.lines)) == LogRoundTrip.Completed(env.cfg, sim.rows)
  {
    hide Run, Start, Conservation.Conserved, PingPong.Readable, HandoverLog.Parsed, LogRoundTrip.Completed, Reachable.QueueMatchesPhase;
    sim := new Simulator.Simulation(env, population);
    sim.RunEvents(n);
    AfterRun(env, population, n);
  }

  lemma AfterRun(env: Env, population: seq<Ue>, n: nat)
    requires Starting(env, population)
    ensures var s := Run(env, Start(population), n);
            && |s.ues| == |population| && Conservation.Conserved(s) && s.cancels == 0
            && (forall i :: 0 <= i < |population| ==> Reachable.QueueMatchesPhase(s, i))
            && (PingPong.Readable(env.cfg, s) ==>
                  HandoverLog.Parsed(LogRoundTrip.Print(s.lines)) == LogRoundTrip.Completed(env.cfg, s.rows))
  {
    hide Step, Start, Conservation.Conserved, PingPong.Readable, HandoverLog.Parsed, LogRoundTrip.Completed, Reachable.QueueMatchesPhase;
    var run := (k: nat) => Run(env, Start(population), k);
    RunExists(env, population);
    Reachable.UesStay(env, population, run, n);
    Conservation.CountersAreConserved(env, population, run, n);
    Reachable.NoCancelIsEverSent(env, population, run, n);
    forall i | 0 <= i < |population| ensures Reachable.QueueMatchesPhase(run(n), i) {
      Reachable.QueueAndPhaseInLockstep(env, population, run, n, i);
    }
    if PingPong.Readable(env.cfg, run(n)) {
      PingPong.ReadsBack(env, population, run, n);
    }
  }

  /** Simulate, parse the log, count: the number that comes out is the number of times a UE went straight
      back along its path of handovers within the window. */
  method CountPingPongsOf(env: Env, population: seq<Ue>, n: nat, window: real) returns (count: nat)
    requires Starting(env, population)
    ensures var s := Run(env, Start(population), n);
            PingPong.Readable(env.cfg, s) ==> count == PingPong.StraightBackTotal(s.rows, window, |population|)
  {
    hide Run, Start, PingPong.Readable, HandoverLog.Parsed, PingPong.StraightBackTotal, PingPong.Count, PingPong.Order;
    var sim := Simulate(env, population, n);
    var events := HandoverLog.ParseHandovers(LogRoundTrip.Print(sim.lines));
    count := PingPong.CountPingPongs(events, window);
    TotalAfterRun(env, population, n, window);
  }

  lemma TotalAfterRun(env: Env, population: seq<Ue>, n: nat, window: real)
    requires Starting(env, population)
    ensures var s := Run(env, Start(population), n);
            var events := HandoverLog.Parsed(LogRoundTrip.Print(s.lines));
            PingPong.Readable(env.cfg, s) ==>
              PingPong.Count(events, window, |PingPong.Order(events)|) == PingPong.StraightBackTotal(s.rows, window, |population|)
  {
    hide Step, Start, PingPong.Readable, HandoverLog.Parsed, PingPong.StraightBackTotal, PingPong.Count, PingPong.Order;
    var run := (k: nat) => Run(env, Start(population), k);
    RunExists(env, population);
    if PingPong.Readable(env.cfg, run(n)) {
      PingPong.PingPongTotal(env, population, run, n, window);
    }
  }
}
