/** Lockstep and the serving chain, in every reachable state of the simulator with any number of UEs. */
module Reachable {
  import opened ChoTypes
  import opened Agenda
  import opened Channel
  import opened Protocol
  import opened SystemModel
  import opened Independence
  import opened Lockstep
  import opened StepCases

  predicate IsHopOf(a: Act, i: nat) {
    a.Own? && a.ue == i && a.job.HopJob?
  }

  /** UE `i`'s phase events in the shared queue: none, or exactly the one its phase waits for, about
      the cells it has stored. */
  ghost predicate QueueMatchesPhase(s: Sys, i: nat)
    requires i < |s.ues|
  {
    var p := s.ues[i].proc;
    match Awaits(p.phase)
    case None => forall k :: 0 <= k < |s.queue| ==> !IsHopOf(s.queue[k].act, i)
    case Some(hop) =>
      exists k :: 0 <= k < |s.queue| && s.queue[k].act == Own(i, HopJob(hop, p.source, p.target)) &&
                  forall j :: 0 <= j < |s.queue| && j != k ==> !IsHopOf(s.queue[j].act, i)
  }

  function HopsOf(q: seq<Timed<Act>>, i: nat): seq<Timed<Pending>> {
    Sift(Sift(q, Mine(i)), ActHop())
  }

  lemma HopsOfHead(q: seq<Timed<Act>>, i: nat)
    requires q != []
    ensures HopsOf(q, i) ==
            if IsHopOf(q[0].act, i)
            then [Timed(q[0].time, Pending(q[0].act.job.hop, q[0].act.job.source, q[0].act.job.target))] + HopsOf(q[1..], i)
            else HopsOf(q[1..], i)
  {
    hide Sift;
    SiftHead(q, Mine(i));
    match q[0].act {
      case Tick =>
        SiftFront(Timed(q[0].time, OwnTick), Sift(q[1..], Mine(i)));
      case Own(ue, job) =>
        if ue == i {
          SiftFront(Timed(q[0].time, OwnJob(job)), Sift(q[1..], Mine(i)));
          assert ActHop()(OwnJob(job)) == JobHop()(job);
        }
    }
  }

  lemma SiftFront(e: Timed<OwnAct>, rest: seq<Timed<OwnAct>>)
    ensures Sift([e] + rest, ActHop()) ==
            match ActHop()(e.act)
            case None => Sift(rest, ActHop())
            case Some(b) => [Timed(e.time, b)] + Sift(rest, ActHop())
  {
    hide Sift;
    SiftHead([e] + rest, ActHop());
    assert ([e] + rest)[1..] == rest;
  }

  lemma {:induction false} NoHops(q: seq<Timed<Act>>, i: nat)
    requires HopsOf(q, i) == []
    ensures forall k :: 0 <= k < |q| ==> !IsHopOf(q[k].act, i)
  {
    hide HopsOf;
    if q != [] {
      HopsOfHead(q, i);
      NoHops(q[1..], i);
    }
  }

  lemma {:induction false} OneHopAt(q: seq<Timed<Act>>, i: nat) returns (k: nat)
    requires |HopsOf(q, i)| == 1
    ensures k < |q| && IsHopOf(q[k].act, i)
    ensures HopsOf(q, i) == [Timed(q[k].time, Pending(q[k].act.job.hop, q[k].act.job.source, q[k].act.job.target))]
    ensures forall j :: 0 <= j < |q| && j != k ==> !IsHopOf(q[j].act, i)
  {
    hide HopsOf;
    if q == [] {
      NothingHops(i);
    } else {
      HopsOfHead(q, i);
      if IsHopOf(q[0].act, i) {
        NoHops(q[1..], i);
        k := 0;
      } else {
        k := OneHopAt(q[1..], i);
        k := k + 1;
      }
    }
  }

  lemma NothingHops(i: nat)
    ensures HopsOf([], i) == []
  {
  }

  lemma MatchInQueue(s: Sys, i: nat)
    requires i < |s.ues| && HopsMatch(s.ues[i].proc, HopsOf(s.queue, i))
    ensures QueueMatchesPhase(s, i)
  {
    hide HopsOf;
    if Awaits(s.ues[i].proc.phase).None? {
      NoHops(s.queue, i);
    } else {
      var k := OneHopAt(s.queue, i);
    }
  }

  // ----- the theorems -----

  lemma ReachableUe(env: Env, ues: seq<Ue>, run: nat -> Sys, n: nat, i: nat)
    requires Starting(env, ues) && IsRun(env, ues, run) && i < |ues|
    ensures |run(n).ues| == |ues|
    ensures var s := run(n);
            HopsMatch(s.ues[i].proc, HopsOf(s.queue, i)) && UeOk(env, s.ues[i])
  {
    hide UeOk;
    var m, l := OwnMoment(env, ues, run, i, n);
    RunCoherent(env, ues[i], m);
  }

  /** Lockstep: in every reachable state an idle or evaluating UE has no phase event on its way, and
      every other UE exactly one, for the matching handler and its stored cells. */
  lemma QueueAndPhaseInLockstep(env: Env, ues: seq<Ue>, run: nat -> Sys, n: nat, i: nat)
    requires Starting(env, ues) && IsRun(env, ues, run) && i < |ues|
    ensures |run(n).ues| == |ues|
    ensures var s := run(n);
            Stable(s.ues[i].proc.phase) && QueueMatchesPhase(s, i)
  {
    hide UeOk, HopsOf;
    ReachableUe(env, ues, run, n, i);
    var s := run(n);
    MatchInQueue(s, i);
    StableInOrder(env, s.ues[i]);
  }

  /** No phase guard ever drops an event: the handler of the next event finds its UE in the phase it
      expects, and its arguments are the cells the procedure has stored. */
  lemma GuardsNeverDropEvents(env: Env, ues: seq<Ue>, run: nat -> Sys, n: nat, i: nat, hop: Hop, source: Cell, target: Cell)
    requires Starting(env, ues) && IsRun(env, ues, run) && i < |ues|
    ensures |run(n).ues| == |ues|
    ensures var s := run(n);
            s.queue != [] && s.queue[0].act == Own(i, HopJob(hop, source, target)) ==>
              var p := s.ues[i].proc; p.phase == Expects(hop) && p.source == source && p.target == target
  {
    hide UeOk;
    QueueAndPhaseInLockstep(env, ues, run, n, i);
    var s := run(n);
    if s.queue != [] && s.queue[0].act == Own(i, HopJob(hop, source, target)) {
      assert IsHopOf(s.queue[0].act, i);
    }
  }

  /** The serving chain: through a procedure the UE stays with its source cell and heads for another
      one; it holds exactly the target's configuration while evaluating and executing, and none
      otherwise; the data path is down exactly while executing; and it remembers the decision that
      started the procedure. */
  lemma ServingChain(env: Env, ues: seq<Ue>, run: nat -> Sys, n: nat, i: nat)
    requires Starting(env, ues) && IsRun(env, ues, run) && i < |ues|
    ensures |run(n).ues| == |ues|
    ensures var ue := run(n).ues[i];
            && ue.meas.serving == ue.serving
            && (ue.proc.phase != Idle ==> ue.proc.source == ue.serving != NO_CELL && ue.proc.target != ue.proc.source)
            && (ue.proc.phase == Evaluating || ue.proc.phase == Executing ==> ue.conf.configs.Keys == {ue.proc.target})
            && (ue.proc.phase != Evaluating && ue.proc.phase != Executing ==> ue.conf.configs == map[])
            && (ue.interruption <==> ue.proc.phase == Executing)
            && (ue.interruption ==> ue.errorRate == 1.0 && ue.proc.target != NO_CELL)
            && (env.cfg.strategy != Topsis && ue.proc.phase != Idle && ue.proc.target != NO_CELL ==>
                  && Remembers(env.cfg, ue, ue.proc.source, ue.proc.target, ue.proc.startTime)
                  && RemembersSnrs(ue, ue.proc.servingSnrAtReport, ue.proc.targetSnrAtReport))
  {
    hide HopsOf;
    ReachableUe(env, ues, run, n, i);
  }

  // ----- a cancel is never sent -----

  lemma CheckCancels(env: Env, ue: Ue, t: real)
    ensures Protocol.CheckHandover(env, ue, t).cancels == 0
  {
    hide TakeSurvey, Detected, FindCell, ConditionMet, Count, UplinkDelay, AppliedRate, Decide, ContextAfter;
  }

  lemma {:induction false} ChecksCancel(env: Env, s: Sys, k: nat)
    requires k <= |s.ues|
    ensures CheckHandovers(env, s, k).cancels == s.cancels
  {
    hide Protocol.CheckHandover, Schedule, Tag, Count;
    if k > 0 {
      ChecksCancel(env, s, k - 1);
      var s' := CheckHandovers(env, s, k - 1);
      CheckCancels(env, s'.ues[k - 1], s'.now);
    }
  }

  lemma StepCancels(env: Env, s: Sys)
    requires ValidEnv(env)
    requires s.queue != [] && s.queue[0].act.Own? && s.queue[0].act.job.HopJob? && s.queue[0].act.ue < |s.ues| ==>
               var ue, job := s.ues[s.queue[0].act.ue], s.queue[0].act.job;
               UeOk(env, ue) && Awaits(ue.proc.phase) == Some(job.hop) && job.source == ue.proc.source && job.target == ue.proc.target
    ensures Step(env, s).cancels == s.cancels
  {
    hide UeOk, HandleHop, Prepared, CheckHandovers, Schedule, Tag, Count, Awaits, KeepFor;
    if s.queue != [] {
      var popped := s.(now := s.queue[0].time, queue := s.queue[1..]);
      match s.queue[0].act
      case Tick =>
        var p := Prepared(env, popped);
        PreparedCancels(env, popped);
        ChecksCancel(env, p, |s.ues|);
      case Own(i, HopJob(hop, source, target)) =>
        if i < |s.ues| {
          HopOk(env, s.ues[i], popped.now, hop);
        }
      case Own(_, PredictJob(_)) =>
    }
  }

  lemma PreparedCancels(env: Env, s: Sys)
    ensures Prepared(env, s).cancels == s.cancels && |Prepared(env, s).ues| == |s.ues|
  {
  }

  lemma StepUes(env: Env, s: Sys)
    ensures |Step(env, s).ues| == |s.ues|
  {
    hide HandleHop, Schedule, Tag, Count, KeepFor, Protocol.CheckHandover;
  }

  lemma {:induction false} UesStay(env: Env, ues: seq<Ue>, run: nat -> Sys, n: nat)
    requires IsRun(env, ues, run)
    ensures |run(n).ues| == |ues|
  {
    hide Step;
    if n > 0 {
      UesStay(env, ues, run, n - 1);
      StepUes(env, run(n - 1));
      assert run(n) == Step(env, run(n - 1));
    }
  }

  /** HANDOVER_CANCEL is never emitted, however many UEs there are and however long the run. */
  lemma {:induction false} NoCancelIsEverSent(env: Env, ues: seq<Ue>, run: nat -> Sys, n: nat)
    requires Starting(env, ues) && IsRun(env, ues, run)
    ensures run(n).cancels == 0
  {
    hide Step, UeOk, HopsOf, Awaits;
    if n > 0 {
      NoCancelIsEverSent(env, ues, run, n - 1);
      var s := run(n - 1);
      UesStay(env, ues, run, n - 1);
      if s.queue != [] && s.queue[0].act.Own? && s.queue[0].act.job.HopJob? && s.queue[0].act.ue < |s.ues| {
        HeadHop(env, ues, run, n - 1, s.queue[0].act.ue);
      }
      StepCancels(env, s);
      assert run(n) == Step(env, s);
    }
  }

  lemma HeadHop(env: Env, ues: seq<Ue>, run: nat -> Sys, n: nat, i: nat)
    requires Starting(env, ues) && IsRun(env, ues, run) && i < |ues|
    ensures |run(n).ues| == |ues|
    ensures var s := run(n);
            s.queue != [] && IsHopOf(s.queue[0].act, i) ==>
              && UeOk(env, s.ues[i]) && Awaits(s.ues[i].proc.phase) == Some(s.queue[0].act.job.hop)
              && s.ues[i].proc.source == s.queue[0].act.job.source && s.ues[i].proc.target == s.queue[0].act.job.target
  {
    hide UeOk, HopsOf;
    ReachableUe(env, ues, run, n, i);
    MatchInQueue(run(n), i);
  }
}
