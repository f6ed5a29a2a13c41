/** What an evaluation of the execution condition compares, and that a condition which holds for the whole
    execution time-to-trigger is executed. */
module Evaluation {
  import opened ChoTypes
  import opened Agenda
  import opened Channel
  import opened Protocol
  import opened SystemModel
  import opened Independence
  import opened Lockstep
  import opened StepCases
  import opened Reachable
  import opened Moments

  /** The target is better than the serving cell by the offset, and the serving cell not out of bounds. */
  predicate Better(cfg: Config, s: Metrics, g: Metrics) {
    if cfg.strategy == Distance
    then s.distance / 1000.0 - g.distance / 1000.0 >= cfg.executionOffset && s.distance / 1000.0 < cfg.maxDistance
    else g.snr - s.snr >= cfg.executionOffset && s.snr > cfg.minSnr
  }

  // ----- one evaluation -----

  /** What an evaluation at `t` makes of an evaluating UE: the configuration expires, or the condition is
      checked on the cached cells, or one of them is not cached and nothing happens. */
  ghost predicate Evaluated(env: Env, a: Ue, b: Ue, t: real) {
    var p, q := a.proc, b.proc;
    && b.cache == a.cache
    && if t > p.configExpiry then
         q.phase == Idle && b.checks == a.checks && b.conf.configs == map[] && b.stats.expired == a.stats.expired + 1
       else if p.source in a.cache && p.target in a.cache then
         var s, g := a.cache[p.source].metrics, a.cache[p.target].metrics;
         && b.checks == a.checks + [Check(t, Better(env.cfg, s, g))]
         && (q.phase == Evaluating || q.phase == Executing) && q.source == p.source && q.target == p.target
         && (q.phase == Executing ==>
               && Better(env.cfg, s, g) && q.executionStart == t
               && q.servingSnrAtExecution == s.snr && q.targetSnrAtExecution == g.snr)
       else b == a
  }

  lemma EvaluationIs(env: Env, ue: Ue, t: real)
    requires ue.proc.phase == Evaluating
    ensures Evaluated(env, ue, CheckExecution(env, ue, t).ue, t)
  {
    hide UplinkDelay, AppliedRate;
  }

  // ----- what every UE keeps -----

  /** Every check from `k` on was made in the procedure under way and found the condition met. */
  ghost predicate MetSince(ue: Ue, k: nat) {
    k < |ue.checks| && ue.proc.startTime <= ue.checks[k].time && forall j :: k <= j < |ue.checks| ==> ue.checks[j].met
  }

  ghost predicate ChecksBefore(ue: Ue, t: real) {
    forall j :: 0 <= j < |ue.checks| ==> ue.checks[j].time < t
  }

  ghost predicate TimerRuns(ue: Ue) {
    forall k: nat :: MetSince(ue, k) ==> ue.proc.tttActive && ue.proc.tttStart <= ue.checks[k].time
  }

  ghost predicate Compared(env: Env, ue: Ue, tick: real) {
    var p := ue.proc;
    && ChecksBefore(ue, tick)
    && (Preparing(p.phase) ==> ChecksBefore(ue, p.startTime))
    && (p.phase == Evaluating ==>
          && TimerRuns(ue) && (p.tttActive ==> p.tttStart < tick)
          && p.timeToTrigger == env.cfg.executionTtt && p.configExpiry == p.configReceived + env.cfg.validity)
    && (p.phase == Executing && env.cfg.strategy != Distance ==>
          p.targetSnrAtExecution - p.servingSnrAtExecution >= env.cfg.executionOffset && p.servingSnrAtExecution > env.cfg.minSnr)
  }

  ghost predicate ComparedOk(env: Env, l: Local) {
    |Ticks(l)| == 1 && Compared(env, l.ue, Ticks(l)[0].time)
  }

  lemma NotMet(a: Ue, b: Ue, t: real)
    requires b.checks == a.checks + [Check(t, false)]
    ensures TimerRuns(b)
  {
    assert b.checks[|a.checks|] == Check(t, false);
  }

  lemma MetBefore(a: Ue, b: Ue, c: Check)
    requires b.checks == a.checks + [c] && b.proc.startTime == a.proc.startTime
    ensures forall k: nat :: MetSince(b, k) ==> if k < |a.checks| then MetSince(a, k) && b.checks[k] == a.checks[k] else b.checks[k] == c
  {
    assert b.checks[|a.checks|] == c;
    assert forall j :: 0 <= j < |a.checks| ==> b.checks[j] == a.checks[j];
  }

  lemma MetFirst(a: Ue, b: Ue, t: real)
    requires TimerRuns(a) && !a.proc.tttActive && b.checks == a.checks + [Check(t, true)]
    requires b.proc.startTime == a.proc.startTime && b.proc.tttActive && b.proc.tttStart == t
    ensures TimerRuns(b)
  {
    hide MetSince;
    MetBefore(a, b, Check(t, true));
  }

  lemma MetOn(a: Ue, b: Ue, t: real)
    requires TimerRuns(a) && a.proc.tttActive && a.proc.tttStart < t && b.checks == a.checks + [Check(t, true)] && b.proc == a.proc
    ensures TimerRuns(b)
  {
    MetBefore(a, b, Check(t, true));
  }

  lemma NoChecksYet(ue: Ue)
    requires ChecksBefore(ue, ue.proc.startTime)
    ensures TimerRuns(ue)
  {
  }

  lemma MoreChecks(a: Ue, b: Ue, t: real, met: bool, tick: real)
    requires ChecksBefore(a, t) && b.checks == a.checks + [Check(t, met)] && t < tick
    ensures ChecksBefore(b, tick)
  {
  }

  lemma EvaluationKeeps(env: Env, ue: Ue, t: real)
    requires ue.proc.phase == Evaluating && Compared(env, ue, t)
    ensures Compared(env, CheckExecution(env, ue, t).ue, t + TICK_PERIOD)
  {
    hide AppliedRate, UplinkDelay, Count, TimerRuns, ConditionMet, ChecksBefore;
    EvaluationIs(env, ue, t);
    var b := CheckExecution(env, ue, t).ue;
    LaterChecks(ue, t, t + TICK_PERIOD);
    if b.checks == ue.checks {
      SameTimer(ue, b);
      LaterChecks(b, t, t + TICK_PERIOD);
    } else {
      var met := b.checks[|ue.checks|].met;
      MoreChecks(ue, b, t, met, t + TICK_PERIOD);
      if !met {
        NotMet(ue, b, t);
      } else if b.proc.phase == Evaluating {
        if ue.proc.tttActive {
          MetOn(ue, b, t);
        } else {
          MetFirst(ue, b, t);
        }
      }
    }
  }

  lemma LaterChecks(ue: Ue, t: real, tick: real)
    requires t <= tick
    ensures ChecksBefore(ue, t) ==> ChecksBefore(ue, tick)
  {
  }

  lemma SameTimer(a: Ue, b: Ue)
    requires b.checks == a.checks
    ensures forall t :: ChecksBefore(a, t) ==> ChecksBefore(b, t)
    ensures (TimerRuns(a) && b.proc.startTime == a.proc.startTime && b.proc.tttActive == a.proc.tttActive
             && b.proc.tttStart == a.proc.tttStart) ==> TimerRuns(b)
  {
    assert b.proc.startTime == a.proc.startTime ==> forall k: nat :: MetSince(b, k) ==> MetSince(a, k);
  }

  lemma OccasionKeeps(env: Env, ue: Ue, o: Outcome, t: real, x: Occasion)
    requires Measured(env, Occasioned(ue, t), o, t, x) && ue.proc.phase == Idle && Compared(env, ue, t)
    ensures Compared(env, o.ue, t + TICK_PERIOD)
  {
    hide UplinkDelay, Sift, PlainLines, TimerRuns, ChecksBefore, Decide, Count;
    SameTimer(ue, o.ue);
    LaterChecks(o.ue, t, t + TICK_PERIOD);
  }

  lemma TickKeeps(env: Env, ue: Ue, t: real)
    requires ValidEnv(env) && UeOk(env, ue) && Compared(env, ue, t)
    ensures Compared(env, Protocol.CheckHandover(env, ue, t).ue, t + TICK_PERIOD)
  {
    hide Protocol.CheckHandover, CheckExecution, Measured, UeOk, TimerRuns, ChecksBefore;
    var x := TickCase(env, ue, t);
    LaterChecks(ue, t, t + TICK_PERIOD);
    if ue.proc.phase == Evaluating {
      EvaluationKeeps(env, ue, t);
    } else if x.Some? {
      OccasionKeeps(env, ue, Protocol.CheckHandover(env, ue, t), t, x.value);
    }
  }

  lemma HopKeeps(env: Env, ue: Ue, t: real, hop: Hop, tick: real)
    requires Compared(env, ue, tick) && Awaits(ue.proc.phase) == Some(hop)
    ensures Compared(env, HandleHop(env, ue, t, hop, ue.proc.source, ue.proc.target).ue, tick)
  {
    hide AppliedRate, LinkViable, Count, ChecksBefore, TimerRuns;
    var b := HandleHop(env, ue, t, hop, ue.proc.source, ue.proc.target).ue;
    SameTimer(ue, b);
    if hop == UeStoresConfig {
      NoChecksYet(b);
    }
  }

  lemma PreparedKeeps(env: Env, ue: Ue, t: real)
    requires ValidEnv(env) && UeOk(env, ue) && Compared(env, ue, t)
    ensures UeOk(env, PreparedUe(env, ue, t)) && Compared(env, PreparedUe(env, ue, t), t)
  {
    hide UeOk, PreparedUe, ChecksBefore, TimerRuns;
    PreparedOk(env, ue, t);
    SameTimer(ue, PreparedUe(env, ue, t));
  }

  lemma StepKeeps(env: Env, l: Local)
    requires ValidEnv(env) && Coherent(env, l) && ComparedOk(env, l)
    ensures ComparedOk(env, StepOwn(env, l))
  {
    hide StepOwn, UeOk, Protocol.CheckHandover, HandleHop, PreparedUe, Sift, Compared;
    if l.queue == [] {
      EmptyStep(env, l);
    } else {
      StepCase(env, l);
      var t := l.queue[0].time;
      match l.queue[0].act {
        case OwnTick =>
          PreparedKeeps(env, l.ue, t);
          TickKeeps(env, PreparedUe(env, l.ue, t), t);
        case OwnJob(HopJob(hop, _, _)) =>
          HopKeeps(env, l.ue, t, hop, Ticks(l)[0].time);
        case OwnJob(PredictJob(_)) =>
      }
    }
  }

  lemma StartKeeps(env: Env, ue: Ue)
    requires Initial(ue)
    ensures ComparedOk(env, StartOwn(ue))
  {
  }

  lemma {:induction false} RunKeeps(env: Env, ue: Ue, m: nat)
    requires ValidEnv(env) && Initial(ue)
    ensures ComparedOk(env, RunOwn(env, StartOwn(ue), m))
  {
    hide Coherent, StepOwn, ComparedOk;
    StartKeeps(env, ue);
    if m > 0 {
      RunKeeps(env, ue, m - 1);
      RunCoherent(env, ue, m - 1);
      StepKeeps(env, RunOwn(env, StartOwn(ue), m - 1));
    }
  }

  // ----- the theorems -----

  lemma ComparedInARun(env: Env, ues: seq<Ue>, run: nat -> Sys, n: nat, i: nat) returns (tick: real)
    requires Starting(env, ues) && IsRun(env, ues, run) && i < |ues|
    ensures |run(n).ues| == |ues| && Compared(env, run(n).ues[i], tick)
    ensures TickNext(run(n)) ==> tick == run(n).queue[0].time
  {
    hide Step, StepOwn, RunOwn, Initial, Sift, Compared;
    var m, l := OwnStep(env, ues, run, n, i);
    RunKeeps(env, ues[i], m);
    tick := Ticks(l)[0].time;
    if TickNext(run(n)) {
      HeadTick(l);
    }
  }

  /** A UE that executes does so towards a cell whose SNR was better by the execution offset than that of
      its serving cell, which was above the minimum, when the execution began. */
  lemma ExecutionsImprove(env: Env, ues: seq<Ue>, run: nat -> Sys, n: nat, i: nat)
    requires Starting(env, ues) && IsRun(env, ues, run) && i < |ues| && env.cfg.strategy != Distance
    ensures |run(n).ues| == |ues|
    ensures var p := run(n).ues[i].proc;
            p.phase == Executing ==>
              && p.targetSnrAtExecution - p.servingSnrAtExecution >= env.cfg.executionOffset
              && p.servingSnrAtExecution > env.cfg.minSnr
  {
    hide TimerRuns, ChecksBefore;
    var tick := ComparedInARun(env, ues, run, n, i);
  }

  /** At every tick an evaluating UE drops a configuration older than its validity; otherwise, if both
      cells are cached, it records a check, which is met if and only if the cached metrics say so, and it
      executes only on a check that is met. */
  lemma EvaluationsCompare(env: Env, ues: seq<Ue>, run: nat -> Sys, n: nat, i: nat)
    requires Starting(env, ues) && IsRun(env, ues, run) && i < |ues| && TickNext(run(n))
    requires |run(n).ues| == |ues| && run(n).ues[i].proc.phase == Evaluating
    ensures |run(n + 1).ues| == |ues|
    ensures var a, b := AtTick(env, run(n), i), run(n + 1).ues[i];
            && a.proc == run(n).ues[i].proc && a.checks == run(n).ues[i].checks
            && a.proc.configExpiry == a.proc.configReceived + env.cfg.validity
            && Evaluated(env, a, b, run(n + 1).now)
  {
    hide Step, Initial, UeOk, PreparedUe, CheckExecution, Evaluated, TimerRuns, ChecksBefore;
    TickStep(env, ues, run, n, i);
    var tick := ComparedInARun(env, ues, run, n, i);
    PreparedOk(env, run(n).ues[i], run(n).queue[0].time);
    EvaluationIs(env, AtTick(env, run(n), i), run(n + 1).now);
  }

  /** A condition that holds long enough is executed: if every check of the procedure from the `k`-th on was
      met, this tick's included, and they span the execution time-to-trigger, the UE executes now. */
  lemma HeldLongEnoughExecutes(env: Env, ues: seq<Ue>, run: nat -> Sys, n: nat, i: nat, k: nat)
    requires Starting(env, ues) && IsRun(env, ues, run) && i < |ues| && TickNext(run(n))
    requires |run(n).ues| == |ues| == |run(n + 1).ues| && run(n).ues[i].proc.phase == Evaluating
    requires var a, checks := run(n).ues[i], run(n + 1).ues[i].checks;
             && |a.checks| < |checks| && k < |checks| - 1 && a.proc.startTime <= checks[k].time
             && (forall j :: k <= j < |checks| ==> checks[j].met)
             && run(n + 1).now - checks[k].time >= env.cfg.executionTtt
    ensures var p := run(n + 1).ues[i].proc;
            p.phase == Executing && p.executionStart == run(n + 1).now && p.target == run(n).ues[i].proc.target
  {
    hide Step, Initial, UeOk, PreparedUe, CheckExecution, TimerRuns, ChecksBefore, Better;
    EvaluationsCompare(env, ues, run, n, i);
    TickStep(env, ues, run, n, i);
    var tick := ComparedInARun(env, ues, run, n, i);
    DueExecutes(env, run(n).ues[i], AtTick(env, run(n), i), run(n + 1).now, k);
  }

  function Last(checks: seq<Check>): Check
    requires checks != []
  {
    checks[|checks| - 1]
  }

  lemma DueExecutes(env: Env, before: Ue, ue: Ue, t: real, k: nat)
    requires before.proc == ue.proc && before.checks == ue.checks && ue.proc.phase == Evaluating && Compared(env, before, t)
    requires var checks := CheckExecution(env, ue, t).ue.checks;
             && |ue.checks| < |checks| && k < |checks| - 1 && ue.proc.startTime <= checks[k].time
             && (forall j :: k <= j < |checks| ==> checks[j].met) && t - checks[k].time >= env.cfg.executionTtt
    ensures var p := CheckExecution(env, ue, t).ue.proc; p.phase == Executing && p.executionStart == t && p.target == ue.proc.target
  {
    hide ChecksBefore, AppliedRate, UplinkDelay, Count;
    var checks := CheckExecution(env, ue, t).ue.checks;
    assert checks == ue.checks + [Last(checks)];
    assert forall j :: 0 <= j < |ue.checks| ==> checks[j] == ue.checks[j];
    assert checks[|ue.checks|].met;
    assert MetSince(before, k);
  }
}
