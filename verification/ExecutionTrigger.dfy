/** Executions: each is backed by a condition that held at every tick for the whole time-to-trigger,
    so they are bounded in number and the recorded delays are bounded in sum. */
module ExecutionTrigger {
  import opened ChoTypes
  import opened Reals
  import opened Agenda
  import opened Channel
  import opened Protocol
  import opened ProtocolFacts
  import opened SystemModel
  import opened Independence
  import opened Lockstep
  import opened StepCases
  import opened Reachable
  import Conservation

  // ----- the condition held -----

  /** From `since` on, one evaluation per tick and each found the condition met. */
  ghost predicate Held(checks: seq<Check>, since: real) {
    exists k :: 0 <= k < |checks| && HeldFrom(checks, k) && checks[k].time == since
  }

  ghost predicate HeldFrom(checks: seq<Check>, k: nat)
    requires k <= |checks|
  {
    && (forall j :: k <= j < |checks| ==> checks[j].met)
    && (forall j :: k < j < |checks| ==> checks[j].time == checks[j - 1].time + TICK_PERIOD)
  }

  predicate LastAt(checks: seq<Check>, t: real) {
    checks != [] && checks[|checks| - 1].time == t
  }

  lemma HeldOn(checks: seq<Check>, since: real, t: real)
    requires Held(checks, since) && LastAt(checks, t - TICK_PERIOD)
    ensures Held(checks + [Check(t, true)], since)
  {
    var k :| 0 <= k < |checks| && HeldFrom(checks, k) && checks[k].time == since;
    assert HeldFrom(checks + [Check(t, true)], k);
  }

  lemma HeldNow(checks: seq<Check>, t: real)
    ensures Held(checks + [Check(t, true)], t)
  {
    assert HeldFrom(checks + [Check(t, true)], |checks|);
  }

  /** While the execution timer runs, and once it has run out. */
  ghost predicate TimerBacked(env: Env, ue: Ue, tick: real) {
    var p := ue.proc;
    && (p.phase == Evaluating || p.phase == Executing ==>
          p.configExpiry == p.configReceived + env.cfg.validity && p.timeToTrigger == env.cfg.executionTtt)
    && (p.phase == Evaluating && p.tttActive ==>
          && Held(ue.checks, p.tttStart) && LastAt(ue.checks, tick - TICK_PERIOD)
          && p.configReceived <= p.tttStart && p.source in ue.cache && p.target in ue.cache)
    && (p.phase == Executing ==>
          && Held(ue.checks, p.tttStart) && LastAt(ue.checks, p.executionStart)
          && p.configReceived <= p.tttStart && env.cfg.executionTtt <= p.executionStart - p.tttStart
          && p.executionStart <= p.configExpiry)
  }

  // ----- executions are far apart -----

  /** The last execution, or the start of time. */
  function LastExecution(ue: Ue): real {
    if ue.stats.executions == 0 then 0.0 else ue.proc.executionStart
  }

  /** Between two executions lie a whole measurement trigger and a whole execution trigger. */
  ghost predicate Paced(env: Env, ue: Ue, now: real) {
    var p, last := ue.proc, LastExecution(ue);
    && Times(ue.stats.executions as real, env.cfg.timeToTrigger + env.cfg.executionTtt) <= last <= now
    && (ue.meas.triggerActive ==> last <= ue.meas.triggerStart)
    && (p.phase != Idle ==> p.startTime <= now)
    && (p.phase != Idle && p.target != NO_CELL ==>
          !ue.meas.triggerActive && (p.phase != Executing ==> last + env.cfg.timeToTrigger <= p.startTime))
    && (p.phase == Evaluating ==> p.startTime <= p.configReceived <= now)
  }

  /** The recorded procedure delays exceed the execution delays by a bounded amount per success. */
  ghost predicate DelaysBounded(env: Env, s: Statistics) {
    var waited := s.totalProcedureDelay - s.totalExecutionDelay;
    Times(s.successes as real, env.cfg.executionTtt) <= waited <= Times(s.successes as real, env.cfg.validity)
  }

  /** What the three invariants say together. */
  ghost predicate KeptAt(env: Env, ue: Ue, now: real, tick: real) {
    TimerBacked(env, ue, tick) && Paced(env, ue, now) && DelaysBounded(env, ue.stats)
  }

  ghost predicate ExecutionsOk(env: Env, l: Local) {
    && |Ticks(l)| == 1 && l.now <= Ticks(l)[0].time <= l.now + TICK_PERIOD
    && KeptAt(env, l.ue, l.now, Ticks(l)[0].time)
  }

  lemma OneMore(n: nat, x: real)
    ensures Times((n + 1) as real, x) == Times(n as real, x) + x
  {
    hide Times;
    TimesLinear(n as real, 1.0, x);
  }

  // ----- every handler keeps it -----

  lemma ExpiryKeeps(env: Env, ue: Ue, t: real)
    requires ue.proc.phase == Evaluating && KeptAt(env, ue, t, t)
    ensures KeptAt(env, Expire(env, ue).ue, t, t + TICK_PERIOD)
  {
    hide Times, Held;
  }

  /** The timer runs out: the execution starts a whole trigger after the report. */
  lemma ExecuteKeeps(env: Env, ue: Ue, t: real)
    requires NO_CELL !in env.satellites && UeOk(env, ue) && ue.proc.phase == Evaluating
    requires KeptAt(env, ue.(proc := ue.proc.(tttActive := true)), t, t + TICK_PERIOD)
    requires t - ue.proc.tttStart >= env.cfg.executionTtt && t <= ue.proc.configExpiry
    requires ue.proc.target in ue.cache
    ensures KeptAt(env, Execute(env, ue, t, ue.proc.source, ue.proc.target).ue, t, t + TICK_PERIOD)
  {
    hide AppliedRate, UplinkDelay, Times, Held;
    OneMore(ue.stats.executions, env.cfg.timeToTrigger + env.cfg.executionTtt);
  }

  /** An evaluation that only moves the timer. */
  lemma TimerKeeps(env: Env, ue: Ue, t: real, met: bool)
    requires ue.proc.phase == Evaluating && KeptAt(env, ue, t, t)
    requires ue.proc.source in ue.cache && ue.proc.target in ue.cache
    ensures var checks := ue.checks + [Check(t, met)];
            && KeptAt(env, ue.(checks := checks, proc := ue.proc.(tttActive := false, tttStart := NO_TIME)), t, t + TICK_PERIOD)
            && (met ==> KeptAt(env, ue.(checks := checks, proc := ue.proc.(tttActive := true, tttStart := t)), t, t + TICK_PERIOD))
            && (met && ue.proc.tttActive ==> KeptAt(env, ue.(checks := checks), t, t + TICK_PERIOD))
  {
    hide Times, Held;
    HeldNow(ue.checks, t);
    if ue.proc.tttActive {
      HeldOn(ue.checks, ue.proc.tttStart, t);
    }
  }

  lemma SkippedKeeps(env: Env, ue: Ue, t: real)
    requires ue.proc.phase == Evaluating && KeptAt(env, ue, t, t)
    requires ue.proc.source !in ue.cache || ue.proc.target !in ue.cache
    ensures KeptAt(env, ue, t, t + TICK_PERIOD)
  {
    hide Times, Held;
  }

  lemma EvaluationKeeps(env: Env, ue: Ue, t: real)
    requires NO_CELL !in env.satellites && UeOk(env, ue) && ue.proc.phase == Evaluating && KeptAt(env, ue, t, t)
    ensures KeptAt(env, CheckExecution(env, ue, t).ue, t, t + TICK_PERIOD)
  {
    hide ConditionMet, Execute, Expire, KeptAt, UeOk;
    var source, target := ue.proc.source, ue.proc.target;
    if t > ue.proc.configExpiry {
      ExpiryKeeps(env, ue, t);
    } else if source !in ue.cache || target !in ue.cache {
      SkippedKeeps(env, ue, t);
    } else {
      TimerKeeps(env, ue, t, ConditionMet(env.cfg, ue.cache, source, target));
      TimerIs(env, ue, t);
      var checks := ue.checks + [Check(t, true)];
      if ConditionMet(env.cfg, ue.cache, source, target) && ue.proc.tttActive && t - ue.proc.tttStart >= ue.proc.timeToTrigger {
        var seen := ue.(checks := checks, proc := ue.proc.(tttActive := false));
        assert seen.(proc := seen.proc.(tttActive := true)) == ue.(checks := checks);
        TttOk(env, ue, checks, false, ue.proc.tttStart);
        ExecuteKeeps(env, seen, t);
      }
    }
  }

  lemma TimerIs(env: Env, ue: Ue, t: real)
    requires ue.proc.phase == Evaluating && KeptAt(env, ue, t, t)
    ensures ue.proc.timeToTrigger == env.cfg.executionTtt
  {
    hide Times, Held;
  }

  lemma MeasuredKeeps(env: Env, ue: Ue, o: Outcome, t: real, occasion: Occasion)
    requires Measured(env, Occasioned(ue, t), o, t, occasion) && ue.proc.phase == Idle && KeptAt(env, ue, t, t)
    ensures KeptAt(env, o.ue, t, t + TICK_PERIOD)
  {
    hide UplinkDelay, Times, Held, Sift, PlainLines;
  }

  lemma TickKeeps(env: Env, ue: Ue, t: real)
    requires ValidEnv(env) && UeOk(env, ue) && KeptAt(env, ue, t, t)
    ensures KeptAt(env, Protocol.CheckHandover(env, ue, t).ue, t, t + TICK_PERIOD)
  {
    hide Protocol.CheckHandover, CheckExecution, Measured, UeOk, KeptAt;
    var occasion := TickCase(env, ue, t);
    if ue.proc.phase == Evaluating {
      EvaluationKeeps(env, ue, t);
    } else if occasion.Some? {
      MeasuredKeeps(env, ue, Protocol.CheckHandover(env, ue, t), t, occasion.value);
    } else {
      RestKeeps(env, ue, t);
    }
  }

  lemma RestKeeps(env: Env, ue: Ue, t: real)
    requires ue.proc.phase != Evaluating && KeptAt(env, ue, t, t)
    ensures KeptAt(env, ue, t, t + TICK_PERIOD)
  {
    hide Times, Held;
  }

  lemma CompleteKeeps(env: Env, ue: Ue, t: real, tick: real)
    requires UeOk(env, ue) && ue.proc.phase == Executing && KeptAt(env, ue, t, tick)
    ensures KeptAt(env, Complete(env, ue, t, ue.proc.source, ue.proc.target).ue, t, tick)
  {
    hide AppliedRate, Times, Held;
    OneMore(ue.stats.successes, env.cfg.executionTtt);
    OneMore(ue.stats.successes, env.cfg.validity);
  }

  lemma FailKeeps(env: Env, ue: Ue, t: real, tick: real)
    requires UeOk(env, ue) && ue.proc.phase == Executing && KeptAt(env, ue, t, tick)
    ensures KeptAt(env, Fail(env, ue, t).ue, t, tick)
  {
    hide Times, Held;
  }

  lemma HopKeeps(env: Env, ue: Ue, hop: Hop, t: real, tick: real)
    requires UeOk(env, ue) && Awaits(ue.proc.phase) == Some(hop) && KeptAt(env, ue, t, tick)
    ensures KeptAt(env, HandleHop(env, ue, t, hop, ue.proc.source, ue.proc.target).ue, t, tick)
  {
    hide Complete, Fail, LinkViable, Times, Held;
    if hop == ExecutionComplete {
      CompleteKeeps(env, ue, t, tick);
      FailKeeps(env, ue, t, tick);
    }
  }

  lemma Later(env: Env, ue: Ue, now: real, t: real, tick: real)
    requires KeptAt(env, ue, now, tick) && now <= t
    ensures KeptAt(env, ue, t, tick)
  {
    hide Times;
  }

  lemma PreparedKeeps(env: Env, ue: Ue, t: real)
    requires ValidEnv(env) && UeOk(env, ue) && KeptAt(env, ue, t, t)
    ensures UeOk(env, PreparedUe(env, ue, t)) && KeptAt(env, PreparedUe(env, ue, t), t, t)
  {
    hide UeOk, PreparedUe, Times, Held;
    PreparedOk(env, ue, t);
    PreparedKeys(env, ue, t);
  }

  lemma StepKeeps(env: Env, l: Local)
    requires ValidEnv(env) && Coherent(env, l) && ExecutionsOk(env, l)
    ensures ExecutionsOk(env, StepOwn(env, l))
  {
    hide StepOwn, UeOk, Protocol.CheckHandover, HandleHop, PreparedUe, Sift, KeptAt;
    if l.queue == [] {
      EmptyStep(env, l);
    } else {
      StepCase(env, l);
      var t := l.queue[0].time;
      Later(env, l.ue, l.now, t, Ticks(l)[0].time);
      TickIsAhead(l);
      match l.queue[0].act {
        case OwnTick =>
          PreparedKeeps(env, l.ue, t);
          TickKeeps(env, PreparedUe(env, l.ue, t), t);
        case OwnJob(HopJob(hop, _, _)) =>
          HopKeeps(env, l.ue, hop, t, Ticks(l)[0].time);
        case OwnJob(PredictJob(_)) =>
      }
    }
  }

  lemma TickIsAhead(l: Local)
    requires Sorted(l.queue) && l.queue != [] && |Ticks(l)| == 1
    ensures l.queue[0].time <= Ticks(l)[0].time
  {
    hide Sift;
    SiftKeepsOrder(l.queue, IsTick(), l.queue[0].time);
  }

  lemma StartKeeps(env: Env, ue: Ue)
    requires Initial(ue)
    ensures ExecutionsOk(env, StartOwn(ue))
  {
  }

  lemma {:induction false} RunKeeps(env: Env, ue: Ue, m: nat)
    requires ValidEnv(env) && Initial(ue)
    ensures ExecutionsOk(env, RunOwn(env, StartOwn(ue), m))
  {
    hide Coherent, StepOwn, ExecutionsOk;
    StartKeeps(env, ue);
    if m > 0 {
      RunKeeps(env, ue, m - 1);
      RunCoherent(env, ue, m - 1);
      StepKeeps(env, RunOwn(env, StartOwn(ue), m - 1));
    }
  }

  // ----- the theorems -----

  /** Handover rate bound: at every moment of every run, a UE has started at most as many executions
      as whole triggers fit into the time so far, whatever happened to its radio link. */
  lemma HandoverRateBound(env: Env, ues: seq<Ue>, run: nat -> Sys, n: nat, i: nat)
    requires Starting(env, ues) && IsRun(env, ues, run) && i < |ues|
    ensures |run(n).ues| == |ues|
    ensures var s := run(n);
            Times(s.ues[i].stats.executions as real, env.cfg.timeToTrigger + env.cfg.executionTtt) <= s.now
  {
    hide RunOwn, TimerBacked, DelaysBounded, Times;
    var m, l := OwnMoment(env, ues, run, i, n);
    RunKeeps(env, ues[i], m);
  }

  /** An executing UE met its condition at every tick from `tttStart` to the execution, which spans the
      execution time-to-trigger, after it had the configuration and before that expired. */
  lemma ExecutionsAreBacked(env: Env, ues: seq<Ue>, run: nat -> Sys, n: nat, i: nat)
    requires Starting(env, ues) && IsRun(env, ues, run) && i < |ues|
    ensures |run(n).ues| == |ues|
    ensures var ue := run(n).ues[i];
            ue.proc.phase == Executing ==>
              && Held(ue.checks, ue.proc.tttStart) && LastAt(ue.checks, ue.proc.executionStart)
              && ue.proc.executionStart - ue.proc.tttStart >= env.cfg.executionTtt
              && ue.proc.configReceived <= ue.proc.tttStart
              && ue.proc.executionStart <= ue.proc.configReceived + env.cfg.validity
  {
    hide RunOwn, Paced, DelaysBounded, Times, Held, LastAt;
    var m, l := OwnMoment(env, ues, run, i, n);
    RunKeeps(env, ues[i], m);
  }

  /** What the successes of a UE waited between configuration and execution, in sum. */
  lemma ProcedureDelaysAreBounded(env: Env, ues: seq<Ue>, run: nat -> Sys, n: nat, i: nat)
    requires Starting(env, ues) && IsRun(env, ues, run) && i < |ues|
    ensures |run(n).ues| == |ues|
    ensures DelaysBounded(env, run(n).ues[i].stats)
  {
    hide RunOwn, Paced, TimerBacked, DelaysBounded;
    var m, l := OwnMoment(env, ues, run, i, n);
    RunKeeps(env, ues[i], m);
  }

  lemma {:induction false} BoundedTotals(env: Env, ues: seq<Ue>)
    requires forall i :: 0 <= i < |ues| ==> DelaysBounded(env, ues[i].stats)
    ensures var waited := Conservation.Total(ues, Conservation.ProcedureDelay) - Conservation.Total(ues, Conservation.ExecutionDelay);
            var n := Conservation.Total(ues, Conservation.Successes);
            Times(n, env.cfg.executionTtt) <= waited <= Times(n, env.cfg.validity)
  {
    hide Times;
    if ues == [] {
      TimesSign(0.0, env.cfg.executionTtt);
      TimesSign(0.0, env.cfg.validity);
    } else {
      BoundedTotals(env, ues[1..]);
      var rest := Conservation.Total(ues[1..], Conservation.Successes);
      assert DelaysBounded(env, ues[0].stats);
      TimesLinear(ues[0].stats.successes as real, rest, env.cfg.executionTtt);
      TimesLinear(ues[0].stats.successes as real, rest, env.cfg.validity);
    }
  }

  /** The same bound for the global statistics the simulator reports. */
  lemma GlobalDelaysAreBounded(env: Env, ues: seq<Ue>, run: nat -> Sys, n: nat)
    requires Starting(env, ues) && IsRun(env, ues, run)
    ensures DelaysBounded(env, run(n).stats)
  {
    hide Times, Conservation.Total, Conservation.Balanced, Conservation.AveragesOk;
    var s := run(n);
    UesStay(env, ues, run, n);
    forall i | 0 <= i < |s.ues| ensures DelaysBounded(env, s.ues[i].stats) {
      ProcedureDelaysAreBounded(env, ues, run, n, i);
    }
    BoundedTotals(env, s.ues);
    Conservation.CountersAreConserved(env, ues, run, n);
    assert Conservation.Read(s.stats, Conservation.ProcedureDelay) == Conservation.Total(s.ues, Conservation.ProcedureDelay);
    assert Conservation.Read(s.stats, Conservation.ExecutionDelay) == Conservation.Total(s.ues, Conservation.ExecutionDelay);
    assert Conservation.Read(s.stats, Conservation.Successes) == Conservation.Total(s.ues, Conservation.Successes);
  }
}
