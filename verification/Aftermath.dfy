/** What an execution leaves behind: the pending flag, the loss rate and the failure mark. */
module Aftermath {
  import opened ChoTypes
  import opened Agenda
  import opened Channel
  import opened Protocol
  import opened SystemModel
  import opened Independence
  import opened Lockstep
  import opened StepCases
  import opened Reachable

  predicate LastFailed(rows: seq<Row>) {
    rows != [] && !rows[|rows| - 1].success
  }

  /** The pending flag means an execution under way or a failed last one, as only a success clears it;
      the failure mark means that no procedure has started since a last handover that failed. */
  ghost predicate FlagsOk(ue: Ue, rows: seq<Row>) {
    var p := ue.proc;
    && (ue.conf.executionPending <==> p.phase == Executing || LastFailed(rows))
    && (p.phase == Executing ==> ue.conf.executionTarget == p.target && ue.conf.executionTriggerTime == p.executionStart)
    && (p.failed ==> p.phase == Idle && LastFailed(rows))
  }

  /** Neither the flags nor the outcomes are touched, and no execution begins or ends. */
  ghost predicate Apart(a: Ue, o: Outcome) {
    && o.rows == [] && o.ue.conf.executionPending == a.conf.executionPending
    && o.ue.proc.phase != Executing && a.proc.phase != Executing
    && (o.ue.proc.failed ==> a.proc.failed && o.ue.proc.phase == Idle)
  }

  lemma ApartKeeps(a: Ue, o: Outcome, rows: seq<Row>)
    requires FlagsOk(a, rows) && Apart(a, o)
    ensures FlagsOk(o.ue, rows + o.rows)
  {
    assert rows + [] == rows;
  }

  lemma ExecuteKeeps(env: Env, ue: Ue, t: real, rows: seq<Row>)
    requires FlagsOk(ue, rows) && ue.proc.phase == Evaluating
    ensures var o := Execute(env, ue, t, ue.proc.source, ue.proc.target); o.rows == [] && FlagsOk(o.ue, rows)
  {
    hide Count, UplinkDelay, AppliedRate, LastFailed;
  }

  lemma EvaluationKeeps(env: Env, ue: Ue, t: real, rows: seq<Row>)
    requires FlagsOk(ue, rows) && ue.proc.phase == Evaluating
    ensures var o := CheckExecution(env, ue, t); FlagsOk(o.ue, rows + o.rows)
  {
    hide ConditionMet, Execute, Count, LastFailed;
    assert rows + [] == rows;
    ExecuteKeeps(env, ue.(checks := ue.checks + [Check(t, true)], proc := ue.proc.(tttActive := false)), t, rows);
  }

  lemma OccasionKeeps(env: Env, ue: Ue, o: Outcome, t: real, occasion: Occasion, rows: seq<Row>)
    requires Measured(env, Occasioned(ue, t), o, t, occasion) && ue.proc.phase == Idle && FlagsOk(ue, rows)
    ensures FlagsOk(o.ue, rows + o.rows)
  {
    hide UplinkDelay, Count, Sift, Decide, PlainLines, FlagsOk;
    ApartKeeps(ue, o, rows);
  }

  lemma TickKeeps(env: Env, ue: Ue, t: real, rows: seq<Row>)
    requires ValidEnv(env) && UeOk(env, ue) && FlagsOk(ue, rows)
    ensures var o := Protocol.CheckHandover(env, ue, t); FlagsOk(o.ue, rows + o.rows)
  {
    hide Protocol.CheckHandover, CheckExecution, Measured, UeOk, FlagsOk;
    var occasion := TickCase(env, ue, t);
    assert rows + [] == rows;
    if ue.proc.phase == Evaluating {
      EvaluationKeeps(env, ue, t, rows);
    } else if occasion.Some? {
      OccasionKeeps(env, ue, Protocol.CheckHandover(env, ue, t), t, occasion.value, rows);
    }
  }

  lemma HopKeeps(env: Env, ue: Ue, t: real, hop: Hop, rows: seq<Row>)
    requires FlagsOk(ue, rows) && Awaits(ue.proc.phase) == Some(hop)
    ensures var o := HandleHop(env, ue, t, hop, ue.proc.source, ue.proc.target); FlagsOk(o.ue, rows + o.rows)
  {
    hide Count, AppliedRate, LinkViable, Complete, Fail;
    assert rows + [] == rows;
    if hop == ExecutionComplete {
      EndKeeps(env, ue, t, rows);
    }
  }

  lemma EndKeeps(env: Env, ue: Ue, t: real, rows: seq<Row>)
    requires FlagsOk(ue, rows) && ue.proc.phase == Executing
    ensures var o := Complete(env, ue, t, ue.proc.source, ue.proc.target); FlagsOk(o.ue, rows + o.rows)
    ensures var o := Fail(env, ue, t); FlagsOk(o.ue, rows + o.rows)
  {
    hide Count, AppliedRate;
  }

  lemma PreparedKeeps(env: Env, ue: Ue, t: real, rows: seq<Row>)
    requires FlagsOk(ue, rows)
    ensures FlagsOk(PreparedUe(env, ue, t), rows)
  {
    hide Refresh, FirstServing, AppliedRate, LastFailed;
    RefreshFrame(env, ue, t, |env.satellites|);
  }

  lemma StepKeeps(env: Env, l: Local)
    requires ValidEnv(env) && Coherent(env, l) && FlagsOk(l.ue, l.rows)
    ensures FlagsOk(StepOwn(env, l).ue, StepOwn(env, l).rows)
  {
    hide StepOwn, UeOk, Protocol.CheckHandover, HandleHop, PreparedUe, Sift, FlagsOk;
    if l.queue == [] {
      EmptyStep(env, l);
    } else {
      StepCase(env, l);
      var t := l.queue[0].time;
      match l.queue[0].act {
        case OwnTick =>
          PreparedOk(env, l.ue, t);
          PreparedKeeps(env, l.ue, t, l.rows);
          TickKeeps(env, PreparedUe(env, l.ue, t), t, l.rows);
        case OwnJob(HopJob(hop, _, _)) =>
          HopKeeps(env, l.ue, t, hop, l.rows);
        case OwnJob(PredictJob(_)) =>
          assert l.rows + [] == l.rows;
      }
    }
  }

  lemma StartKeeps(ue: Ue)
    requires Initial(ue)
    ensures FlagsOk(ue, [])
  {
  }

  lemma {:induction false} RunKeeps(env: Env, ue: Ue, m: nat)
    requires ValidEnv(env) && Initial(ue)
    ensures var l := RunOwn(env, StartOwn(ue), m); FlagsOk(l.ue, l.rows)
  {
    hide Coherent, StepOwn, FlagsOk;
    StartKeeps(ue);
    if m > 0 {
      RunKeeps(env, ue, m - 1);
      RunCoherent(env, ue, m - 1);
      StepKeeps(env, RunOwn(env, StartOwn(ue), m - 1));
    }
  }

  /** In every run the pending flag of a UE is set exactly while it executes or after its last handover
      failed: a failure does not clear it. */
  lemma PendingMeansExecutingOrFailed(env: Env, ues: seq<Ue>, run: nat -> Sys, n: nat, i: nat)
    requires Starting(env, ues) && IsRun(env, ues, run) && i < |ues|
    ensures |run(n).ues| == |ues| && FlagsOk(run(n).ues[i], Of(run(n).rows, i))
  {
    hide RunOwn, FlagsOk;
    var m, l := OwnMoment(env, ues, run, i, n);
    RunKeeps(env, ues[i], m);
  }

  lemma MarkStep(env: Env, l: Local)
    requires ValidEnv(env) && Coherent(env, l) && FlagsOk(l.ue, l.rows) && l.ue.proc.failed
    ensures var p := StepOwn(env, l).ue.proc; p.phase == Idle ==> p.failed
  {
    hide StepOwn, UeOk, Protocol.CheckHandover, HandleHop, PreparedUe, Sift, Decide, PlainLines, UplinkDelay, Count;
    if l.queue == [] {
      EmptyStep(env, l);
    } else {
      StepCase(env, l);
      var t := l.queue[0].time;
      if l.queue[0].act == OwnTick {
        PreparedOk(env, l.ue, t);
        var occasion := TickCase(env, PreparedUe(env, l.ue, t), t);
      }
    }
  }

  /** The failure mark outlives every event that does not start a procedure. */
  lemma FailureMarkLasts(env: Env, ues: seq<Ue>, run: nat -> Sys, n: nat, i: nat)
    requires Starting(env, ues) && IsRun(env, ues, run) && i < |ues|
    ensures |run(n).ues| == |ues| == |run(n + 1).ues|
    ensures var p, p' := run(n).ues[i].proc, run(n + 1).ues[i].proc;
            p.failed ==> p.phase == Idle && (p'.phase == Idle <==> p'.failed)
  {
    hide StepOwn, FlagsOk, Coherent;
    var m, l := OwnMoment(env, ues, run, i, n);
    var m', l' := OwnMoment(env, ues, run, i, n + 1);
    RunKeeps(env, ues[i], m);
    RunKeeps(env, ues[i], m');
    RunCoherent(env, ues[i], m);
    MarkMeansIdle(l.ue, l.rows);
    MarkMeansIdle(l'.ue, l'.rows);
    if l.ue.proc.failed {
      MarkStep(env, l);
    }
  }

  lemma MarkMeansIdle(ue: Ue, rows: seq<Row>)
    requires FlagsOk(ue, rows)
    ensures ue.proc.failed ==> ue.proc.phase == Idle
  {
  }

  // ----- the link after a failure -----

  /** The execution's last event finds the target's link not viable. */
  ghost predicate FailsNext(env: Env, s: Sys, i: nat, source: Cell, target: Cell)
    requires i < |s.ues|
  {
    && s.queue != [] && s.queue[0].act == Own(i, HopJob(ExecutionComplete, source, target))
    && !LinkViable(env.cfg, s.ues[i].cache, target)
  }

  /** Idle again with the source cell, the interruption over, and still losing everything. */
  predicate LinkDown(ue: Ue, source: Cell) {
    && ue.proc.phase == Idle && ue.proc.failed && !ue.interruption && ue.errorRate == 1.0
    && ue.conf.executionPending && ue.serving == source && ue.conf.configs == map[] && source in ue.cache
  }

  /** A failed liveness check ends the interruption but not the total loss: the error rate stays 1
      until the next tick applies the channel again, whatever other events come first. */
  lemma {:induction false} FailureLeavesTheLinkDown(env: Env, ues: seq<Ue>, run: nat -> Sys, n: nat, m: nat, i: nat, source: Cell, target: Cell)
    requires Starting(env, ues) && IsRun(env, ues, run) && i < |ues|
    requires |run(n).ues| == |ues| && FailsNext(env, run(n), i, source, target)
    requires n < m && forall k :: n < k < m ==> !TickNext(run(k))
    ensures |run(m).ues| == |ues| && LinkDown(run(m).ues[i], source)
  {
    hide Step, LinkDown, FailsNext, TickNext;
    if m == n + 1 {
      RightAfterFailure(env, ues, run, n, i, source, target);
    } else {
      FailureLeavesTheLinkDown(env, ues, run, n, m - 1, i, source, target);
      UesStay(env, ues, run, m);
      StillDown(env, ues, run, m - 1, i, source);
    }
  }

  /** Between ticks nothing touches an idle UE. */
  lemma StillDown(env: Env, ues: seq<Ue>, run: nat -> Sys, n: nat, i: nat, source: Cell)
    requires Starting(env, ues) && IsRun(env, ues, run) && i < |ues| && !TickNext(run(n))
    requires |run(n).ues| == |ues| && LinkDown(run(n).ues[i], source)
    ensures |run(n + 1).ues| == |ues| && LinkDown(run(n + 1).ues[i], source)
  {
    hide HandleHop, Schedule, Count, Tag, KeepFor;
    var s := run(n);
    assert run(n + 1) == Step(env, s);
    if s.queue != [] && s.queue[0].act.job.HopJob? {
      var job := s.queue[0].act.job;
      GuardsNeverDropEvents(env, ues, run, n, i, job.hop, job.source, job.target);
    }
  }

  lemma RightAfterFailure(env: Env, ues: seq<Ue>, run: nat -> Sys, n: nat, i: nat, source: Cell, target: Cell)
    requires Starting(env, ues) && IsRun(env, ues, run) && i < |ues|
    requires |run(n).ues| == |ues| && FailsNext(env, run(n), i, source, target)
    ensures |run(n + 1).ues| == |ues| && LinkDown(run(n + 1).ues[i], source)
  {
    hide Step, FlagsOk, LinkViable;
    UesStay(env, ues, run, n + 1);
    assert run(n + 1) == Step(env, run(n));
    GuardsNeverDropEvents(env, ues, run, n, i, ExecutionComplete, source, target);
    ServingChain(env, ues, run, n, i);
    SourceIsCached(env, ues, run, n, i);
    PendingMeansExecutingOrFailed(env, ues, run, n, i);
    FailingStep(env, run(n), i, source, target);
    PendingWhileExecuting(run(n).ues[i], Of(run(n).rows, i));
  }

  lemma SourceIsCached(env: Env, ues: seq<Ue>, run: nat -> Sys, n: nat, i: nat)
    requires Starting(env, ues) && IsRun(env, ues, run) && i < |ues|
    ensures |run(n).ues| == |ues|
    ensures var ue := run(n).ues[i]; ue.proc.phase == Executing ==> ue.proc.source in ue.cache
  {
    hide HopsOf;
    ReachableUe(env, ues, run, n, i);
  }

  lemma PendingWhileExecuting(ue: Ue, rows: seq<Row>)
    requires FlagsOk(ue, rows) && ue.proc.phase == Executing
    ensures ue.conf.executionPending
  {
  }

  lemma FailingStep(env: Env, s: Sys, i: nat, source: Cell, target: Cell)
    requires s.queue != [] && i < |s.ues| && s.queue[0].act == Own(i, HopJob(ExecutionComplete, source, target))
    requires s.ues[i].proc.phase == Executing && !LinkViable(env.cfg, s.ues[i].cache, target)
    ensures |Step(env, s).ues| == |s.ues|
    ensures var a, b := s.ues[i], Step(env, s).ues[i];
            && b.proc.phase == Idle && b.proc.failed && !b.interruption && b.errorRate == a.errorRate
            && b.conf.executionPending == a.conf.executionPending && b.serving == a.serving && b.conf.configs == map[]
            && b.cache == a.cache
  {
    hide LinkViable, Count, Schedule, Tag;
  }
}
