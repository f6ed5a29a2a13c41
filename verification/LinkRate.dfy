/** The packet error rate a UE suffers: that of its serving link's SNR, but for executions and what a
    failed one leaves behind. */
module LinkRate {
  import opened ChoTypes
  import opened Agenda
  import opened Channel
  import opened Protocol
  import opened SystemModel
  import opened Independence
  import opened Lockstep
  import opened StepCases
  import opened Reachable
  import opened Moments
  import opened Aftermath
  import CandidateChoice

  /** Connected, on the air, and losing what the SNR of the serving link makes it lose. */
  predicate Carries(env: Env, ue: Ue, cache: Cache) {
    && ue.serving in cache && !ue.interruption && ue.errorRate == env.errorRate(cache[ue.serving].metrics.snr)
  }

  lemma PreparedCarries(env: Env, ue: Ue, t: real)
    ensures var p := PreparedUe(env, ue, t);
            p.serving != NO_CELL && p.serving in p.cache && !p.interruption ==> Carries(env, p, p.cache)
  {
    hide Refresh, FirstServing;
  }

  /** The decision of a tick leaves the rate and the serving cell, or takes the link down. */
  lemma CheckLeavesTheRate(env: Env, ue: Ue, t: real)
    requires ValidEnv(env) && UeOk(env, ue)
    ensures var r := Protocol.CheckHandover(env, ue, t).ue;
            r.serving == NO_CELL || r.interruption
            || (r.serving == ue.serving && r.errorRate == ue.errorRate && r.interruption == ue.interruption)
    ensures ue.proc.phase == Idle ==> !Protocol.CheckHandover(env, ue, t).ue.interruption
  {
    hide Protocol.CheckHandover, UeOk, Sift, PlainLines, Decide, Count, UplinkDelay;
    var x := TickCase(env, ue, t);
    NotInterrupted(env, ue);
    if ue.proc.phase == Evaluating {
      EvaluationLeavesTheRate(env, ue, t);
    }
  }

  lemma NotInterrupted(env: Env, ue: Ue)
    requires UeOk(env, ue)
    ensures ue.proc.phase == Idle ==> !ue.interruption
  {
  }

  lemma EvaluationLeavesTheRate(env: Env, ue: Ue, t: real)
    requires ue.proc.phase == Evaluating
    ensures var r := CheckExecution(env, ue, t).ue;
            r.interruption || (r.serving == ue.serving && r.errorRate == ue.errorRate && r.interruption == ue.interruption)
  {
    hide ConditionMet, Count, UplinkDelay;
  }

  /** After every tick a UE that is connected to a cached cell and not interrupted loses what the SNR of
      that cell, as sampled at the tick, makes it lose. */
  lemma TicksApplyTheChannel(env: Env, ues: seq<Ue>, run: nat -> Sys, n: nat, i: nat)
    requires Starting(env, ues) && IsRun(env, ues, run) && i < |ues| && TickNext(run(n)) && |run(n).ues| == |ues|
    ensures |run(n + 1).ues| == |ues|
    ensures var a, b := AtTick(env, run(n), i), run(n + 1).ues[i];
            b.serving != NO_CELL && b.serving in a.cache && !b.interruption ==> Carries(env, b, a.cache)
  {
    hide Step, Initial, UeOk, PreparedUe, Protocol.CheckHandover;
    TickStep(env, ues, run, n, i);
    PreparedCarries(env, run(n).ues[i], run(n).queue[0].time);
    CheckLeavesTheRate(env, AtTick(env, run(n), i), run(n + 1).now);
  }

  lemma PreparedServes(env: Env, ue: Ue, t: real)
    ensures var p := PreparedUe(env, ue, t);
            p.serving == if ue.serving == NO_CELL then FirstServing(env, p.cache, t) else ue.serving
  {
    hide Refresh, FirstServing, AppliedRate;
    RefreshFrame(env, ue, t, |env.satellites|);
  }

  /** Every tick connects a UE that has no cell, unless no satellite is acceptable on the channel just
      sampled: to the first of the nearest, or strongest, of those that are. */
  lemma TicksConnect(env: Env, ues: seq<Ue>, run: nat -> Sys, n: nat, i: nat) returns (at: nat)
    requires Starting(env, ues) && IsRun(env, ues, run) && i < |ues| && TickNext(run(n)) && |run(n).ues| == |ues|
    requires run(n).ues[i].serving == NO_CELL
    ensures var a, t := AtTick(env, run(n), i), run(n).queue[0].time;
            && (a.serving == NO_CELL <==>
                  forall j :: 0 <= j < |env.satellites| ==> !CandidateChoice.Acceptable(env, a.cache, env.satellites[j], t))
            && (a.serving != NO_CELL ==>
                  && at < |env.satellites| && a.serving == env.satellites[at]
                  && CandidateChoice.Acceptable(env, a.cache, a.serving, t)
                  && forall j :: 0 <= j < |env.satellites| && CandidateChoice.Acceptable(env, a.cache, env.satellites[j], t) ==>
                       var m, best := a.cache[env.satellites[j]].metrics, a.cache[a.serving].metrics;
                       if env.cfg.strategy == Distance then best.distance < m.distance || (best.distance == m.distance && at <= j)
                       else m.snr < best.snr || (m.snr == best.snr && at <= j))
  {
    hide PreparedUe, Step, FirstServing, Channel.Eligible;
    var a, t := AtTick(env, run(n), i), run(n).queue[0].time;
    PreparedServes(env, run(n).ues[i], t);
    at := CandidateChoice.FirstServingIsBest(env, a.cache, t);
    if a.serving != NO_CELL {
      forall j | 0 <= j < |env.satellites| && CandidateChoice.Acceptable(env, a.cache, env.satellites[j], t)
        ensures Channel.Eligible(env, a.cache, env.satellites[j], t)
      {
        CandidateChoice.AcceptableIs(env, a.cache, env.satellites[j], t);
      }
    }
  }

  /** What the liveness check asks of the target's link. */
  predicate Viable(cfg: Config, cache: Cache, cell: Cell) {
    && cell in cache && cache[cell].metrics.snr >= cfg.minViableSinr
    && cache[cell].metrics.distance / 1000.0 <= cfg.maxViableDistance && cache[cell].metrics.elevation >= 0.0
  }

  /** An execution succeeds if and only if the target's link is viable. Then the UE is served by the
      target, at once with the error rate of that link, and the time since the configuration and the time of
      the execution are added to the delays; otherwise it stays with its source and its link is down.
      Either way the interruption is over, and one row says which. */
  lemma ExecutionsEnd(env: Env, ues: seq<Ue>, run: nat -> Sys, n: nat, i: nat, source: Cell, target: Cell)
    requires Starting(env, ues) && IsRun(env, ues, run) && i < |ues|
    requires run(n).queue != [] && run(n).queue[0].act == Own(i, HopJob(ExecutionComplete, source, target))
    ensures |run(n).ues| == |ues| == |run(n + 1).ues|
    ensures var a, b := run(n).ues[i], run(n + 1).ues[i];
            && run(n + 1).rows == run(n).rows + [Tagged(i, Row(run(n + 1).now, source, target, Viable(env.cfg, a.cache, target)))]
            && b.proc.phase == Idle && !b.interruption && b.cache == a.cache
            && if Viable(env.cfg, a.cache, target)
               then && b.serving == target && Carries(env, b, a.cache) && b.hoCount == a.hoCount + 1 && b.hoFail == a.hoFail
                    && b.stats.totalProcedureDelay == a.stats.totalProcedureDelay + (run(n + 1).now - a.proc.configReceived)
                    && b.stats.totalExecutionDelay == a.stats.totalExecutionDelay + (run(n + 1).now - a.proc.executionStart)
               else LinkDown(b, source) && b.hoCount == a.hoCount && b.hoFail == a.hoFail + 1
  {
    hide Step, LinkDown, UeOk, HopsOf;
    UesStay(env, ues, run, n);
    UesStay(env, ues, run, n + 1);
    assert run(n + 1) == Step(env, run(n));
    GuardsNeverDropEvents(env, ues, run, n, i, ExecutionComplete, source, target);
    ReachableUe(env, ues, run, n, i);
    TargetIsNamed(env, run(n).ues[i]);
    EndStep(env, run(n), i, source, target);
    if !Viable(env.cfg, run(n).ues[i].cache, target) {
      RightAfterFailure(env, ues, run, n, i, source, target);
    }
  }

  lemma TargetIsNamed(env: Env, ue: Ue)
    requires UeOk(env, ue) && ue.proc.phase == Executing
    ensures ue.proc.target != NO_CELL
  {
  }

  /** What the handler of the last event makes of the UE. */
  ghost predicate Ended(env: Env, a: Ue, o: Outcome, t: real, source: Cell, target: Cell) {
    var b, viable := o.ue, Viable(env.cfg, a.cache, target);
    && o.rows == [Row(t, source, target, viable)]
    && b.proc.phase == Idle && !b.interruption && b.cache == a.cache
    && if viable then
         && b.serving == target && Carries(env, b, a.cache) && b.hoCount == a.hoCount + 1 && b.hoFail == a.hoFail
         && b.stats.totalProcedureDelay == a.stats.totalProcedureDelay + (t - a.proc.configReceived)
         && b.stats.totalExecutionDelay == a.stats.totalExecutionDelay + (t - a.proc.executionStart)
       else b.hoCount == a.hoCount && b.hoFail == a.hoFail + 1
  }

  lemma CompleteEnds(env: Env, ue: Ue, t: real, source: Cell, target: Cell)
    requires Viable(env.cfg, ue.cache, target) && target != NO_CELL
    ensures Ended(env, ue, Complete(env, ue, t, source, target), t, source, target)
  {
    hide ExecutionLines, ContextMatches, ClearContext;
  }

  lemma FailEnds(env: Env, ue: Ue, t: real)
    requires !Viable(env.cfg, ue.cache, ue.proc.target)
    ensures Ended(env, ue, Fail(env, ue, t), t, ue.proc.source, ue.proc.target)
  {
    hide ExecutionLines, ClearContext, Count, Viable;
  }

  lemma EndIs(env: Env, ue: Ue, t: real, source: Cell, target: Cell)
    requires ue.proc.phase == Executing && ue.proc.source == source && ue.proc.target == target && target != NO_CELL
    ensures Ended(env, ue, HandleHop(env, ue, t, ExecutionComplete, source, target), t, source, target)
  {
    hide Complete, Fail, Ended;
    if Viable(env.cfg, ue.cache, target) {
      CompleteEnds(env, ue, t, source, target);
    } else {
      FailEnds(env, ue, t);
    }
  }

  lemma EndStep(env: Env, s: Sys, i: nat, source: Cell, target: Cell)
    requires s.queue != [] && i < |s.ues| && s.queue[0].act == Own(i, HopJob(ExecutionComplete, source, target)) && target != NO_CELL
    requires var p := s.ues[i].proc; p.phase == Executing && p.source == source && p.target == target
    ensures var s', t := Step(env, s), s.queue[0].time;
            && |s'.ues| == |s.ues| && s'.now == t
            && s'.rows == s.rows + [Tagged(i, Row(t, source, target, Viable(env.cfg, s.ues[i].cache, target)))]
            && exists o :: Ended(env, s.ues[i], o, t, source, target) && s'.ues[i] == o.ue
  {
    hide HandleHop, Schedule, Count, Carries, Viable, Tag;
    var t := s.queue[0].time;
    EndIs(env, s.ues[i], t, source, target);
    OneRow(i, Row(t, source, target, Viable(env.cfg, s.ues[i].cache, target)));
    assert Ended(env, s.ues[i], HandleHop(env, s.ues[i], t, ExecutionComplete, source, target), t, source, target);
  }

  lemma OneRow(i: nat, row: Row)
    ensures Tag(i, [row]) == [Tagged(i, row)]
  {
  }

  /** The tick that ends the loss a failure left behind: the UE is on its old cell again, with the error
      rate of the SNR just sampled, or has given that cell up. */
  lemma TheNextTickEndsTheLoss(env: Env, ues: seq<Ue>, run: nat -> Sys, n: nat, m: nat, i: nat, source: Cell, target: Cell)
    requires Starting(env, ues) && IsRun(env, ues, run) && i < |ues|
    requires |run(n).ues| == |ues| && FailsNext(env, run(n), i, source, target)
    requires n < m && (forall k :: n < k < m ==> !TickNext(run(k))) && TickNext(run(m)) && |run(m).ues| == |ues|
    ensures |run(m + 1).ues| == |ues|
    ensures var a, b := AtTick(env, run(m), i), run(m + 1).ues[i];
            b.serving == NO_CELL || (b.serving == source && Carries(env, b, a.cache))
  {
    hide Step, Initial, UeOk, PreparedUe, Protocol.CheckHandover, FailsNext, Carries;
    FailureLeavesTheLinkDown(env, ues, run, n, m, i, source, target);
    TickStep(env, ues, run, m, i);
    var t := run(m).queue[0].time;
    var ue, p := run(m).ues[i], AtTick(env, run(m), i);
    PreparedOk(env, ue, t);
    PreparedKeys(env, ue, t);
    NotInterrupted(env, p);
    CheckLeavesTheRate(env, p, t);
    TicksApplyTheChannel(env, ues, run, m, i);
    SourceIsNamed(env, ues, run, n, i, source, target);
    assert source in ue.cache.Keys && source in p.cache;
  }

  lemma SourceIsNamed(env: Env, ues: seq<Ue>, run: nat -> Sys, n: nat, i: nat, source: Cell, target: Cell)
    requires Starting(env, ues) && IsRun(env, ues, run) && i < |ues|
    requires |run(n).ues| == |ues| && FailsNext(env, run(n), i, source, target)
    ensures source != NO_CELL
  {
    hide LinkViable;
    GuardsNeverDropEvents(env, ues, run, n, i, ExecutionComplete, source, target);
    ServingChain(env, ues, run, n, i);
  }
}
