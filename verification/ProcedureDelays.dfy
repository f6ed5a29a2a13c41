/** How long the stages of a procedure take. */
module ProcedureDelays {
  import opened ChoTypes
  import opened Reals
  import opened Agenda
  import opened Channel
  import opened Protocol
  import opened SystemModel
  import opened Independence
  import opened Lockstep
  import opened StepCases
  import opened Reachable
  import opened Moments
  import Timing

  // ----- from the report to the configuration -----

  /** When the request leaves the source satellite, when the response leaves the target, and when the
      configuration leaves the source, for a report at `t` over a link that takes `access`. */
  function RequestSent(t: real, access: real): real {
    t + access + 0.001
  }

  function ResponseSent(env: Env, t: real, access: real, source: Cell, target: Cell): real {
    var sent := RequestSent(t, access);
    sent + env.islDelay(source, target, sent) + 0.002
  }

  function ConfigurationSent(env: Env, t: real, access: real, source: Cell, target: Cell): real {
    var sent := ResponseSent(env, t, access, source, target);
    sent + env.islDelay(target, source, sent) + 0.001
  }

  /** Where a procedure is, by its phase: when that began and when the event it waits for is due. */
  ghost predicate OnSchedule(env: Env, p: Procedure, hops: seq<Timed<Pending>>) {
    var t, access := p.startTime, p.uplinkDelay;
    && (p.phase != Idle ==> p.downlinkDelay == access)
    && (Awaits(p.phase).Some? ==> |hops| == 1)
    && match p.phase
       case MeasReportUplink => hops[0].time == t + access
       case GnbDecision => hops[0].time == RequestSent(t, access)
       case XnRequest => hops[0].time == ResponseSent(env, t, access, p.source, p.target)
       case XnResponse => hops[0].time == ConfigurationSent(env, t, access, p.source, p.target)
       case RrcReconfigDownlink => hops[0].time == ConfigurationSent(env, t, access, p.source, p.target) + access
       case Evaluating => p.configReceived == ConfigurationSent(env, t, access, p.source, p.target) + access
       case Executing =>
         && p.configReceived == ConfigurationSent(env, t, access, p.source, p.target) + access
         && hops[0].time >= p.executionStart + 0.035
       case _ => true
  }

  ghost predicate Scheduled(env: Env, l: Local) {
    OnSchedule(env, l.ue.proc, Hops(l))
  }

  lemma HopSchedules(env: Env, ue: Ue, t: real, hop: Hop, hops: seq<Timed<Pending>>)
    requires OnSchedule(env, ue.proc, hops) && Awaits(ue.proc.phase) == Some(hop) && |hops| == 1 && hops[0].time == t
    ensures var o := HandleHop(env, ue, t, hop, ue.proc.source, ue.proc.target); OnSchedule(env, o.ue.proc, Sift(o.jobs, JobHop()))
  {
    hide Count, AppliedRate, LinkViable, Complete, Fail, Sift;
    var p := ue.proc;
    match hop
    case ReportArrived => OneHop(t + DECISION_DELAY, SendXnRequest, p.source, p.target);
    case SendXnRequest => OneHop(t + (env.islDelay(p.source, p.target, t) + XN_REQUEST_PROCESSING), Hop.XnResponse, p.source, p.target);
    case XnResponse => OneHop(t + (env.islDelay(p.target, p.source, t) + XN_RESPONSE_PROCESSING), SendRrcReconfig, p.source, p.target);
    case SendRrcReconfig => OneHop(t + p.downlinkDelay, UeStoresConfig, p.source, p.target);
    case UeStoresConfig =>
    case ExecutionComplete => Timing.EndsIdle(env, ue, t, p.source, p.target);
  }

  lemma ExecutionTakesTime(env: Env, cache: Cache, source: Cell, target: Cell)
    requires CacheOk(env, cache)
    ensures ExecutionTime(cache, source, target) >= 0.035
  {
    hide UplinkDelay, CacheOk;
    DelayIsPositive(env, cache, source);
    DelayIsPositive(env, cache, target);
  }

  lemma EvaluationSchedules(env: Env, ue: Ue, t: real)
    requires UeOk(env, ue) && ue.proc.phase == Evaluating && OnSchedule(env, ue.proc, [])
    ensures var o := CheckExecution(env, ue, t); OnSchedule(env, o.ue.proc, Sift(o.jobs, JobHop()))
  {
    hide ConditionMet, Count, AppliedRate, ExecutionTime, Sift, CacheOk;
    var source, target := ue.proc.source, ue.proc.target;
    ExecutionTakesTime(env, ue.cache, source, target);
    OneHop(t + ExecutionTime(ue.cache, source, target), ExecutionComplete, source, target);
  }

  lemma TickSchedules(env: Env, ue: Ue, t: real)
    requires ValidEnv(env) && UeOk(env, ue) && OnSchedule(env, ue.proc, []) && Awaits(ue.proc.phase).None?
    ensures var o := Protocol.CheckHandover(env, ue, t); OnSchedule(env, o.ue.proc, Sift(o.jobs, JobHop()))
  {
    hide Protocol.CheckHandover, CheckExecution, UeOk, Sift, UplinkDelay, Count, PlainLines, Decide;
    var x := TickCase(env, ue, t);
    if ue.proc.phase == Evaluating {
      EvaluationSchedules(env, ue, t);
    }
  }

  lemma StepSchedules(env: Env, l: Local)
    requires ValidEnv(env) && Coherent(env, l) && Scheduled(env, l)
    ensures Scheduled(env, StepOwn(env, l))
  {
    hide StepOwn, UeOk, Protocol.CheckHandover, HandleHop, PreparedUe, Sift, OnSchedule;
    if l.queue == [] {
      EmptyStep(env, l);
    } else {
      StepCase(env, l);
      var t := l.queue[0].time;
      match l.queue[0].act {
        case OwnTick =>
          PreparedOk(env, l.ue, t);
          var p := PreparedUe(env, l.ue, t);
          if Awaits(l.ue.proc.phase).None? {
            TickSchedules(env, p, t);
          } else {
            var x := TickCase(env, p, t);
          }
        case OwnJob(HopJob(hop, _, _)) =>
          HopSchedules(env, l.ue, t, hop, Hops(l));
        case OwnJob(PredictJob(_)) =>
      }
    }
  }

  lemma StartScheduled(env: Env, ue: Ue)
    requires Initial(ue)
    ensures Scheduled(env, StartOwn(ue))
  {
  }

  lemma {:induction false} RunSchedules(env: Env, ue: Ue, m: nat)
    requires ValidEnv(env) && Initial(ue)
    ensures Scheduled(env, RunOwn(env, StartOwn(ue), m))
  {
    hide Coherent, StepOwn, Scheduled;
    StartScheduled(env, ue);
    if m > 0 {
      RunSchedules(env, ue, m - 1);
      RunCoherent(env, ue, m - 1);
      StepSchedules(env, RunOwn(env, StartOwn(ue), m - 1));
    }
  }

  /** A configuration arrives exactly when the delays of its five hops add up to: the report up, a
      millisecond, the request across and two, the response across and one, and the reconfiguration down. */
  lemma ConfigurationsArriveOnSchedule(env: Env, ues: seq<Ue>, run: nat -> Sys, n: nat, i: nat)
    requires Starting(env, ues) && IsRun(env, ues, run) && i < |ues|
    ensures |run(n).ues| == |ues|
    ensures var p := run(n).ues[i].proc;
            p.phase == Evaluating || p.phase == Executing ==>
              && p.downlinkDelay == p.uplinkDelay
              && p.configReceived == ConfigurationSent(env, p.startTime, p.uplinkDelay, p.source, p.target) + p.uplinkDelay
  {
    hide RunOwn, Sift, ConfigurationSent;
    var m, l := OwnMoment(env, ues, run, i, n);
    RunSchedules(env, ues[i], m);
  }

  // ----- the interruption -----

  function Propagation(cache: Cache, cell: Cell): real
    requires cell in cache
  {
    cache[cell].metrics.distance / 299792458.0
  }

  /** A report takes the propagation to the serving cell and ten milliseconds. */
  lemma ReportsTakeTheUplink(env: Env, ues: seq<Ue>, run: nat -> Sys, n: nat, i: nat)
    requires Starting(env, ues) && IsRun(env, ues, run) && i < |ues| && TickNext(run(n))
    requires |run(n).ues| == |ues| == |run(n + 1).ues|
    requires run(n).ues[i].proc.phase == Idle && run(n + 1).ues[i].proc.phase != Idle
    ensures var b := run(n + 1).ues[i];
            b.proc.source in b.cache ==> b.proc.uplinkDelay == Propagation(b.cache, b.proc.source) + 0.010
  {
    hide Step, Initial, UeOk, PreparedUe, Protocol.CheckHandover, Sift, PlainLines, Decide, Count;
    TickStep(env, ues, run, n, i);
    PreparedOk(env, run(n).ues[i], run(n).queue[0].time);
    var x := TickCase(env, AtTick(env, run(n), i), run(n + 1).now);
  }

  /** When an execution begins, its end is scheduled for exactly the report to the source, fifteen
      milliseconds, four ways to the target and twenty milliseconds later. */
  lemma ExecutionsTakeTheSwitch(env: Env, ues: seq<Ue>, run: nat -> Sys, n: nat, i: nat) returns (k: nat)
    requires Starting(env, ues) && IsRun(env, ues, run) && i < |ues| && TickNext(run(n))
    requires |run(n).ues| == |ues| == |run(n + 1).ues|
    requires run(n).ues[i].proc.phase == Evaluating && run(n + 1).ues[i].proc.phase == Executing
    ensures var b, q := run(n + 1).ues[i], run(n + 1).queue;
            && k < |q| && q[k].act == Own(i, HopJob(ExecutionComplete, b.proc.source, b.proc.target))
            && b.proc.source in b.cache && b.proc.target in b.cache
            && q[k].time == run(n + 1).now + Propagation(b.cache, b.proc.source) + 0.015
                            + 4.0 * Propagation(b.cache, b.proc.target) + 0.020
  {
    hide Step, StepOwn, RunOwn, Initial, Sift, UeOk, PreparedUe, Protocol.CheckHandover, HandleHop, HopsOf, Propagation;
    var m, l := OwnStep(env, ues, run, n, i);
    RunCoherent(env, ues[i], m);
    StepCase(env, l);
    var t := l.queue[0].time;
    PreparedOk(env, l.ue, t);
    var x := TickCase(env, PreparedUe(env, l.ue, t), t);
    ExecutionStarts(env, PreparedUe(env, l.ue, t), t);
    HopsAre(run(n + 1), i, StepOwn(env, l));
    k := OneHopAt(run(n + 1).queue, i);
  }

  lemma HopsAre(s: Sys, i: nat, l: Local)
    requires i < |s.ues| && View(s, i, s.now) == l
    ensures HopsOf(s.queue, i) == Hops(l)
  {
    hide Sift;
  }

  lemma ExecutionStarts(env: Env, ue: Ue, t: real)
    requires ue.proc.phase == Evaluating && CheckExecution(env, ue, t).ue.proc.phase == Executing
    ensures var o := CheckExecution(env, ue, t);
            && o.ue.proc.source in o.ue.cache && o.ue.proc.target in o.ue.cache
            && Sift(o.jobs, JobHop()) ==
               [Timed(t + Propagation(o.ue.cache, o.ue.proc.source) + 0.015 + 4.0 * Propagation(o.ue.cache, o.ue.proc.target) + 0.020,
                      Pending(ExecutionComplete, o.ue.proc.source, o.ue.proc.target))]
  {
    hide ConditionMet, Count, AppliedRate, Sift;
    var source, target := ue.proc.source, ue.proc.target;
    OneHop(t + ExecutionTime(ue.cache, source, target), ExecutionComplete, source, target);
  }
}
