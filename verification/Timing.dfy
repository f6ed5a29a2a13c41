/** How long a procedure takes, when signals take at most `u` seconds to a satellite and `d` between
    satellites. */
module Timing {
  import opened ChoTypes
  import opened Agenda
  import opened Channel
  import opened Protocol
  import opened ProtocolFacts
  import opened SystemModel
  import opened Independence
  import opened Lockstep
  import opened StepCases
  import opened Reachable
  import Reals

  /** Every satellite is within `u` light seconds. */
  ghost predicate Near(env: Env, u: real) {
    FALLBACK_DELAY <= u && forall who, cell, t :: env.distance(who, cell, t) / SPEED_OF_LIGHT <= u
  }

  /** And every inter-satellite delay is within `d`. */
  ghost predicate Bounded(env: Env, u: real, d: real) {
    Near(env, u) && forall a, b, t :: env.islDelay(a, b, t) <= d
  }

  function AccessTime(u: real): real {
    u + RRC_PROCESSING
  }

  /** From the report to the stored configuration. */
  function PreparationTime(u: real, d: real): real {
    2.0 * AccessTime(u) + DECISION_DELAY + (d + XN_REQUEST_PROCESSING) + (d + XN_RESPONSE_PROCESSING)
  }

  function SwitchingTime(u: real): real {
    u + (RRC_PROCESSING + BEAM_SWITCH) + (u * 4.0 + RACH_BASE)
  }

  /** From the report to the end of the procedure: preparation, then the configuration's validity,
      then either the tick that notices the expiry or the execution. */
  function Budget(env: Env, u: real, d: real): real {
    PreparationTime(u, d) + Reals.Max(env.cfg.validity, 0.0) + Reals.Max(TICK_PERIOD, SwitchingTime(u))
  }

  // ----- what is near stays near -----

  ghost predicate CacheNear(cache: Cache, u: real) {
    forall c :: c in cache ==> cache[c].metrics.distance / SPEED_OF_LIGHT <= u
  }

  lemma UplinkNear(cache: Cache, cell: Cell, u: real)
    requires CacheNear(cache, u) && FALLBACK_DELAY <= u
    ensures UplinkDelay(cache, cell) <= u
  {
  }

  lemma SampleNear(env: Env, ue: Ue, cell: Cell, t: real, u: real)
    requires Near(env, u) && CacheNear(ue.cache, u)
    ensures CacheNear(SampleCell(env, ue, cell, t).0.cache, u)
  {
    assert env.distance(ue.profile, cell, t) / SPEED_OF_LIGHT <= u;
  }

  lemma {:induction false} RefreshNear(env: Env, ue: Ue, t: real, k: nat, u: real)
    requires Near(env, u) && CacheNear(ue.cache, u) && k <= |env.satellites|
    ensures CacheNear(Refresh(env, ue, t, k).cache, u)
  {
    hide Near, SampleCell, CacheNear;
    if k > 0 {
      RefreshNear(env, ue, t, k - 1, u);
      SampleNear(env, Refresh(env, ue, t, k - 1), env.satellites[k - 1], t, u);
    }
  }

  lemma TrendNear(env: Env, ue: Ue, cell: Cell, t: real, u: real)
    requires Near(env, u) && CacheNear(ue.cache, u)
    ensures CacheNear(DistanceTrend(env, ue, cell, t).0.cache, u)
  {
    hide Near, SampleCell, CacheNear;
    SampleNear(env, ue, cell, t - env.cfg.measurementPeriod, u);
  }

  lemma {:induction false} ScanNear(env: Env, ue: Ue, t: real, ms: seq<Measurement>, k: nat, u: real)
    requires Near(env, u) && CacheNear(ue.cache, u) && k <= |ms|
    ensures CacheNear(TrendScan(env, ue, t, ms, k).ue.cache, u)
  {
    hide Near, DistanceTrend, CacheNear;
    if k > 0 {
      ScanNear(env, ue, t, ms, k - 1, u);
      TrendNear(env, TrendScan(env, ue, t, ms, k - 1).ue, ms[k - 1].cell, t, u);
    }
  }

  lemma SurveyNear(env: Env, ue: Ue, t: real, ms: seq<Measurement>, s: Measurement, u: real)
    requires Near(env, u) && CacheNear(ue.cache, u)
    ensures CacheNear(TakeSurvey(env, ue, t, ms, s).ue.cache, u)
  {
    hide Near, DistanceTrend, CacheNear, TrendScan, SnrTrend, Margin;
    if env.cfg.strategy == TdCho {
      ScanNear(env, ue, t, ms, |ms|, u);
      var scan := TrendScan(env, ue, t, ms, |ms|);
      if scan.best.Some? {
        TrendNear(env, scan.ue, ue.meas.serving, t, u);
        TrendNear(env, DistanceTrend(env, scan.ue, ue.meas.serving, t).0, scan.best.value.cell, t, u);
      }
    }
  }

  lemma TickNear(env: Env, ue: Ue, t: real, u: real)
    requires Near(env, u) && CacheNear(ue.cache, u)
    ensures CacheNear(Protocol.CheckHandover(env, ue, t).ue.cache, u)
  {
    hide Near, CacheNear, TakeSurvey, Detected, FindCell, ConditionMet, UplinkDelay, Count, AppliedRate, Decide, ContextAfter;
    var a := ue.(meas := Resync(ue, t).(lastTime := t));
    var ms := Detected(env, a.cache, t, |env.satellites|);
    var found := FindCell(ms, a.meas.serving);
    if found.Some? {
      SurveyNear(env, a, t, ms, found.value, u);
    }
  }

  lemma HopNear(env: Env, ue: Ue, t: real, hop: Hop, source: Cell, target: Cell)
    ensures HandleHop(env, ue, t, hop, source, target).ue.cache == ue.cache
  {
    hide Count, AppliedRate, LinkViable;
  }

  // ----- the timetable of a procedure -----

  /** The latest a hop arrives, counted from the start of the procedure. */
  function HopBudget(phase: Phase, u: real, d: real): real {
    var a := AccessTime(u);
    match phase
    case MeasReportUplink => a
    case GnbDecision => a + DECISION_DELAY
    case XnRequest => a + DECISION_DELAY + (d + XN_REQUEST_PROCESSING)
    case XnResponse => a + DECISION_DELAY + (d + XN_REQUEST_PROCESSING) + (d + XN_RESPONSE_PROCESSING)
    case _ => PreparationTime(u, d)
  }

  /** A procedure, its pending hop and the next tick are on time. */
  ghost predicate ProcedureOnTime(env: Env, u: real, d: real, p: Procedure, hops: seq<Timed<Pending>>, tick: real) {
    && (Preparing(p.phase) ==>
          p.downlinkDelay <= AccessTime(u) && |hops| == 1 && hops[0].time <= p.startTime + HopBudget(p.phase, u, d))
    && (p.phase == Evaluating || p.phase == Executing ==>
          p.configReceived <= p.startTime + PreparationTime(u, d) && p.configExpiry == p.configReceived + env.cfg.validity)
    && (p.phase == Evaluating ==> tick <= Reals.Max(p.configExpiry, p.configReceived) + TICK_PERIOD)
    && (p.phase == Executing ==>
          p.executionStart <= p.configExpiry && |hops| == 1 && hops[0].time <= p.executionStart + SwitchingTime(u))
  }

  ghost predicate OnTime(env: Env, u: real, d: real, l: Local) {
    && CacheNear(l.ue.cache, u)
    && |Ticks(l)| == 1 && Ticks(l)[0].time <= l.now + TICK_PERIOD
    && ProcedureOnTime(env, u, d, l.ue.proc, Hops(l), Ticks(l)[0].time)
  }

  lemma ExecutionOnTime(env: Env, u: real, d: real, ue: Ue, t: real)
    requires ue.proc.phase == Evaluating && CacheNear(ue.cache, u) && FALLBACK_DELAY <= u && t <= ue.proc.configExpiry
    requires ue.proc.configReceived <= ue.proc.startTime + PreparationTime(u, d)
    requires ue.proc.configExpiry == ue.proc.configReceived + env.cfg.validity
    ensures var o := Execute(env, ue, t, ue.proc.source, ue.proc.target);
            ProcedureOnTime(env, u, d, o.ue.proc, Sift(o.jobs, JobHop()), t + TICK_PERIOD)
  {
    hide AppliedRate, Count, CacheNear, UplinkDelay, Sift, PreparationTime;
    UplinkNear(ue.cache, ue.proc.source, u);
    UplinkNear(ue.cache, ue.proc.target, u);
    OneHop(t + ExecutionTime(ue.cache, ue.proc.source, ue.proc.target), ExecutionComplete, ue.proc.source, ue.proc.target);
  }

  lemma EvaluationOnTime(env: Env, u: real, d: real, ue: Ue, t: real, tick: real)
    requires ue.proc.phase == Evaluating && CacheNear(ue.cache, u) && FALLBACK_DELAY <= u
    requires ProcedureOnTime(env, u, d, ue.proc, [], tick)
    ensures var o := CheckExecution(env, ue, t);
            ProcedureOnTime(env, u, d, o.ue.proc, Sift(o.jobs, JobHop()), t + TICK_PERIOD)
  {
    hide ConditionMet, Count, CacheNear, Execute, Sift, PreparationTime;
    SiftNone<Job, Pending>(JobHop());
    if t <= ue.proc.configExpiry {
      ExecutionOnTime(env, u, d, ue.(checks := ue.checks + [Check(t, true)], proc := ue.proc.(tttActive := false)), t);
    }
  }

  lemma TickOnTime(env: Env, u: real, d: real, ue: Ue, hops: seq<Timed<Pending>>, t: real, tick: real)
    requires ValidEnv(env) && Bounded(env, u, d) && UeOk(env, ue) && CacheNear(ue.cache, u)
    requires HopsMatch(ue.proc, hops) && ProcedureOnTime(env, u, d, ue.proc, hops, tick)
    ensures var o := Protocol.CheckHandover(env, ue, t);
            ProcedureOnTime(env, u, d, o.ue.proc, if Awaits(ue.proc.phase).None? then Sift(o.jobs, JobHop()) else hops, t + TICK_PERIOD)
  {
    hide Protocol.CheckHandover, CheckExecution, UeOk, Sift, CacheNear, Bounded, Near, UplinkDelay;
    BoundsFacts(env, u, d);
    TickNear(env, ue, t, u);
    SiftNone<Job, Pending>(JobHop());
    var occasion := TickCase(env, ue, t);
    if ue.proc.phase == Evaluating {
      EvaluationOnTime(env, u, d, ue, t, tick);
    } else if occasion.Some? {
      UplinkNear(Protocol.CheckHandover(env, ue, t).ue.cache, ue.serving, u);
    }
  }

  lemma BoundsFacts(env: Env, u: real, d: real)
    requires ValidEnv(env) && Bounded(env, u, d)
    ensures Near(env, u) && FALLBACK_DELAY <= u && 0.0 <= d
  {
    assert 0.0 <= env.islDelay(NO_CELL, NO_CELL, 0.0) <= d;
  }

  lemma EndsIdle(env: Env, ue: Ue, t: real, source: Cell, target: Cell)
    ensures Complete(env, ue, t, source, target).ue.proc.phase == Idle
    ensures Fail(env, ue, t).ue.proc.phase == Idle
  {
    hide Count, AppliedRate;
  }

  lemma AdvanceOnTime(env: Env, u: real, d: real, ue: Ue, t: real, phase: Phase, delay: real, next: Hop, tick: real)
    requires Preparing(phase) && ue.proc.downlinkDelay <= AccessTime(u)
    requires t + delay <= ue.proc.startTime + HopBudget(phase, u, d)
    ensures var o := Advance(ue, t, phase, delay, next, ue.proc.source, ue.proc.target);
            ProcedureOnTime(env, u, d, o.ue.proc, Sift(o.jobs, JobHop()), tick)
  {
    hide Sift, HopBudget;
    OneHop(t + delay, next, ue.proc.source, ue.proc.target);
  }

  lemma StoreOnTime(env: Env, u: real, d: real, ue: Ue, t: real, tick: real)
    requires tick <= t + TICK_PERIOD && t <= ue.proc.startTime + PreparationTime(u, d)
    ensures var o := StoreConfig(env, ue, t, ue.proc.target);
            ProcedureOnTime(env, u, d, o.ue.proc, Sift(o.jobs, JobHop()), tick)
  {
    hide Count, PreparationTime;
  }

  lemma HopOnTime(env: Env, u: real, d: real, ue: Ue, hop: Hop, t: real, tick: real)
    requires Bounded(env, u, d) && Awaits(ue.proc.phase) == Some(hop) && tick <= t + TICK_PERIOD
    requires ProcedureOnTime(env, u, d, ue.proc, [Timed(t, Pending(hop, ue.proc.source, ue.proc.target))], tick)
    ensures var o := HandleHop(env, ue, t, hop, ue.proc.source, ue.proc.target);
            ProcedureOnTime(env, u, d, o.ue.proc, Sift(o.jobs, JobHop()), tick)
  {
    hide Count, LinkViable, Sift, Complete, Fail, Advance, StoreConfig;
    var p := ue.proc;
    assert env.islDelay(p.source, p.target, t) <= d && env.islDelay(p.target, p.source, t) <= d;
    match hop
    case ReportArrived =>
      AdvanceOnTime(env, u, d, ue, t, GnbDecision, DECISION_DELAY, SendXnRequest, tick);
    case SendXnRequest =>
      AdvanceOnTime(env, u, d, ue, t, Phase.XnRequest, env.islDelay(p.source, p.target, t) + XN_REQUEST_PROCESSING, Hop.XnResponse, tick);
    case XnResponse =>
      AdvanceOnTime(env, u, d, ue, t, Phase.XnResponse, env.islDelay(p.target, p.source, t) + XN_RESPONSE_PROCESSING, SendRrcReconfig, tick);
    case SendRrcReconfig =>
      AdvanceOnTime(env, u, d, ue.(stats := Count(ue.stats, ConfigSent)), t, RrcReconfigDownlink, p.downlinkDelay, UeStoresConfig, tick);
    case UeStoresConfig => StoreOnTime(env, u, d, ue, t, tick);
    case ExecutionComplete => EndsIdle(env, ue, t, p.source, p.target);
  }

  lemma PreparedNear(env: Env, ue: Ue, t: real, u: real)
    requires Near(env, u) && CacheNear(ue.cache, u)
    ensures CacheNear(PreparedUe(env, ue, t).cache, u)
  {
    hide Refresh, FirstServing, AppliedRate, Near, CacheNear;
    RefreshNear(env, ue, t, |env.satellites|, u);
  }

  lemma StepOnTime(env: Env, u: real, d: real, l: Local)
    requires ValidEnv(env) && Bounded(env, u, d) && Coherent(env, l) && OnTime(env, u, d, l)
    ensures OnTime(env, u, d, StepOwn(env, l))
  {
    hide StepOwn, ProcedureOnTime, UeOk, Protocol.CheckHandover, HandleHop, PreparedUe, Sift, CacheNear, Bounded, Near;
    if l.queue == [] {
      EmptyStep(env, l);
    } else {
      StepCase(env, l);
      var t := l.queue[0].time;
      match l.queue[0].act {
        case OwnTick =>
          PreparedOk(env, l.ue, t);
          BoundsFacts(env, u, d);
          PreparedNear(env, l.ue, t, u);
          var p := PreparedUe(env, l.ue, t);
          TickNear(env, p, t, u);
          TickOnTime(env, u, d, p, Hops(l), t, Ticks(l)[0].time);
        case OwnJob(HopJob(hop, _, _)) =>
          HopNear(env, l.ue, t, hop, l.ue.proc.source, l.ue.proc.target);
          HopOnTime(env, u, d, l.ue, hop, t, Ticks(l)[0].time);
        case OwnJob(PredictJob(_)) =>
      }
    }
  }

  lemma StartOnTime(env: Env, u: real, d: real, ue: Ue)
    requires Initial(ue)
    ensures OnTime(env, u, d, StartOwn(ue))
  {
  }

  lemma {:induction false} RunOnTime(env: Env, u: real, d: real, ue: Ue, m: nat)
    requires ValidEnv(env) && Bounded(env, u, d) && Initial(ue)
    ensures OnTime(env, u, d, RunOwn(env, StartOwn(ue), m))
  {
    hide Coherent, StepOwn, OnTime, Bounded;
    StartOnTime(env, u, d, ue);
    if m > 0 {
      RunOnTime(env, u, d, ue, m - 1);
      RunCoherent(env, ue, m - 1);
      StepOnTime(env, u, d, RunOwn(env, StartOwn(ue), m - 1));
    }
  }

  // ----- fast executions -----

  /** While the UE executes, the execution ends on time, the next tick is the first one after it began,
      and the cache is still the one the execution condition was met on. */
  ghost predicate SwitchOnTime(env: Env, u: real, ue: Ue, hops: seq<Timed<Pending>>, tick: real) {
    var p := ue.proc;
    p.phase == Executing ==>
      && |hops| == 1 && hops[0].time <= p.executionStart + SwitchingTime(u) && tick == p.executionStart + TICK_PERIOD
      && p.source in ue.cache && p.target in ue.cache && ConditionMet(env.cfg, ue.cache, p.source, p.target)
  }

  ghost predicate Switching(env: Env, u: real, l: Local) {
    && CacheNear(l.ue.cache, u)
    && |Ticks(l)| == 1 && SwitchOnTime(env, u, l.ue, Hops(l), Ticks(l)[0].time)
  }

  /** A tick never comes before a pending hop that is due earlier. */
  lemma HopIsNotLater(l: Local)
    requires Sorted(l.queue) && l.queue != [] && l.queue[0].act == OwnTick && |Ticks(l)| == 1 && |Hops(l)| == 1
    ensures Ticks(l)[0].time <= Hops(l)[0].time
  {
    hide Sift;
    HeadTick(l);
    SiftKeepsOrder(l.queue, ActHop(), l.queue[0].time);
  }

  lemma NoTickWhileExecuting(env: Env, u: real, l: Local)
    requires Coherent(env, l) && Switching(env, u, l) && SwitchingTime(u) < TICK_PERIOD
    requires l.queue != [] && l.queue[0].act == OwnTick
    ensures l.ue.proc.phase != Executing
  {
    hide UeOk, Sift, ConditionMet, CacheNear;
    if l.ue.proc.phase == Executing {
      HopIsNotLater(l);
    }
  }

  lemma ExecuteSwitches(env: Env, u: real, ue: Ue, t: real)
    requires ue.proc.phase == Evaluating && CacheNear(ue.cache, u) && FALLBACK_DELAY <= u
    requires ue.proc.source in ue.cache && ue.proc.target in ue.cache
    requires ConditionMet(env.cfg, ue.cache, ue.proc.source, ue.proc.target)
    ensures var o := Execute(env, ue, t, ue.proc.source, ue.proc.target);
            SwitchOnTime(env, u, o.ue, Sift(o.jobs, JobHop()), t + TICK_PERIOD)
  {
    hide AppliedRate, Count, CacheNear, UplinkDelay, Sift, ConditionMet;
    UplinkNear(ue.cache, ue.proc.source, u);
    UplinkNear(ue.cache, ue.proc.target, u);
    OneHop(t + ExecutionTime(ue.cache, ue.proc.source, ue.proc.target), ExecutionComplete, ue.proc.source, ue.proc.target);
  }

  lemma EvaluationSwitches(env: Env, u: real, ue: Ue, t: real)
    requires ue.proc.phase == Evaluating && CacheNear(ue.cache, u) && FALLBACK_DELAY <= u
    ensures var o := CheckExecution(env, ue, t);
            SwitchOnTime(env, u, o.ue, Sift(o.jobs, JobHop()), t + TICK_PERIOD)
  {
    hide ConditionMet, Count, CacheNear, Execute, Sift;
    var source, target := ue.proc.source, ue.proc.target;
    if source in ue.cache && target in ue.cache && ConditionMet(env.cfg, ue.cache, source, target) {
      ExecuteSwitches(env, u, ue.(checks := ue.checks + [Check(t, true)], proc := ue.proc.(tttActive := false)), t);
    }
  }

  /** Only a tick starts an execution, and it does so on the cache it has just refreshed. */
  lemma TickSwitches(env: Env, u: real, ue: Ue, hops: seq<Timed<Pending>>, t: real)
    requires ValidEnv(env) && Near(env, u) && UeOk(env, ue) && CacheNear(ue.cache, u) && ue.proc.phase != Executing
    ensures var o := Protocol.CheckHandover(env, ue, t);
            SwitchOnTime(env, u, o.ue, if Awaits(ue.proc.phase).None? then Sift(o.jobs, JobHop()) else hops, t + TICK_PERIOD)
  {
    hide CheckExecution, UeOk, Sift, ConditionMet, UplinkDelay, Count, CacheNear, Protocol.CheckHandover;
    var occasion := TickCase(env, ue, t);
    if ue.proc.phase == Evaluating {
      EvaluationSwitches(env, u, ue, t);
    }
  }

  lemma HopEndsSwitching(env: Env, ue: Ue, t: real, hop: Hop)
    requires Awaits(ue.proc.phase) == Some(hop)
    ensures HandleHop(env, ue, t, hop, ue.proc.source, ue.proc.target).ue.proc.phase != Executing
  {
    hide Count, AppliedRate, LinkViable, Complete, Fail;
    EndsIdle(env, ue, t, ue.proc.source, ue.proc.target);
  }

  lemma StepSwitching(env: Env, u: real, l: Local)
    requires ValidEnv(env) && Near(env, u) && SwitchingTime(u) < TICK_PERIOD && Coherent(env, l) && Switching(env, u, l)
    ensures Switching(env, u, StepOwn(env, l))
  {
    hide StepOwn, UeOk, Protocol.CheckHandover, HandleHop, PreparedUe, Sift, ConditionMet, CacheNear, Near, SwitchingTime;
    if l.queue == [] {
      EmptyStep(env, l);
    } else {
      StepCase(env, l);
      var t := l.queue[0].time;
      match l.queue[0].act {
        case OwnTick =>
          NoTickWhileExecuting(env, u, l);
          PreparedOk(env, l.ue, t);
          PreparedNear(env, l.ue, t, u);
          TickNear(env, PreparedUe(env, l.ue, t), t, u);
          TickSwitches(env, u, PreparedUe(env, l.ue, t), Hops(l), t);
        case OwnJob(HopJob(hop, _, _)) =>
          HopNear(env, l.ue, t, hop, l.ue.proc.source, l.ue.proc.target);
          HopEndsSwitching(env, l.ue, t, hop);
        case OwnJob(PredictJob(_)) =>
      }
    }
  }

  lemma StartSwitching(env: Env, u: real, ue: Ue)
    requires Initial(ue)
    ensures Switching(env, u, StartOwn(ue))
  {
  }

  lemma {:induction false} RunSwitching(env: Env, u: real, ue: Ue, m: nat)
    requires ValidEnv(env) && Near(env, u) && SwitchingTime(u) < TICK_PERIOD && Initial(ue)
    ensures Switching(env, u, RunOwn(env, StartOwn(ue), m))
  {
    hide Coherent, StepOwn, Switching, Near, SwitchingTime;
    StartSwitching(env, u, ue);
    if m > 0 {
      RunSwitching(env, u, ue, m - 1);
      RunCoherent(env, ue, m - 1);
      StepSwitching(env, u, RunOwn(env, StartOwn(ue), m - 1));
    }
  }

  // ----- fast preparations -----

  /** While a preparing hop is on its way, the next tick is the first one after the report. */
  ghost predicate Brisk(l: Local) {
    |Ticks(l)| == 1 && (Preparing(l.ue.proc.phase) ==> Ticks(l)[0].time == l.ue.proc.startTime + TICK_PERIOD)
  }

  lemma HopBudgetIsPart(phase: Phase, u: real, d: real)
    requires 0.0 <= u && 0.0 <= d
    ensures HopBudget(phase, u, d) <= PreparationTime(u, d)
  {
  }

  lemma NoTickWhilePreparing(env: Env, u: real, d: real, l: Local)
    requires Coherent(env, l) && OnTime(env, u, d, l) && Brisk(l) && PreparationTime(u, d) < TICK_PERIOD && 0.0 <= u && 0.0 <= d
    requires l.queue != [] && l.queue[0].act == OwnTick
    ensures !Preparing(l.ue.proc.phase)
  {
    hide UeOk, Sift, CacheNear, HopBudget, PreparationTime;
    if Preparing(l.ue.proc.phase) {
      HopBudgetIsPart(l.ue.proc.phase, u, d);
      HopIsNotLater(l);
    }
  }

  lemma TickBrisk(env: Env, ue: Ue, t: real)
    requires ValidEnv(env) && UeOk(env, ue) && !Preparing(ue.proc.phase)
    ensures var p := Protocol.CheckHandover(env, ue, t).ue.proc; Preparing(p.phase) ==> p.startTime == t
  {
    hide CheckExecution, UeOk, Sift, UplinkDelay, Count, Protocol.CheckHandover;
    var occasion := TickCase(env, ue, t);
    if ue.proc.phase == Evaluating {
      EvaluationNeverPrepares(env, ue, t);
    }
  }

  lemma EvaluationNeverPrepares(env: Env, ue: Ue, t: real)
    requires ue.proc.phase == Evaluating
    ensures !Preparing(CheckExecution(env, ue, t).ue.proc.phase)
  {
    hide ConditionMet, AppliedRate, UplinkDelay, Count;
  }

  lemma HopBrisk(env: Env, ue: Ue, t: real, hop: Hop)
    requires Awaits(ue.proc.phase) == Some(hop)
    ensures var p := HandleHop(env, ue, t, hop, ue.proc.source, ue.proc.target).ue.proc;
            Preparing(p.phase) ==> p.startTime == ue.proc.startTime && Preparing(ue.proc.phase)
  {
    hide Count, AppliedRate, LinkViable, Complete, Fail;
    EndsIdle(env, ue, t, ue.proc.source, ue.proc.target);
  }

  lemma StepBrisk(env: Env, u: real, d: real, l: Local)
    requires ValidEnv(env) && Coherent(env, l) && OnTime(env, u, d, l) && PreparationTime(u, d) < TICK_PERIOD
    requires Brisk(l) && 0.0 <= u && 0.0 <= d
    ensures Brisk(StepOwn(env, l))
  {
    hide StepOwn, UeOk, Protocol.CheckHandover, HandleHop, PreparedUe, Sift, OnTime, PreparationTime;
    if l.queue == [] {
      EmptyStep(env, l);
    } else {
      StepCase(env, l);
      var t := l.queue[0].time;
      match l.queue[0].act {
        case OwnTick =>
          PreparedOk(env, l.ue, t);
          NoTickWhilePreparing(env, u, d, l);
          TickBrisk(env, PreparedUe(env, l.ue, t), t);
        case OwnJob(HopJob(hop, _, _)) =>
          HopBrisk(env, l.ue, t, hop);
        case OwnJob(PredictJob(_)) =>
      }
    }
  }

  lemma StartBrisk(ue: Ue)
    requires Initial(ue)
    ensures Brisk(StartOwn(ue))
  {
  }

  lemma {:induction false} RunBrisk(env: Env, u: real, d: real, ue: Ue, m: nat)
    requires ValidEnv(env) && Bounded(env, u, d) && Initial(ue) && PreparationTime(u, d) < TICK_PERIOD
    ensures Brisk(RunOwn(env, StartOwn(ue), m))
  {
    hide Coherent, StepOwn, OnTime, Bounded, Brisk, PreparationTime;
    StartBrisk(ue);
    if m > 0 {
      BoundsFacts(env, u, d);
      RunBrisk(env, u, d, ue, m - 1);
      RunCoherent(env, ue, m - 1);
      RunOnTime(env, u, d, ue, m - 1);
      StepBrisk(env, u, d, RunOwn(env, StartOwn(ue), m - 1));
    }
  }

  /** If preparation and execution each take less than a tick, every tick of every run finds every UE
      idle or evaluating. */
  lemma TicksFindUesAtRest(env: Env, ues: seq<Ue>, run: nat -> Sys, n: nat, i: nat, u: real, d: real)
    requires Starting(env, ues) && IsRun(env, ues, run) && i < |ues| && Bounded(env, u, d)
    requires PreparationTime(u, d) < TICK_PERIOD && SwitchingTime(u) < TICK_PERIOD
    ensures |run(n).ues| == |ues|
    ensures var s := run(n);
            s.queue != [] && s.queue[0].act == Tick ==>
              s.ues[i].proc.phase == Idle || s.ues[i].proc.phase == Evaluating
  {
    hide RunOwn, OnTime, Brisk, Switching, Sift, PreparationTime, SwitchingTime, Bounded, Near, UeOk;
    var m, l := OwnMoment(env, ues, run, i, n);
    BoundsFacts(env, u, d);
    RunCoherent(env, ues[i], m);
    RunOnTime(env, u, d, ues[i], m);
    RunBrisk(env, u, d, ues[i], m);
    RunSwitching(env, u, ues[i], m);
    var s := run(n);
    if s.queue != [] && s.queue[0].act == Tick {
      SiftHead(s.queue, Mine(i));
      NoTickWhilePreparing(env, u, d, l);
      NoTickWhileExecuting(env, u, l);
      StableInOrder(env, l.ue);
    }
  }

  // ----- what the liveness check can fail on -----

  /** The cache the liveness check reads is the one the execution condition was met on, if executions
      take less than a tick, however long preparations take. */
  lemma LivenessCheckReadsTheSameCache(env: Env, ues: seq<Ue>, run: nat -> Sys, n: nat, i: nat, u: real)
    requires Starting(env, ues) && IsRun(env, ues, run) && i < |ues| && Near(env, u) && SwitchingTime(u) < TICK_PERIOD
    ensures |run(n).ues| == |ues|
    ensures var ue := run(n).ues[i];
            ue.proc.phase == Executing ==>
              && ue.proc.source in ue.cache && ue.proc.target in ue.cache
              && ConditionMet(env.cfg, ue.cache, ue.proc.source, ue.proc.target)
  {
    hide RunOwn, CacheNear, SwitchingTime, ConditionMet, Near;
    var m, l := OwnMoment(env, ues, run, i, n);
    RunSwitching(env, u, ues[i], m);
  }

  /** The execution condition guarantees a viable SNR exactly when the parameters add up. */
  lemma SnrConditionImpliesViability(cfg: Config)
    requires cfg.strategy != Distance
    ensures cfg.minSnr + cfg.executionOffset >= cfg.minViableSinr <==>
            forall cache: Cache, a: Cell, b: Cell ::
              a in cache && b in cache && ConditionMet(cfg, cache, a, b) ==> cache[b].metrics.snr >= cfg.minViableSinr
  {
    if cfg.minSnr + cfg.executionOffset < cfg.minViableSinr {
      var gap := (cfg.minViableSinr - cfg.minSnr - cfg.executionOffset) / 2.0;
      var s, g := cfg.minSnr + gap, cfg.minSnr + gap + cfg.executionOffset;
      var cache: Cache := map["s" := CacheEntry(0.0, Metrics(90.0, 1.0, s)), "g" := CacheEntry(0.0, Metrics(90.0, 1.0, g))];
      assert ConditionMet(cfg, cache, "s", "g") && cache["g"].metrics.snr < cfg.minViableSinr;
    }
  }

  lemma DistanceConditionImpliesViability(cfg: Config)
    requires cfg.strategy == Distance
    ensures cfg.maxDistance - cfg.executionOffset <= cfg.maxViableDistance <==>
            forall cache: Cache, a: Cell, b: Cell ::
              a in cache && b in cache && ConditionMet(cfg, cache, a, b) ==>
                cache[b].metrics.distance / 1000.0 <= cfg.maxViableDistance
  {
    if cfg.maxDistance - cfg.executionOffset > cfg.maxViableDistance {
      var gap := (cfg.maxDistance - cfg.executionOffset - cfg.maxViableDistance) / 2.0;
      var s, g := cfg.maxDistance - gap, cfg.maxDistance - gap - cfg.executionOffset;
      var cache: Cache :=
        map["s" := CacheEntry(0.0, Metrics(90.0, s * 1000.0, 0.0)), "g" := CacheEntry(0.0, Metrics(90.0, g * 1000.0, 0.0))];
      assert cache["s"].metrics.distance / 1000.0 == s && cache["g"].metrics.distance / 1000.0 == g;
      assert ConditionMet(cfg, cache, "s", "g") && cache["g"].metrics.distance / 1000.0 > cfg.maxViableDistance;
    }
  }

  /** With a fast execution and parameters that add up, a handover never fails because of what its
      execution condition compared: the target's SNR, or in the distance strategy its distance. */
  lemma FailureCauses(env: Env, ues: seq<Ue>, run: nat -> Sys, n: nat, i: nat, u: real, source: Cell, target: Cell)
    requires Starting(env, ues) && IsRun(env, ues, run) && i < |ues| && Near(env, u) && SwitchingTime(u) < TICK_PERIOD
    ensures |run(n).ues| == |ues|
    ensures var s := run(n);
            s.queue != [] && s.queue[0].act == Own(i, HopJob(ExecutionComplete, source, target))
            && !LinkViable(env.cfg, s.ues[i].cache, target) ==>
            target in s.ues[i].cache &&
            var m := s.ues[i].cache[target].metrics;
            && (env.cfg.strategy != Distance && env.cfg.minSnr + env.cfg.executionOffset >= env.cfg.minViableSinr ==>
                  m.snr >= env.cfg.minViableSinr && (m.distance / 1000.0 > env.cfg.maxViableDistance || m.elevation < 0.0))
            && (env.cfg.strategy == Distance && env.cfg.maxDistance - env.cfg.executionOffset <= env.cfg.maxViableDistance ==>
                  m.distance / 1000.0 <= env.cfg.maxViableDistance && (m.snr < env.cfg.minViableSinr || m.elevation < 0.0))
  {
    hide SwitchingTime, Near, ConditionMet;
    GuardsNeverDropEvents(env, ues, run, n, i, ExecutionComplete, source, target);
    LivenessCheckReadsTheSameCache(env, ues, run, n, i, u);
    if env.cfg.strategy != Distance {
      SnrConditionImpliesViability(env.cfg);
    } else {
      DistanceConditionImpliesViability(env.cfg);
    }
  }
}
