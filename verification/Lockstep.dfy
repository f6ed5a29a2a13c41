/** The procedure and the queue move in lockstep, and what is stored during a procedure is what the
    procedure is about. */
module Lockstep {
  import opened ChoTypes
  import opened Agenda
  import opened Channel
  import opened Protocol
  import opened ProtocolFacts
  import opened SystemModel
  import opened Independence

  // ----- the ticks and the hops of a queue -----

  function IsTick(): OwnAct -> Option<()> {
    (a: OwnAct) => if a.OwnTick? then Some(()) else None
  }

  datatype Pending = Pending(hop: Hop, source: Cell, target: Cell)

  function JobHop(): Job -> Option<Pending> {
    (j: Job) => if j.HopJob? then Some(Pending(j.hop, j.source, j.target)) else None
  }

  function ActHop(): OwnAct -> Option<Pending> {
    (a: OwnAct) => if a.OwnJob? then JobHop()(a.job) else None
  }

  function Ticks(l: Local): seq<Timed<()>> {
    Sift(l.queue, IsTick())
  }

  function Hops(l: Local): seq<Timed<Pending>> {
    Sift(l.queue, ActHop())
  }

  /** The hop a UE resting in this phase waits for. */
  function Awaits(phase: Phase): Option<Hop> {
    match phase
    case MeasReportUplink => Some(ReportArrived)
    case GnbDecision => Some(SendXnRequest)
    case XnRequest => Some(Hop.XnResponse)
    case XnResponse => Some(SendRrcReconfig)
    case RrcReconfigDownlink => Some(UeStoresConfig)
    case Executing => Some(ExecutionComplete)
    case _ => None
  }

  predicate Stable(phase: Phase) {
    phase == Idle || phase == Evaluating || Awaits(phase).Some?
  }

  predicate Preparing(phase: Phase) {
    Awaits(phase).Some? && phase != Executing
  }

  ghost predicate HopsMatch(p: Procedure, hops: seq<Timed<Pending>>) {
    match Awaits(p.phase)
    case None => hops == []
    case Some(hop) => |hops| == 1 && hops[0].act == Pending(hop, p.source, p.target)
  }

  // ----- the invariant -----

  /** During a procedure the UE is served by its source cell and heads for another cell, or for none. */
  ghost predicate ServedBySource(env: Env, ue: Ue) {
    && ue.meas.serving == ue.serving
    && (ue.serving == NO_CELL || ue.serving in env.satellites)
    && (ue.proc.phase != Idle ==>
          && ue.proc.source == ue.serving != NO_CELL && ue.proc.target != ue.proc.source
          && (ue.proc.target == NO_CELL || ue.proc.target in env.satellites)
          && (env.cfg.strategy == Distance ==> ue.proc.target != NO_CELL))
    && (ue.proc.phase == Executing ==>
          ue.proc.target != NO_CELL && ue.proc.source in ue.cache && ue.proc.target in ue.cache)
  }

  ghost predicate HoldsItsConfig(ue: Ue) {
    ue.conf.configs ==
    if ue.proc.phase == Evaluating || ue.proc.phase == Executing
    then map[ue.proc.target := ChoConfiguration(ue.proc.target, ue.proc.configReceived, ue.proc.configExpiry)]
    else map[]
  }

  ghost predicate InterruptedWhileExecuting(ue: Ue) {
    (ue.interruption <==> ue.proc.phase == Executing) && (ue.proc.phase == Executing ==> ue.errorRate == 1.0)
  }

  ghost predicate RemembersDecision(env: Env, ue: Ue) {
    env.cfg.strategy != Topsis && ue.proc.phase != Idle && ue.proc.target != NO_CELL ==>
      && Remembers(env.cfg, ue, ue.proc.source, ue.proc.target, ue.proc.startTime)
      && RemembersSnrs(ue, ue.proc.servingSnrAtReport, ue.proc.targetSnrAtReport)
  }

  predicate RemembersSnrs(ue: Ue, serving: real, target: real) {
    ue.context.preServingSnr == serving && ue.context.preNeighborSnr == target
  }

  /** The context names these cells as the decision taken at `t`. */
  predicate Remembers(cfg: Config, ue: Ue, source: Cell, target: Cell, t: real) {
    ContextMatches(ue, source, target) && ue.context.decisionTime == t && ue.context.trigger == TriggerName(cfg)
  }

  ghost predicate UeOk(env: Env, ue: Ue) {
    && DelaysOk(ue) && CacheOk(env, ue.cache) && Stable(ue.proc.phase)
    && ServedBySource(env, ue) && HoldsItsConfig(ue) && InterruptedWhileExecuting(ue) && RemembersDecision(env, ue)
  }

  ghost predicate Coherent(env: Env, l: Local) {
    && Sorted(l.queue) && AllFrom(l.queue, l.now)
    && |Ticks(l)| == 1 && HopsMatch(l.ue.proc, Hops(l))
    && UeOk(env, l.ue)
  }

  // ----- selecting ticks and hops from a queue that grows -----

  lemma SiftHead<A, B>(q: seq<Timed<A>>, f: A -> Option<B>)
    requires q != []
    ensures Sift(q, f) ==
            match f(q[0].act)
            case None => Sift(q[1..], f)
            case Some(b) => [Timed(q[0].time, b)] + Sift(q[1..], f)
  {
  }

  lemma InsertAllHead<A>(q: seq<Timed<A>>, e: Timed<A>, es: seq<Timed<A>>)
    ensures InsertAll(q, [e] + es) == InsertAll(Insert(q, e), es)
  {
    assert ([e] + es)[1..] == es;
  }

  /** Selecting from a queue that grows by jobs: `f` sees in an act what `g` sees in its job. */
  lemma {:induction false} SiftScheduledBy<B>(q: seq<Timed<OwnAct>>, jobs: seq<Timed<Job>>, f: OwnAct -> Option<B>, g: Job -> Option<B>, t: real)
    requires Sorted(q) && AllFrom(q, t) && AllFrom(jobs, t) && forall j :: f(OwnJob(j)) == g(j)
    ensures Sorted(ScheduleOwn(q, jobs)) && AllFrom(ScheduleOwn(q, jobs), t)
    ensures Sift(ScheduleOwn(q, jobs), f) == InsertAll(Sift(q, f), Sift(jobs, g))
    decreases jobs
  {
    hide Sift, Insert, Sorted, InsertAll;
    if jobs == [] {
      SiftNone<Job, B>(g);
      InsertAllNone(Sift(q, f));
    } else {
      var e := Timed(jobs[0].time, OwnJob(jobs[0].act));
      SiftInsert(q, e, f);
      InsertKeepsOrder(q, e, t);
      SiftScheduledBy(Insert(q, e), jobs[1..], f, g, t);
      SiftHead(jobs, g);
      if g(jobs[0].act).Some? {
        InsertAllHead(Sift(q, f), Timed(e.time, g(jobs[0].act).value), Sift(jobs[1..], g));
      }
    }
  }

  function NoTick(): Job -> Option<()> {
    (_: Job) => None
  }

  lemma {:induction false} NoJobTicks(jobs: seq<Timed<Job>>)
    ensures Sift(jobs, NoTick()) == []
  {
    if jobs != [] {
      NoJobTicks(jobs[1..]);
    }
  }

  lemma SiftScheduled(q: seq<Timed<OwnAct>>, jobs: seq<Timed<Job>>, t: real)
    requires Sorted(q) && AllFrom(q, t) && AllFrom(jobs, t)
    ensures Sorted(ScheduleOwn(q, jobs)) && AllFrom(ScheduleOwn(q, jobs), t)
    ensures Sift(ScheduleOwn(q, jobs), IsTick()) == Sift(q, IsTick())
    ensures Sift(ScheduleOwn(q, jobs), ActHop()) == InsertAll(Sift(q, ActHop()), Sift(jobs, JobHop()))
  {
    hide Sift, ScheduleOwn, Sorted, InsertAll;
    SiftScheduledBy(q, jobs, ActHop(), JobHop(), t);
    SiftScheduledBy(q, jobs, IsTick(), NoTick(), t);
    NoJobTicks(jobs);
    InsertAllNone(Sift(q, IsTick()));
  }

  lemma InsertAllNone<A>(q: seq<Timed<A>>)
    ensures InsertAll(q, []) == q
  {
  }

  // ----- every handler keeps the UE in order -----

  lemma PreparedOk(env: Env, ue: Ue, t: real)
    requires ValidEnv(env) && UeOk(env, ue)
    ensures UeOk(env, PreparedUe(env, ue, t))
    ensures var p := PreparedUe(env, ue, t);
            && p.proc == ue.proc && p.stats == ue.stats && p.occasions == ue.occasions && p.checks == ue.checks
            && p.hoCount == ue.hoCount && p.hoFail == ue.hoFail && p.context == ue.context
            && p.meas == ue.meas.(serving := p.meas.serving)
            && (ue.serving != NO_CELL ==> p.serving == ue.serving)
  {
    hide Refresh, FirstServing, ConditionMet;
    RefreshFrame(env, ue, t, |env.satellites|);
  }

  lemma PreparedKeys(env: Env, ue: Ue, t: real)
    ensures ue.cache.Keys <= PreparedUe(env, ue, t).cache.Keys
  {
    hide Refresh, FirstServing, AppliedRate;
    RefreshFrame(env, ue, t, |env.satellites|);
  }

  /** What the per-tick decision leaves behind, for a UE with no hop on its way. */
  ghost predicate Orderly(env: Env, o: Outcome, t: real) {
    && UeOk(env, o.ue) && AllFrom(o.jobs, t) && HopsMatch(o.ue.proc, Sift(o.jobs, JobHop()))
  }

  lemma OneHop(t: real, hop: Hop, source: Cell, target: Cell)
    ensures Sift([Timed(t, HopJob(hop, source, target))], JobHop()) == [Timed(t, Pending(hop, source, target))]
  {
    SiftHead([Timed(t, HopJob(hop, source, target))], JobHop());
    SiftNone<Job, Pending>(JobHop());
  }

  lemma ExecuteOk(env: Env, ue: Ue, t: real)
    requires UeOk(env, ue) && ue.proc.phase == Evaluating && NO_CELL !in env.satellites
    requires ue.proc.source in ue.cache && ue.proc.target in ue.cache
    ensures Orderly(env, Execute(env, ue, t, ue.proc.source, ue.proc.target), t)
  {
    hide UplinkDelay, Count, Sift;
    DelayIsPositive(env, ue.cache, ue.proc.source);
    DelayIsPositive(env, ue.cache, ue.proc.target);
    OneHop(t + ExecutionTime(ue.cache, ue.proc.source, ue.proc.target), ExecutionComplete, ue.proc.source, ue.proc.target);
  }

  lemma TttOk(env: Env, ue: Ue, checks: seq<Check>, active: bool, start: real)
    requires UeOk(env, ue)
    ensures UeOk(env, ue.(checks := checks, proc := ue.proc.(tttActive := active, tttStart := start)))
  {
  }

  lemma ExpireOk(env: Env, ue: Ue, t: real)
    requires UeOk(env, ue) && ue.proc.phase == Evaluating
    ensures Orderly(env, Expire(env, ue), t)
  {
    hide Count;
  }

  lemma ExecutionOk(env: Env, ue: Ue, t: real)
    requires UeOk(env, ue) && ue.proc.phase == Evaluating && NO_CELL !in env.satellites
    ensures Orderly(env, CheckExecution(env, ue, t), t)
  {
    hide ConditionMet, Execute, Expire, UeOk, Orderly;
    var source, target := ue.proc.source, ue.proc.target;
    if t > ue.proc.configExpiry {
      ExpireOk(env, ue, t);
    } else if source !in ue.cache || target !in ue.cache {
      OnlyOk(env, ue, t);
    } else {
      var met := ConditionMet(env.cfg, ue.cache, source, target);
      var checks := ue.checks + [Check(t, met)];
      TttOk(env, ue, checks, false, NO_TIME);
      TttOk(env, ue, checks, true, t);
      TttOk(env, ue, checks, false, ue.proc.tttStart);
      TttOk(env, ue, checks, ue.proc.tttActive, ue.proc.tttStart);
      OnlyOk(env, ue.(checks := checks, proc := ue.proc.(tttActive := false, tttStart := NO_TIME)), t);
      OnlyOk(env, ue.(checks := checks, proc := ue.proc.(tttActive := true, tttStart := t)), t);
      OnlyOk(env, ue.(checks := checks), t);
      ExecuteOk(env, ue.(checks := checks, proc := ue.proc.(tttActive := false)), t);
    }
  }

  lemma TriggerOk(env: Env, ue: Ue, t: real, r: Report)
    requires UeOk(env, ue) && ue.proc.phase == Idle
    requires r.serving == ue.serving != NO_CELL && r.target != r.serving
    requires r.target == NO_CELL || r.target in env.satellites
    requires env.cfg.strategy == Distance ==> r.target != NO_CELL
    requires env.cfg.strategy != Topsis && r.target != NO_CELL ==>
               Remembers(env.cfg, ue, r.serving, r.target, t) && RemembersSnrs(ue, r.servingSnr, r.targetSnr)
    ensures Orderly(env, Trigger(ue, t, r), t)
  {
    hide UplinkDelay, Count, Sift;
    DelayIsPositive(env, ue.cache, r.serving);
    OneHop(t + (UplinkDelay(ue.cache, r.serving) + RRC_PROCESSING), ReportArrived, r.serving, r.target);
  }

  lemma LossOk(env: Env, ue: Ue, t: real)
    requires UeOk(env, ue) && ue.proc.phase == Idle && ue.serving != NO_CELL
    ensures Orderly(env, LoseLink(env, ue, t), t)
  {
    if env.cfg.strategy != Distance {
      var lost := ue.(context := ClearContext(env.cfg, ue), occasions := ue.occasions + [RadioLinkFailure(t)]);
      TriggerOk(env, lost, t, Report(ue.meas.serving, NO_SNR, NO_CELL, NO_SNR));
    }
  }

  lemma AnnounceOk(env: Env, t: real, s: Measurement, best: Option<Measurement>, fired: bool, o: Outcome)
    requires Orderly(env, o, t)
    ensures Orderly(env, Announce(env, t, s, best, fired, o), t)
  {
    var a := Announce(env, t, s, best, fired, o);
    if a != o {
      assert a.jobs[1..] == o.jobs;
    }
  }

  /** The UE after a survey, a time-to-trigger decision and the note of it. */
  function Decided(env: Env, v: Survey, t: real, s: Measurement): Ue {
    var bestCell := if v.best.Some? then v.best.value.cell else NO_CELL;
    v.ue.(meas := Decide(env.cfg, v.ue.meas, t, v.fired, bestCell).0,
          context := ContextAfter(env.cfg, v.ue, t, s, v.best, v.fired),
          occasions := v.ue.occasions + [if v.fired then Fired(t, bestCell) else NotFired(t)])
  }

  lemma DecidedOk(env: Env, v: Survey, t: real, s: Measurement)
    requires UeOk(env, v.ue) && v.ue.proc.phase == Idle
    ensures UeOk(env, Decided(env, v, t, s)) && Decided(env, v, t, s).proc == v.ue.proc
  {
  }

  lemma MeasureOk(env: Env, ue: Ue, t: real)
    requires ValidEnv(env) && UeOk(env, ue) && ue.proc.phase == Idle && ue.serving != NO_CELL
    ensures Orderly(env, Measure(env, ue, t), t)
  {
    hide TakeSurvey, Detected, FindCell, UeOk, Orderly, LoseLink;
    var ms := Detected(env, ue.cache, t, |env.satellites|);
    match FindCell(ms, ue.meas.serving) {
      case None => LossOk(env, ue, t);
      case Some(s) => ServingMeasuredOk(env, ue, t, ms, s);
    }
    assert ue.meas.serving == ue.serving by {
      UeServing(env, ue);
    }
  }

  lemma UeServing(env: Env, ue: Ue)
    requires UeOk(env, ue)
    ensures ue.meas.serving == ue.serving
  {
  }

  lemma SampledOk(env: Env, a: Ue, b: Ue)
    requires UeOk(env, a) && a.proc.phase == Idle && OnlySampled(a, b) && CacheOk(env, b.cache)
    ensures UeOk(env, b)
  {
  }

  lemma ServingMeasuredOk(env: Env, ue: Ue, t: real, ms: seq<Measurement>, s: Measurement)
    requires ValidEnv(env) && UeOk(env, ue) && ue.proc.phase == Idle && ue.serving != NO_CELL
    requires ms == Detected(env, ue.cache, t, |env.satellites|) && s.cell == ue.meas.serving
    ensures Orderly(env, MeasureServing(env, ue, t, ms, s), t)
  {
    hide TakeSurvey, Detected, Trigger, Announce, Orderly;
    SurveyFrame(env, ue, t, ms, s);
    var v := TakeSurvey(env, ue, t, ms, s);
    SampledOk(env, ue, v.ue);
    DecidedOk(env, v, t, s);
    var decided := Decided(env, v, t, s);
    var bestCell := if v.best.Some? then v.best.value.cell else NO_CELL;
    var due := Decide(env.cfg, v.ue.meas, t, v.fired, bestCell).1;
    var o := Only(decided);
    if due && v.best.Some? {
      DetectedFrame(env, ue.cache, t, |env.satellites|, v.best.value);
      var r := Report(s.cell, s.metrics.snr, bestCell, v.best.value.metrics.snr);
      TriggerOk(env, decided, t, r);
      o := Trigger(decided, t, r);
    } else {
      OnlyOk(env, decided, t);
    }
    AnnounceOk(env, t, s, v.best, v.fired, o);
    RecordsOk(env, Announce(env, t, s, v.best, v.fired, o), v.validations, v.followups, t);
  }

  lemma OnlyOk(env: Env, ue: Ue, t: real)
    requires UeOk(env, ue) && Awaits(ue.proc.phase).None?
    ensures Orderly(env, Only(ue), t)
  {
  }

  lemma RecordsOk(env: Env, o: Outcome, v: seq<Validation>, f: seq<Followup>, t: real)
    requires Orderly(env, o, t)
    ensures Orderly(env, o.(validations := v, followups := f), t)
  {
  }

  lemma CheckOk(env: Env, ue: Ue, t: real)
    requires ValidEnv(env) && UeOk(env, ue)
    ensures var o := Protocol.CheckHandover(env, ue, t);
            if Awaits(ue.proc.phase).None? then Orderly(env, o, t) else o == Only(ue)
  {
    hide Measure, CheckExecution;
    if ue.proc.phase == Evaluating {
      ExecutionOk(env, ue, t);
    } else if ue.proc.phase == Idle && ue.serving != NO_CELL {
      MeasureOk(env, ue.(meas := ue.meas.(lastTime := t)), t);
    }
  }

  lemma AdvanceOk(env: Env, ue: Ue, t: real, phase: Phase, delay: real, next: Hop)
    requires UeOk(env, ue) && ue.proc.phase != Idle && ue.proc.phase != Evaluating && ue.proc.phase != Executing
    requires Awaits(phase) == Some(next) && phase != Executing && delay >= 0.0
    ensures Orderly(env, Advance(ue, t, phase, delay, next, ue.proc.source, ue.proc.target), t)
  {
    hide Sift;
    OneHop(t + delay, next, ue.proc.source, ue.proc.target);
  }

  lemma StoreOk(env: Env, ue: Ue, t: real)
    requires UeOk(env, ue) && ue.proc.phase == RrcReconfigDownlink
    ensures Orderly(env, StoreConfig(env, ue, t, ue.proc.target), t)
  {
    hide Count;
  }

  lemma EndOk(env: Env, ue: Ue, t: real)
    requires UeOk(env, ue) && ue.proc.phase == Executing
    ensures Orderly(env, Fail(env, ue, t), t)
    ensures Orderly(env, Complete(env, ue, t, ue.proc.source, ue.proc.target), t)
    ensures Complete(env, ue, t, ue.proc.source, ue.proc.target).cancels == 0
  {
    hide Count;
    assert ue.conf.configs.Keys - {ue.proc.target} == {};
  }

  lemma HopOk(env: Env, ue: Ue, t: real, hop: Hop)
    requires ValidEnv(env) && UeOk(env, ue) && Awaits(ue.proc.phase) == Some(hop)
    ensures Expects(hop) == ue.proc.phase
    ensures Orderly(env, HandleHop(env, ue, t, hop, ue.proc.source, ue.proc.target), t)
    ensures HandleHop(env, ue, t, hop, ue.proc.source, ue.proc.target).cancels == 0
  {
    hide LinkViable, Complete, Fail, Orderly, Count;
    match hop
    case ReportArrived => AdvanceOk(env, ue, t, GnbDecision, DECISION_DELAY, SendXnRequest);
    case SendXnRequest =>
      assert env.islDelay(ue.proc.source, ue.proc.target, t) >= 0.0;
      AdvanceOk(env, ue, t, Phase.XnRequest,
                env.islDelay(ue.proc.source, ue.proc.target, t) + XN_REQUEST_PROCESSING, Hop.XnResponse);
    case XnResponse =>
      assert env.islDelay(ue.proc.target, ue.proc.source, t) >= 0.0;
      AdvanceOk(env, ue, t, Phase.XnResponse,
                env.islDelay(ue.proc.target, ue.proc.source, t) + XN_RESPONSE_PROCESSING, SendRrcReconfig);
    case SendRrcReconfig =>
      CountedOk(env, ue, ConfigSent);
      AdvanceOk(env, ue.(stats := Count(ue.stats, ConfigSent)), t, RrcReconfigDownlink, ue.proc.downlinkDelay, UeStoresConfig);
      BumpedOk(env, Advance(ue.(stats := Count(ue.stats, ConfigSent)), t, RrcReconfigDownlink, ue.proc.downlinkDelay,
                            UeStoresConfig, ue.proc.source, ue.proc.target), ConfigSent, t);
    case UeStoresConfig => StoreOk(env, ue, t);
    case ExecutionComplete => EndOk(env, ue, t); FailCancels(env, ue, t);
  }

  lemma FailCancels(env: Env, ue: Ue, t: real)
    ensures Fail(env, ue, t).cancels == 0
  {
  }

  lemma CountedOk(env: Env, ue: Ue, b: Bump)
    requires UeOk(env, ue)
    ensures UeOk(env, ue.(stats := Count(ue.stats, b)))
  {
    hide Count;
  }

  lemma BumpedOk(env: Env, o: Outcome, b: Bump, t: real)
    requires Orderly(env, o, t)
    ensures Orderly(env, o.(bump := b), t)
  {
  }

  // ----- every step keeps the invariant -----

  lemma CommitCoherent(env: Env, l: Local, o: Outcome)
    requires Sorted(l.queue) && AllFrom(l.queue, l.now) && Hops(l) == [] && Orderly(env, o, l.now)
    ensures var c := CommitOwn(l, o);
            && Sorted(c.queue) && AllFrom(c.queue, c.now) && Ticks(c) == Ticks(l)
            && HopsMatch(c.ue.proc, Hops(c)) && UeOk(env, c.ue) && c.now == l.now
  {
    hide UeOk, Sift, ScheduleOwn;
    SiftScheduled(l.queue, o.jobs, l.now);
    var hops := Sift(o.jobs, JobHop());
    if hops != [] {
      assert |hops| == 1;
      assert InsertAll([], hops) == InsertAll(Insert([], hops[0]), hops[1..]) == hops;
    }
  }

  /** The event about to be handled, as what is selected from the queue shows it. */
  lemma PopFacts(env: Env, l: Local)
    requires Coherent(env, l) && l.queue != []
    ensures var p := Pop(l);
            && Sorted(p.queue) && AllFrom(p.queue, p.now) && l.now <= p.now && p.ue == l.ue
            && match l.queue[0].act
               case OwnTick => Ticks(p) == [] && Hops(p) == Hops(l)
               case OwnJob(HopJob(hop, source, target)) =>
                 Ticks(p) == Ticks(l) && Hops(p) == [] && Hops(l) == [Timed(p.now, Pending(hop, source, target))]
               case OwnJob(PredictJob(_)) => Ticks(p) == Ticks(l) && Hops(p) == Hops(l)
  {
    hide UeOk, Sift;
    SiftHead(l.queue, IsTick());
    SiftHead(l.queue, ActHop());
    match l.queue[0].act {
      case OwnTick =>
      case OwnJob(job) =>
        assert ActHop()(OwnJob(job)) == JobHop()(job);
        match job {
          case PredictJob(_) =>
          case HopJob(hop, source, target) =>
            assert JobHop()(job) == Some(Pending(hop, source, target));
        }
    }
  }

  lemma NextTick(l: Local)
    requires Sorted(l.queue) && AllFrom(l.queue, l.now) && Ticks(l) == []
    ensures var c := l.(queue := Insert(l.queue, Timed(l.now + TICK_PERIOD, OwnTick)));
            && Sorted(c.queue) && AllFrom(c.queue, c.now) && Hops(c) == Hops(l)
            && Ticks(c) == [Timed(l.now + TICK_PERIOD, ())]
  {
    SiftInsert(l.queue, Timed(l.now + TICK_PERIOD, OwnTick), IsTick());
    SiftInsert(l.queue, Timed(l.now + TICK_PERIOD, OwnTick), ActHop());
    InsertKeepsOrder(l.queue, Timed(l.now + TICK_PERIOD, OwnTick), l.now);
  }

  lemma TickCoherent(env: Env, l: Local)
    requires ValidEnv(env) && Sorted(l.queue) && AllFrom(l.queue, l.now) && Ticks(l) == []
    requires HopsMatch(l.ue.proc, Hops(l)) && UeOk(env, l.ue)
    ensures Coherent(env, TickOwn(env, l))
    ensures Ticks(TickOwn(env, l)) == [Timed(l.now + TICK_PERIOD, ())]
  {
    hide UeOk, PreparedUe, Protocol.CheckHandover, Sift, ScheduleOwn, Orderly;
    PreparedOk(env, l.ue, l.now);
    var p := PreparedOwn(env, l);
    CheckOk(env, p.ue, l.now);
    var o := Protocol.CheckHandover(env, p.ue, l.now);
    if Awaits(p.ue.proc.phase).None? {
      CommitCoherent(env, p, o);
    } else {
      assert ScheduleOwn(p.queue, []) == p.queue by {
        SiftScheduledNone(p.queue);
      }
    }
    NextTick(CommitOwn(p, o));
  }

  lemma SiftScheduledNone(q: seq<Timed<OwnAct>>)
    ensures ScheduleOwn(q, []) == q
  {
  }

  /** One event: its guard holds, and everything is in order again. */
  lemma StepCoherent(env: Env, l: Local)
    requires ValidEnv(env) && Coherent(env, l)
    ensures Coherent(env, StepOwn(env, l)) && l.now <= StepOwn(env, l).now
  {
    hide UeOk, Sift, TickOwn, HandleHop, CommitOwn;
    if l.queue != [] {
      PopFacts(env, l);
      var p := Pop(l);
      match l.queue[0].act {
        case OwnTick =>
          TickCoherent(env, p);
          TickNow(env, p);
        case OwnJob(HopJob(hop, source, target)) =>
          HopOk(env, l.ue, p.now, hop);
          CommitCoherent(env, p, HandleHop(env, l.ue, p.now, hop, source, target));
        case OwnJob(PredictJob(_)) =>
      }
    }
  }

  lemma TickNow(env: Env, l: Local)
    ensures TickOwn(env, l).now == l.now
  {
  }

  lemma StartCoherent(env: Env, ue: Ue)
    requires Initial(ue)
    ensures Coherent(env, StartOwn(ue))
  {
  }

  lemma {:induction false} RunCoherent(env: Env, ue: Ue, m: nat)
    requires ValidEnv(env) && Initial(ue)
    ensures Coherent(env, RunOwn(env, StartOwn(ue), m))
  {
    hide Coherent, StepOwn;
    StartCoherent(env, ue);
    if m > 0 {
      RunCoherent(env, ue, m - 1);
      StepCoherent(env, RunOwn(env, StartOwn(ue), m - 1));
    }
  }
}
