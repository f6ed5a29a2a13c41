/** The cases of a step, so that every whole-run invariant is proved from the same few facts. */
module StepCases {
  import opened ChoTypes
  import opened Agenda
  import opened Channel
  import opened Protocol
  import opened ProtocolFacts
  import opened SystemModel
  import opened Independence
  import opened Lockstep

  // ----- a measurement occasion -----

  /** A procedure started at `t` towards `target`. */
  ghost predicate Started(a: Ue, o: Outcome, t: real, target: Cell) {
    var p := o.ue.proc;
    && o.bump == ReportSent(t) && o.ue.stats == Count(a.stats, o.bump)
    && p == a.proc.(phase := MeasReportUplink, source := a.serving, target := target,
                    startTime := t, phaseStart := t, failed := false,
                    servingSnrAtReport := p.servingSnrAtReport, targetSnrAtReport := p.targetSnrAtReport,
                    uplinkDelay := p.uplinkDelay, downlinkDelay := p.uplinkDelay)
    && p.uplinkDelay == UplinkDelay(o.ue.cache, a.serving) + RRC_PROCESSING
    && Sift(o.jobs, JobHop()) == [Timed(t + p.uplinkDelay, Pending(ReportArrived, a.serving, target))]
  }

  ghost predicate NotStarted(a: Ue, o: Outcome) {
    o.bump == NoBump && o.ue.stats == a.stats && o.ue.proc == a.proc && Sift(o.jobs, JobHop()) == []
  }

  /** Whether the preparation event has held for this cell long enough. */
  predicate Due(cfg: Config, meas: MeasState, occasion: Occasion) {
    occasion.Fired? && Decide(cfg, meas, occasion.time, true, occasion.best).1
  }

  /** Everything the other modules need to know about one measurement occasion. */
  ghost predicate Measured(env: Env, a: Ue, o: Outcome, t: real, occasion: Occasion) {
    && occasion.time == t
    && o.ue == a.(serving := o.ue.serving, meas := o.ue.meas, proc := o.ue.proc, context := o.ue.context,
                  stats := o.ue.stats, cache := o.ue.cache, history := o.ue.history, draws := o.ue.draws,
                  occasions := a.occasions + [occasion])
    && o.rows == [] && o.cancels == 0
    && match occasion
       case RadioLinkFailure(_) =>
         && o.lines == []
         && if env.cfg.strategy == Distance
            then && o.ue.serving == NO_CELL && NotStarted(a, o)
                 && o.ue.meas == a.meas.(serving := NO_CELL, triggerActive := false)
            else o.ue.serving == a.serving && o.ue.meas == a.meas && Started(a, o, t, NO_CELL)
       case NotFired(_) =>
         && o.ue.serving == a.serving && NotStarted(a, o) && PlainLines(t, a, o.lines, false)
         && o.ue.meas == Decide(env.cfg, a.meas, t, false, NO_CELL).0
       case Fired(_, best) =>
         && best != NO_CELL && best != a.serving && best in env.satellites
         && o.ue.serving == a.serving && PlainLines(t, a, o.lines, true)
         && o.ue.meas == Decide(env.cfg, a.meas, t, true, best).0
         && if Due(env.cfg, a.meas, occasion) then Started(a, o, t, best) else NotStarted(a, o)
  }

  ghost predicate PlainLines(t: real, a: Ue, lines: seq<Line>, fired: bool) {
    lines == [] || (|lines| == 1 && lines[0].DebugLine? && lines[0].time == t && lines[0].serving == a.serving && lines[0].fired == fired)
  }

  lemma AnnounceShape(env: Env, t: real, s: Measurement, best: Option<Measurement>, fired: bool, o: Outcome)
    ensures var a := Announce(env, t, s, best, fired, o);
            && a.ue == o.ue && a.bump == o.bump && a.rows == o.rows && a.cancels == o.cancels
            && Sift(a.jobs, JobHop()) == Sift(o.jobs, JobHop())
            && (env.cfg.strategy == Topsis || best.None? ==> a.lines == o.lines)
            && (env.cfg.strategy != Topsis && best.Some? ==> a.lines == [DebugLine(t, s.cell, best.value.cell, fired)])
  {
    var a := Announce(env, t, s, best, fired, o);
    if a != o {
      assert a.jobs[1..] == o.jobs;
    }
  }

  lemma TriggerShape(env: Env, ue: Ue, t: real, r: Report)
    requires ue.proc.phase == Idle && r.serving == ue.serving
    ensures var o := Trigger(ue, t, r);
            && Started(ue, o, t, r.target) && o.lines == [] && o.rows == [] && o.cancels == 0
            && o.ue == ue.(stats := o.ue.stats, proc := o.ue.proc)
  {
    hide UplinkDelay, Count, Sift;
    OneHop(t + (UplinkDelay(ue.cache, r.serving) + RRC_PROCESSING), ReportArrived, r.serving, r.target);
  }

  lemma OnlyShape(ue: Ue)
    ensures Sift(Only(ue).jobs, JobHop()) == []
  {
  }

  lemma LossCase(env: Env, ue: Ue, t: real)
    requires UeOk(env, ue) && ue.proc.phase == Idle && ue.serving != NO_CELL
    ensures Measured(env, ue, LoseLink(env, ue, t), t, RadioLinkFailure(t))
  {
    hide Count, UplinkDelay, Sift, CacheOk;
    var lost := ue.(context := ClearContext(env.cfg, ue), occasions := ue.occasions + [RadioLinkFailure(t)]);
    OnlyShape(lost);
    TriggerShape(env, lost, t, Report(ue.meas.serving, NO_SNR, NO_CELL, NO_SNR));
  }

  lemma ServingCase(env: Env, ue: Ue, t: real, ms: seq<Measurement>, s: Measurement) returns (occasion: Occasion)
    requires ValidEnv(env) && UeOk(env, ue) && ue.proc.phase == Idle && ue.serving != NO_CELL
    requires ms == Detected(env, ue.cache, t, |env.satellites|) && s.cell == ue.meas.serving
    ensures Measured(env, ue, MeasureServing(env, ue, t, ms, s), t, occasion)
  {
    hide TakeSurvey, Detected, Trigger, Announce, Count, UplinkDelay, Sift, CacheOk, ContextAfter;
    SurveyFrame(env, ue, t, ms, s);
    var v := TakeSurvey(env, ue, t, ms, s);
    var bestCell := if v.best.Some? then v.best.value.cell else NO_CELL;
    occasion := if v.fired then Fired(t, bestCell) else NotFired(t);
    if v.best.Some? {
      DetectedFrame(env, ue.cache, t, |env.satellites|, v.best.value);
    }
    var decided := Decided(env, v, t, s);
    var o := Only(decided);
    OnlyShape(decided);
    if v.fired && Decide(env.cfg, v.ue.meas, t, v.fired, bestCell).1 {
      var r := Report(s.cell, s.metrics.snr, bestCell, v.best.value.metrics.snr);
      TriggerShape(env, decided, t, r);
      o := Trigger(decided, t, r);
    }
    AnnounceShape(env, t, s, v.best, v.fired, o);
  }

  lemma MeasureCase(env: Env, ue: Ue, t: real) returns (occasion: Occasion)
    requires ValidEnv(env) && UeOk(env, ue) && ue.proc.phase == Idle && ue.serving != NO_CELL
    ensures Measured(env, ue, Measure(env, ue, t), t, occasion)
  {
    hide MeasureServing, Detected, FindCell, LoseLink, Measured, UeOk;
    UeServing(env, ue);
    var ms := Detected(env, ue.cache, t, |env.satellites|);
    match FindCell(ms, ue.meas.serving) {
      case None =>
        LossCase(env, ue, t);
        occasion := RadioLinkFailure(t);
      case Some(s) =>
        occasion := ServingCase(env, ue, t, ms, s);
    }
  }

  lemma LaterOk(env: Env, ue: Ue, t: real)
    requires UeOk(env, ue)
    ensures UeOk(env, ue.(meas := ue.meas.(lastTime := t)))
  {
  }

  /** The UE at a measurement occasion. */
  function Occasioned(ue: Ue, t: real): Ue {
    ue.(meas := ue.meas.(lastTime := t))
  }

  /** The per-tick decision: nothing while a hop is on its way, the execution condition while
      evaluating, and otherwise a measurement occasion, if one is due. */
  lemma TickCase(env: Env, ue: Ue, t: real) returns (occasion: Option<Occasion>)
    requires ValidEnv(env) && UeOk(env, ue)
    ensures var o := Protocol.CheckHandover(env, ue, t);
            if Awaits(ue.proc.phase).Some? then o == Only(ue) && occasion.None?
            else if ue.proc.phase == Evaluating then o == CheckExecution(env, ue, t) && occasion.None?
            else
              && ue.proc.phase == Idle
              && match occasion
                 case None => o == Only(ue) && (ue.serving == NO_CELL || t - ue.meas.lastTime < MEASUREMENT_PERIOD)
                 case Some(x) =>
                   && ue.serving != NO_CELL && ue.meas.serving == ue.serving
                   && t - ue.meas.lastTime >= MEASUREMENT_PERIOD && Measured(env, Occasioned(ue, t), o, t, x)
  {
    hide Measure, CheckExecution, UeOk, Measured;
    UeServing(env, ue);
    StableInOrder(env, ue);
    occasion := None;
    if ue.proc.phase == Idle && ue.serving != NO_CELL && t - ue.meas.lastTime >= MEASUREMENT_PERIOD {
      LaterOk(env, ue, t);
      var x := MeasureCase(env, Occasioned(ue, t), t);
      occasion := Some(x);
    }
  }

  lemma StableInOrder(env: Env, ue: Ue)
    requires UeOk(env, ue)
    ensures Stable(ue.proc.phase)
  {
  }

  /** What an evaluation leaves alone, and that it schedules at most the end of an execution. */
  ghost predicate OnlyEvaluates(ue: Ue, o: Outcome) {
    var r, p := o.ue, o.ue.proc;
    && r == ue.(stats := r.stats, proc := p, conf := r.conf, context := r.context,
                interruption := r.interruption, errorRate := r.errorRate, checks := r.checks)
    && p == ue.proc.(phase := p.phase, phaseStart := p.phaseStart, executionStart := p.executionStart,
                     servingSnrAtExecution := p.servingSnrAtExecution, targetSnrAtExecution := p.targetSnrAtExecution,
                     tttActive := p.tttActive, tttStart := p.tttStart)
    && r.stats == ue.stats.(executions := r.stats.executions, expired := r.stats.expired)
    && o.predictions == [] && o.validations == [] && o.followups == [] && o.lines == [] && o.rows == []
    && (o.jobs == [] || (|o.jobs| == 1 && o.jobs[0].act.HopJob?))
  }

  lemma EvaluationFrame(env: Env, ue: Ue, t: real)
    ensures OnlyEvaluates(ue, CheckExecution(env, ue, t))
  {
    hide ConditionMet, Execute, Expire, OnlyEvaluates;
    var checks := ue.checks + [Check(t, true)];
    var timed := ue.(checks := checks, proc := ue.proc.(tttActive := false));
    ExpireFrame(env, ue);
    ExecuteFrame(env, timed, t, ue.proc.source, ue.proc.target);
    TimerFrame(ue, timed, Execute(env, timed, t, ue.proc.source, ue.proc.target));
    forall checks, active, start
      ensures OnlyEvaluates(ue, Only(ue.(checks := checks, proc := ue.proc.(tttActive := active, tttStart := start))))
    {
      MovedFrame(ue, checks, active, start);
    }
    MovedFrame(ue, ue.checks, ue.proc.tttActive, ue.proc.tttStart);
    if ue.proc.phase == Evaluating && ue.proc.source in ue.cache && ue.proc.target in ue.cache {
      MovedFrame(ue, ue.checks + [Check(t, ConditionMet(env.cfg, ue.cache, ue.proc.source, ue.proc.target))], ue.proc.tttActive, ue.proc.tttStart);
    }
  }

  lemma MovedFrame(ue: Ue, checks: seq<Check>, active: bool, start: real)
    ensures var moved := ue.(checks := checks, proc := ue.proc.(tttActive := active, tttStart := start));
            && OnlyEvaluates(ue, Only(moved))
            && (active == ue.proc.tttActive && start == ue.proc.tttStart ==> moved == ue.(checks := checks))
            && (active == ue.proc.tttActive && start == ue.proc.tttStart && checks == ue.checks ==> moved == ue)
  {
  }

  lemma ExpireFrame(env: Env, ue: Ue)
    ensures OnlyEvaluates(ue, Expire(env, ue))
  {
  }

  lemma ExecuteFrame(env: Env, ue: Ue, t: real, source: Cell, target: Cell)
    ensures OnlyEvaluates(ue, Execute(env, ue, t, source, target))
  {
    hide UplinkDelay, AppliedRate, CachedSnr;
  }

  lemma TimerFrame(a: Ue, b: Ue, o: Outcome)
    requires b == a.(checks := b.checks, proc := a.proc.(tttActive := b.proc.tttActive)) && OnlyEvaluates(b, o)
    ensures OnlyEvaluates(a, o)
  {
  }

  // ----- a step of the UE's own run -----

  /** What the handler of the next event does. */
  function Handled(env: Env, l: Local): Outcome
    requires l.queue != []
  {
    var t := l.queue[0].time;
    match l.queue[0].act
    case OwnTick => Protocol.CheckHandover(env, PreparedUe(env, l.ue, t), t)
    case OwnJob(HopJob(hop, _, _)) => HandleHop(env, l.ue, t, hop, l.ue.proc.source, l.ue.proc.target)
    case OwnJob(PredictJob(_)) => Only(l.ue)
  }

  lemma TickFields(env: Env, l: Local)
    requires Sorted(l.queue) && AllFrom(l.queue, l.now) && Ticks(l) == []
    requires HopsMatch(l.ue.proc, Hops(l)) && UeOk(env, l.ue) && ValidEnv(env)
    ensures var l', o := TickOwn(env, l), Protocol.CheckHandover(env, PreparedUe(env, l.ue, l.now), l.now);
            && l'.ue == o.ue && l'.rows == l.rows + o.rows && l'.lines == l.lines + o.lines
            && Hops(l') == if Awaits(l.ue.proc.phase).None? then Sift(o.jobs, JobHop()) else Hops(l)
  {
    hide UeOk, PreparedUe, Protocol.CheckHandover, Sift, ScheduleOwn, Orderly, Keep;
    PreparedOk(env, l.ue, l.now);
    var p := PreparedOwn(env, l);
    CheckOk(env, p.ue, l.now);
    var o := Protocol.CheckHandover(env, p.ue, l.now);
    if Awaits(p.ue.proc.phase).None? {
      CommitHops(env, p, o);
      CommitCoherent(env, p, o);
    } else {
      SiftScheduledNone(p.queue);
    }
    NextTick(CommitOwn(p, o));
  }

  lemma CommitHops(env: Env, l: Local, o: Outcome)
    requires Sorted(l.queue) && AllFrom(l.queue, l.now) && Hops(l) == [] && Orderly(env, o, l.now)
    ensures Hops(CommitOwn(l, o)) == Sift(o.jobs, JobHop())
  {
    hide UeOk, Sift, ScheduleOwn;
    SiftScheduled(l.queue, o.jobs, l.now);
    var hops := Sift(o.jobs, JobHop());
    if hops != [] {
      assert InsertAll([], hops) == InsertAll(Insert([], hops[0]), hops[1..]) == hops;
    }
  }

  /** A step is the handling of its event; a hop finds its UE in the phase it expects. */
  lemma StepCase(env: Env, l: Local)
    requires ValidEnv(env) && Coherent(env, l) && l.queue != []
    ensures var l', o, act := StepOwn(env, l), Handled(env, l), l.queue[0].act;
            && l'.now == l.queue[0].time >= l.now
            && l'.ue == o.ue && l'.rows == l.rows + o.rows && l'.lines == l.lines + o.lines
            && match act
               case OwnTick =>
                 && Ticks(l) == [Timed(l'.now, ())] && Ticks(l') == [Timed(l'.now + TICK_PERIOD, ())]
                 && Hops(l') == if Awaits(l.ue.proc.phase).None? then Sift(o.jobs, JobHop()) else Hops(l)
               case OwnJob(HopJob(hop, _, _)) =>
                 && Awaits(l.ue.proc.phase) == Some(hop) && Expects(hop) == l.ue.proc.phase
                 && Hops(l) == [Timed(l'.now, Pending(hop, l.ue.proc.source, l.ue.proc.target))]
                 && Ticks(l') == Ticks(l) && Hops(l') == Sift(o.jobs, JobHop())
               case OwnJob(PredictJob(_)) => Ticks(l') == Ticks(l) && Hops(l') == Hops(l)
  {
    hide UeOk, Sift, TickOwn, HandleHop, Orderly, Protocol.CheckHandover, PreparedUe, Keep;
    PopFacts(env, l);
    var p := Pop(l);
    match l.queue[0].act {
      case OwnTick =>
        TickFields(env, p);
        TickCoherent(env, p);
        TickNow(env, p);
        HeadTick(l);
      case OwnJob(HopJob(hop, source, target)) =>
        HopOk(env, l.ue, p.now, hop);
        CommitCoherent(env, p, HandleHop(env, l.ue, p.now, hop, source, target));
        CommitHops(env, p, HandleHop(env, l.ue, p.now, hop, source, target));
      case OwnJob(PredictJob(_)) =>
    }
  }

  lemma HeadTick(l: Local)
    requires l.queue != [] && l.queue[0].act == OwnTick && |Ticks(l)| == 1
    ensures Ticks(l) == [Timed(l.queue[0].time, ())]
  {
    hide Sift;
    SiftHead(l.queue, IsTick());
    assert Ticks(l) == Ticks(l)[..1];
  }

  lemma EmptyStep(env: Env, l: Local)
    requires l.queue == []
    ensures StepOwn(env, l) == l
  {
  }
}
