/** Reports are sent when they should be: what makes the preparation event fire, and that an event which
    fires for the whole time-to-trigger does lead to a report. */
module Reporting {
  import opened ChoTypes
  import opened Agenda
  import opened Channel
  import opened Protocol
  import opened ProtocolFacts
  import opened SystemModel
  import opened Independence
  import opened Lockstep
  import opened StepCases
  import opened Reachable
  import opened Moments
  import opened MeasurementTrigger

  // ----- one measurement occasion -----

  /** Whether a neighbour is good enough, against the serving cell and the trend of its SNR. */
  predicate Clears(cfg: Config, servingTrend: real, s: Metrics, m: Metrics) {
    match cfg.strategy
    case Distance => m.distance / 1000.0 < s.distance / 1000.0 + cfg.reportingOffset
    case TdCho =>
      && m.snr > s.snr + 1.0
      && m.snr > s.snr + (if servingTrend < -cfg.servingTrendThreshold then cfg.trendMargin - 2.0 else cfg.trendMargin)
    case _ => m.snr > s.snr - cfg.reportingOffset
  }

  lemma SurveyFires(env: Env, ue: Ue, t: real, ms: seq<Measurement>, s: Measurement)
    ensures var v := TakeSurvey(env, ue, t, ms, s);
            v.fired <==> v.best.Some? && Clears(env.cfg, SnrTrend(env, v.ue, ue.meas.serving), s.metrics, v.best.value.metrics)
  {
    hide TrendScan, DistanceTrend, SnrTrend, Neighbours, BestNeighbour;
  }

  /** The best neighbour of the survey a UE takes, if its serving cell can be measured. */
  function BestOf(env: Env, ue: Ue, t: real): Option<Measurement>
    requires ue.meas.serving in ue.cache
  {
    var s := Measurement(ue.meas.serving, ue.cache[ue.meas.serving].metrics);
    TakeSurvey(env, ue, t, Detected(env, ue.cache, t, |env.satellites|), s).best
  }

  /** What the UE notes: a lost link exactly if its serving cell cannot be measured, and otherwise whether
      the best neighbour is good enough. */
  function Noted(env: Env, ue: Ue, t: real, servingTrend: real): Occasion {
    if !Measurable(env, ue.cache, ue.meas.serving, t) then RadioLinkFailure(t)
    else
      var best := BestOf(env, ue, t);
      if best.Some? && Clears(env.cfg, servingTrend, ue.cache[ue.meas.serving].metrics, best.value.metrics)
      then Fired(t, best.value.cell) else NotFired(t)
  }

  /** A report names what was measured. */
  ghost predicate NamesTheMeasured(env: Env, ue: Ue, p: Procedure, t: real) {
    p.phase != Idle && p.target != NO_CELL ==>
      && ue.meas.serving in ue.cache && p.servingSnrAtReport == ue.cache[ue.meas.serving].metrics.snr
      && Measurable(env, ue.cache, p.target, t) && p.targetSnrAtReport == ue.cache[p.target].metrics.snr
      && BestOf(env, ue, t) == Some(Measurement(p.target, ue.cache[p.target].metrics))
  }

  /** The debug line and the prediction of an occasion that found a best neighbour. */
  ghost predicate Announced(env: Env, ue: Ue, t: real, lines: seq<Line>, predictions: seq<Prediction>) {
    if env.cfg.strategy != Topsis && Measurable(env, ue.cache, ue.meas.serving, t) && BestOf(env, ue, t).Some? then
      var best := BestOf(env, ue, t).value.cell;
      && |lines| == 1 && lines[0].DebugLine? && lines[0].time == t && lines[0].serving == ue.meas.serving && lines[0].neighbor == best
      && predictions == [Prediction(ue.meas.serving, best, t, t + env.cfg.predictionDelay)]
    else lines == [] && predictions == []
  }

  lemma MeasureIs(env: Env, ue: Ue, t: real)
    requires ValidEnv(env) && UeOk(env, ue) && ue.proc.phase == Idle && ue.serving != NO_CELL
    ensures var r := Measure(env, ue, t).ue;
            && r.occasions == ue.occasions + [Noted(env, ue, t, SnrTrend(env, r, ue.serving))]
            && NamesTheMeasured(env, ue, r.proc, t)
            && (env.cfg.strategy != TdCho || !Measurable(env, ue.cache, ue.serving, t) ==> r.cache == ue.cache)
    ensures var o := Measure(env, ue, t); Announced(env, ue, t, o.lines, o.predictions)
  {
    hide Detected, FindCell, TakeSurvey, UeOk, Clears, SnrTrend, MeasureServing, UplinkDelay, Count, Measurable;
    UeServing(env, ue);
    UeCache(env, ue);
    FoundIfMeasurable(env, ue.cache, t, ue.serving);
    if Measurable(env, ue.cache, ue.serving, t) {
      InCache(env, ue.cache, ue.serving, t);
      ServingIs(env, ue, t);
    }
  }

  lemma UeCache(env: Env, ue: Ue)
    requires UeOk(env, ue)
    ensures CacheOk(env, ue.cache)
  {
  }

  lemma InCache(env: Env, cache: Cache, cell: Cell, t: real)
    requires Measurable(env, cache, cell, t)
    ensures cell in cache
  {
  }

  lemma FoundServing(env: Env, ue: Ue, t: real)
    requires CacheOk(env, ue.cache)
    ensures FindCell(Detected(env, ue.cache, t, |env.satellites|), ue.serving) ==
            if Measurable(env, ue.cache, ue.serving, t) then Some(Measurement(ue.serving, ue.cache[ue.serving].metrics)) else None
  {
    hide Detected, FindCell, CacheOk;
    FoundIfMeasurable(env, ue.cache, t, ue.serving);
  }

  lemma ServingIs(env: Env, ue: Ue, t: real)
    requires ValidEnv(env) && CacheOk(env, ue.cache) && ue.proc.phase == Idle && ue.serving == ue.meas.serving != NO_CELL
    requires Measurable(env, ue.cache, ue.meas.serving, t)
    ensures var s := Measurement(ue.meas.serving, ue.cache[ue.meas.serving].metrics);
            var o := MeasureServing(env, ue, t, Detected(env, ue.cache, t, |env.satellites|), s);
            && o.ue.occasions == ue.occasions + [Noted(env, ue, t, SnrTrend(env, o.ue, ue.serving))]
            && NamesTheMeasured(env, ue, o.ue.proc, t) && (env.cfg.strategy != TdCho ==> o.ue.cache == ue.cache)
            && Announced(env, ue, t, o.lines, o.predictions)
  {
    hide TakeSurvey, Clears, SnrTrend, MeasureServing, Measurable, Detected;
    InCache(env, ue.cache, ue.meas.serving, t);
    var s := Measurement(ue.meas.serving, ue.cache[ue.meas.serving].metrics);
    var ms := Detected(env, ue.cache, t, |env.satellites|);
    SurveyFires(env, ue, t, ms, s);
    SurveyFrame(env, ue, t, ms, s);
    PlainSurveyKeeps(env, ue, t, ms, s);
    ServingFollows(env, ue, t, ms, s);
    var v := TakeSurvey(env, ue, t, ms, s);
    var r := MeasureServing(env, ue, t, ms, s).ue;
    SameTrend(env, v.ue, r, ue.serving);
    if v.best.Some? {
      BestIsMeasurable(env, ue.cache, t, v.best.value);
    }
  }

  lemma TriggerSets(ue: Ue, t: real, r: Report)
    ensures var o := Trigger(ue, t, r);
            && o.ue == ue.(stats := o.ue.stats, proc := o.ue.proc) && o.lines == [] && o.predictions == []
            && (ue.proc.phase == Idle ==>
                  && o.ue.proc.target == r.target && o.ue.proc.servingSnrAtReport == r.servingSnr
                  && o.ue.proc.targetSnrAtReport == r.targetSnr)
  {
    hide Count, UplinkDelay;
  }

  lemma AnnounceSets(env: Env, t: real, s: Measurement, best: Option<Measurement>, fired: bool, o: Outcome)
    ensures var a := Announce(env, t, s, best, fired, o);
            && a.ue == o.ue
            && if env.cfg.strategy == Topsis || best.None? then a == o
               else && a.lines == [DebugLine(t, s.cell, best.value.cell, fired)]
                    && a.predictions == [Prediction(s.cell, best.value.cell, t, t + env.cfg.predictionDelay)]
  {
  }

  /** What a measurement occasion makes of its survey. */
  lemma ServingFollows(env: Env, ue: Ue, t: real, ms: seq<Measurement>, s: Measurement)
    requires ue.proc.phase == Idle && s.cell == ue.meas.serving
    ensures var v, o := TakeSurvey(env, ue, t, ms, s), MeasureServing(env, ue, t, ms, s);
            v.ue.proc == ue.proc && v.ue.occasions == ue.occasions && (v.fired ==> v.best.Some?) ==>
            && o.ue.occasions == ue.occasions + [if v.fired then Fired(t, v.best.value.cell) else NotFired(t)]
            && o.ue.history == v.ue.history && o.ue.cache == v.ue.cache
            && (o.ue.proc.phase != Idle ==>
                  && v.best.Some? && o.ue.proc.target == v.best.value.cell
                  && o.ue.proc.servingSnrAtReport == s.metrics.snr && o.ue.proc.targetSnrAtReport == v.best.value.metrics.snr)
            && if env.cfg.strategy == Topsis || v.best.None? then o.lines == [] && o.predictions == []
               else && o.lines == [DebugLine(t, s.cell, v.best.value.cell, v.fired)]
                    && o.predictions == [Prediction(s.cell, v.best.value.cell, t, t + env.cfg.predictionDelay)]
  {
    hide TakeSurvey, ContextAfter, Decide, Trigger, Announce;
    var v := TakeSurvey(env, ue, t, ms, s);
    var bestCell := if v.best.Some? then v.best.value.cell else NO_CELL;
    var decided := Decided(env, v, t, s);
    var o := Only(decided);
    if Decide(env.cfg, v.ue.meas, t, v.fired, bestCell).1 && v.best.Some? {
      var r := Report(s.cell, s.metrics.snr, bestCell, v.best.value.metrics.snr);
      TriggerSets(decided, t, r);
      o := Trigger(decided, t, r);
    }
    AnnounceSets(env, t, s, v.best, v.fired, o);
  }

  lemma PlainSurveyKeeps(env: Env, ue: Ue, t: real, ms: seq<Measurement>, s: Measurement)
    ensures env.cfg.strategy != TdCho ==> TakeSurvey(env, ue, t, ms, s).ue == ue
  {
    hide Neighbours, BestNeighbour;
  }

  lemma SameTrend(env: Env, a: Ue, b: Ue, cell: Cell)
    requires a.history == b.history
    ensures SnrTrend(env, a, cell) == SnrTrend(env, b, cell)
  {
  }

  lemma BestIsMeasurable(env: Env, cache: Cache, t: real, m: Measurement)
    requires m in Detected(env, cache, t, |env.satellites|)
    ensures Measurable(env, cache, m.cell, t) && m.metrics == cache[m.cell].metrics && m.cell in env.satellites
  {
    hide Detected;
    DetectedFrame(env, cache, t, |env.satellites|, m);
  }

  /** The per-tick decision of an idle UE that is connected and has not measured at this tick. */
  lemma CheckIsMeasure(env: Env, ue: Ue, t: real)
    requires UeOk(env, ue) && ue.proc.phase == Idle && ue.serving != NO_CELL && t - ue.meas.lastTime >= MEASUREMENT_PERIOD
    ensures Protocol.CheckHandover(env, ue, t) == Measure(env, Occasioned(ue, t), t)
  {
    hide Measure, UeOk;
    UeServing(env, ue);
  }

  // ----- what every UE keeps -----

  /** From occasion `k` on the event fired with this best neighbour, and no report was sent since. */
  ghost predicate Firing(ue: Ue, k: nat, best: Cell) {
    k < |ue.occasions| && AllFired(ue.occasions, k, best) && ue.stats.lastReportTime < ue.occasions[k].time
  }

  /** The trigger has been running since every such occasion; a UE with a procedure has reported after all
      of its occasions, and an idle one may measure at the next tick. */
  ghost predicate Alert(ue: Ue, tick: real) {
    && (forall j :: 0 <= j < |ue.occasions| ==> ue.occasions[j].time <= ue.meas.lastTime)
    && ue.meas.lastTime <= tick - TICK_PERIOD
    && (ue.meas.triggerActive ==> ue.meas.triggerStart <= ue.meas.lastTime)
    && (ue.proc.phase != Idle ==> ue.meas.lastTime <= ue.stats.lastReportTime)
    && (forall k: nat, best :: Firing(ue, k, best) ==>
          ue.meas.triggerActive && ue.meas.candidate == best && ue.meas.triggerStart <= ue.occasions[k].time)
  }

  /** The SNRs a procedure with a target was reported with. */
  ghost predicate Grounded(cfg: Config, p: Procedure) {
    p.phase != Idle && p.target != NO_CELL ==>
      match cfg.strategy
      case Distance => true
      case TdCho => p.targetSnrAtReport > p.servingSnrAtReport + 1.0
      case _ => p.targetSnrAtReport > p.servingSnrAtReport - cfg.reportingOffset
  }

  ghost predicate WatchOk(env: Env, l: Local) {
    |Ticks(l)| == 1 && Alert(l.ue, Ticks(l)[0].time) && Grounded(env.cfg, l.ue.proc)
  }

  ghost predicate NothingFiring(ue: Ue) {
    forall k: nat, best :: !Firing(ue, k, best)
  }

  lemma QuietOccasion(a: Ue, b: Ue, x: Occasion)
    requires b.occasions == a.occasions + [x] && !x.Fired?
    ensures NothingFiring(b)
  {
    assert b.occasions[|a.occasions|] == x;
  }

  lemma JustReported(ue: Ue)
    requires forall j :: 0 <= j < |ue.occasions| ==> ue.occasions[j].time <= ue.stats.lastReportTime
    ensures NothingFiring(ue)
  {
  }

  /** An occasion that fires and is not due. */
  lemma FiresOn(cfg: Config, a: Ue, b: Ue, t: real, best: Cell)
    requires Alert(a, t) && b.occasions == a.occasions + [Fired(t, best)] && b.stats == a.stats
    requires b.meas == Decide(cfg, a.meas.(lastTime := t), t, true, best).0
    requires !Decide(cfg, a.meas.(lastTime := t), t, true, best).1
    ensures forall k: nat, c :: Firing(b, k, c) ==>
              b.meas.triggerActive && b.meas.candidate == c && b.meas.triggerStart <= b.occasions[k].time
  {
    forall k: nat, c | Firing(b, k, c)
      ensures b.meas.triggerActive && b.meas.candidate == c && b.meas.triggerStart <= b.occasions[k].time
    {
      assert b.occasions[|a.occasions|] == Fired(t, best);
      assert forall j :: 0 <= j < |a.occasions| ==> b.occasions[j] == a.occasions[j];
      if k < |a.occasions| {
        assert Firing(a, k, c);
      }
    }
  }

  lemma OccasionKeepsWatch(env: Env, ue: Ue, o: Outcome, t: real, x: Occasion)
    requires Measured(env, Occasioned(ue, t), o, t, x) && ue.proc.phase == Idle && Alert(ue, t)
    ensures Alert(o.ue, t + TICK_PERIOD)
  {
    hide UplinkDelay, Sift, PlainLines, Firing;
    if !x.Fired? {
      QuietOccasion(ue, o.ue, x);
    } else if Due(env.cfg, Occasioned(ue, t).meas, x) {
      JustReported(o.ue);
    } else {
      FiresOn(env.cfg, ue, o.ue, t, x.best);
    }
  }

  lemma SameAlert(a: Ue, b: Ue, tick: real, later: real)
    requires Alert(a, tick) && tick <= later
    requires b.occasions == a.occasions && b.stats.lastReportTime == a.stats.lastReportTime
    requires b.meas == a.meas.(serving := b.meas.serving) && (b.proc.phase != Idle ==> a.proc.phase != Idle)
    ensures Alert(b, later)
  {
    assert forall k: nat, best :: Firing(b, k, best) ==> Firing(a, k, best);
  }

  /** The trigger is reset after a handover: every occasion is older than its report. */
  lemma ResetAlert(a: Ue, b: Ue, tick: real)
    requires Alert(a, tick) && a.proc.phase != Idle
    requires b.occasions == a.occasions && b.stats.lastReportTime == a.stats.lastReportTime
    requires b.meas.lastTime == a.meas.lastTime && !b.meas.triggerActive && b.proc.phase == Idle
    ensures Alert(b, tick)
  {
    JustReported(b);
  }

  lemma TickKeepsWatch(env: Env, ue: Ue, t: real)
    requires ValidEnv(env) && UeOk(env, ue) && Alert(ue, t)
    ensures Alert(Protocol.CheckHandover(env, ue, t).ue, t + TICK_PERIOD)
  {
    hide Protocol.CheckHandover, Measured, UeOk, Alert, CheckExecution;
    var x := TickCase(env, ue, t);
    var o := Protocol.CheckHandover(env, ue, t);
    if ue.proc.phase == Evaluating {
      EvaluationIsApart(env, ue, t);
      SameAlert(ue, o.ue, t, t + TICK_PERIOD);
    } else if x.Some? {
      OccasionKeepsWatch(env, ue, o, t, x.value);
    } else {
      SameAlert(ue, o.ue, t, t + TICK_PERIOD);
    }
  }

  lemma EvaluationIsApart(env: Env, ue: Ue, t: real)
    requires ue.proc.phase == Evaluating
    ensures var r := CheckExecution(env, ue, t).ue;
            && r.occasions == ue.occasions && r.stats.lastReportTime == ue.stats.lastReportTime && r.meas == ue.meas
            && r.proc.target == ue.proc.target && r.proc.servingSnrAtReport == ue.proc.servingSnrAtReport
            && r.proc.targetSnrAtReport == ue.proc.targetSnrAtReport
  {
    hide CheckExecution;
    EvaluationFrame(env, ue, t);
  }

  predicate SameReport(p: Procedure, q: Procedure) {
    q.target == p.target && q.servingSnrAtReport == p.servingSnrAtReport && q.targetSnrAtReport == p.targetSnrAtReport
  }

  /** A hop leaves the trigger alone, or ends the procedure and resets it. */
  lemma HopIsApart(env: Env, ue: Ue, t: real, hop: Hop)
    requires Awaits(ue.proc.phase) == Some(hop)
    ensures var r := HandleHop(env, ue, t, hop, ue.proc.source, ue.proc.target).ue;
            && r.occasions == ue.occasions && r.stats.lastReportTime == ue.stats.lastReportTime
            && ue.proc.phase != Idle && r.meas.lastTime == ue.meas.lastTime
            && (r.meas == ue.meas || (!r.meas.triggerActive && r.proc.phase == Idle))
            && SameReport(ue.proc, r.proc)
  {
    hide AppliedRate, LinkViable, Complete, Fail, UplinkDelay;
    if hop == ExecutionComplete {
      CompletionIsApart(env, ue, t, ue.proc.source, ue.proc.target);
      FailureIsApart(env, ue, t);
    }
  }

  lemma CompletionIsApart(env: Env, ue: Ue, t: real, source: Cell, target: Cell)
    ensures var r := Complete(env, ue, t, source, target).ue;
            && r.occasions == ue.occasions && r.stats.lastReportTime == ue.stats.lastReportTime
            && r.meas.lastTime == ue.meas.lastTime && !r.meas.triggerActive && r.proc.phase == Idle && SameReport(ue.proc, r.proc)
  {
    hide AppliedRate;
  }

  lemma FailureIsApart(env: Env, ue: Ue, t: real)
    ensures var r := Fail(env, ue, t).ue;
            && r.occasions == ue.occasions && r.stats.lastReportTime == ue.stats.lastReportTime && r.meas == ue.meas
            && SameReport(ue.proc, r.proc)
  {
  }

  lemma HopKeepsWatch(env: Env, ue: Ue, t: real, hop: Hop, tick: real)
    requires Alert(ue, tick) && Awaits(ue.proc.phase) == Some(hop)
    ensures Alert(HandleHop(env, ue, t, hop, ue.proc.source, ue.proc.target).ue, tick)
  {
    hide HandleHop, Alert;
    HopIsApart(env, ue, t, hop);
    var r := HandleHop(env, ue, t, hop, ue.proc.source, ue.proc.target).ue;
    if r.meas == ue.meas {
      SameAlert(ue, r, tick, tick);
    } else {
      ResetAlert(ue, r, tick);
    }
  }

  // ----- the grounds of a report -----

  lemma GroundsOfNoted(env: Env, ue: Ue, t: real, p: Procedure)
    requires NamesTheMeasured(env, ue, p, t) && p.phase != Idle && p.target != NO_CELL
    requires exists trend :: Noted(env, ue, t, trend).Fired?
    ensures Grounded(env.cfg, p)
  {
    hide BestOf, Measurable;
    var trend :| Noted(env, ue, t, trend).Fired?;
  }

  lemma TickKeepsGrounds(env: Env, ue: Ue, t: real)
    requires ValidEnv(env) && UeOk(env, ue) && Grounded(env.cfg, ue.proc)
    ensures Grounded(env.cfg, Protocol.CheckHandover(env, ue, t).ue.proc)
  {
    hide Protocol.CheckHandover, UeOk, Grounded, CheckExecution, Noted, NamesTheMeasured, SnrTrend, Sift, PlainLines, Decide;
    var x := TickCase(env, ue, t);
    var o := Protocol.CheckHandover(env, ue, t);
    if ue.proc.phase == Evaluating {
      EvaluationIsApart(env, ue, t);
      SameGrounds(env.cfg, ue.proc, o.ue.proc);
    } else if x.Some? {
      CheckIsMeasure(env, ue, t);
      LaterOk(env, ue, t);
      MeasureIs(env, Occasioned(ue, t), t);
      var trend := SnrTrend(env, o.ue, ue.serving);
      assert o.ue.occasions[|ue.occasions|] == Noted(env, Occasioned(ue, t), t, trend) == x.value;
      if o.ue.proc.phase != Idle && o.ue.proc.target != NO_CELL {
        GroundsOfNoted(env, Occasioned(ue, t), t, o.ue.proc);
      } else {
        NoGrounds(env.cfg, o.ue.proc);
      }
    }
  }

  lemma SameGrounds(cfg: Config, p: Procedure, q: Procedure)
    requires Grounded(cfg, p) && (q.phase != Idle ==> p.phase != Idle) && q.target == p.target
    requires q.servingSnrAtReport == p.servingSnrAtReport && q.targetSnrAtReport == p.targetSnrAtReport
    ensures Grounded(cfg, q)
  {
  }

  lemma NoGrounds(cfg: Config, p: Procedure)
    requires p.phase == Idle || p.target == NO_CELL
    ensures Grounded(cfg, p)
  {
  }

  lemma HopKeepsGrounds(env: Env, ue: Ue, t: real, hop: Hop)
    requires Grounded(env.cfg, ue.proc) && Awaits(ue.proc.phase) == Some(hop)
    ensures Grounded(env.cfg, HandleHop(env, ue, t, hop, ue.proc.source, ue.proc.target).ue.proc)
  {
    hide HandleHop, Grounded;
    HopIsApart(env, ue, t, hop);
    SameGrounds(env.cfg, ue.proc, HandleHop(env, ue, t, hop, ue.proc.source, ue.proc.target).ue.proc);
  }

  // ----- whole runs -----

  lemma StepKeepsWatch(env: Env, l: Local)
    requires ValidEnv(env) && Coherent(env, l) && WatchOk(env, l)
    ensures WatchOk(env, StepOwn(env, l))
  {
    hide StepOwn, UeOk, Protocol.CheckHandover, HandleHop, PreparedUe, Sift, Alert, Grounded;
    if l.queue == [] {
      EmptyStep(env, l);
    } else {
      StepCase(env, l);
      var t, tick := l.queue[0].time, Ticks(l)[0].time;
      match l.queue[0].act {
        case OwnTick =>
          PreparedOk(env, l.ue, t);
          var p := PreparedUe(env, l.ue, t);
          SameAlert(l.ue, p, t, t);
          TickKeepsWatch(env, p, t);
          TickKeepsGrounds(env, p, t);
        case OwnJob(HopJob(hop, _, _)) =>
          HopKeepsWatch(env, l.ue, t, hop, tick);
          HopKeepsGrounds(env, l.ue, t, hop);
        case OwnJob(PredictJob(_)) =>
      }
    }
  }

  lemma StartsWatching(env: Env, ue: Ue)
    requires Initial(ue)
    ensures WatchOk(env, StartOwn(ue))
  {
  }

  lemma {:induction false} RunKeepsWatch(env: Env, ue: Ue, m: nat)
    requires ValidEnv(env) && Initial(ue)
    ensures WatchOk(env, RunOwn(env, StartOwn(ue), m))
  {
    hide Coherent, StepOwn, WatchOk;
    StartsWatching(env, ue);
    if m > 0 {
      RunKeepsWatch(env, ue, m - 1);
      RunCoherent(env, ue, m - 1);
      StepKeepsWatch(env, RunOwn(env, StartOwn(ue), m - 1));
    }
  }

  // ----- the theorems -----

  /** A UE at the occasion this tick is for it. */
  function AtOccasion(env: Env, s: Sys, i: nat): Ue
    requires TickNext(s) && i < |s.ues|
  {
    Occasioned(AtTick(env, s, i), s.queue[0].time)
  }

  lemma WatchOfARun(env: Env, ues: seq<Ue>, run: nat -> Sys, n: nat, i: nat)
    requires Starting(env, ues) && IsRun(env, ues, run) && i < |ues|
    ensures |run(n).ues| == |ues| && Grounded(env.cfg, run(n).ues[i].proc)
    ensures TickNext(run(n)) ==> Alert(run(n).ues[i], run(n).queue[0].time)
  {
    hide Step, StepOwn, RunOwn, Initial, Sift, Alert, Grounded;
    var m, l := OwnStep(env, ues, run, n, i);
    RunKeepsWatch(env, ues[i], m);
    if TickNext(run(n)) {
      HeadTick(l);
    }
  }

  /** Every tick is a measurement occasion for every idle, connected UE. It notes a lost link if and only
      if the serving cell cannot be measured; otherwise that the event fired, if and only if there is a
      best neighbour and it clears the strategy's bound. A report names what was measured. */
  lemma IdleUesMeasure(env: Env, ues: seq<Ue>, run: nat -> Sys, n: nat, i: nat)
    requires Starting(env, ues) && IsRun(env, ues, run) && i < |ues| && TickNext(run(n))
    requires |run(n).ues| == |ues| && run(n).ues[i].proc.phase == Idle && AtTick(env, run(n), i).serving != NO_CELL
    ensures |run(n + 1).ues| == |ues|
    ensures var a, b, t := AtOccasion(env, run(n), i), run(n + 1).ues[i], run(n + 1).now;
            && b.occasions == run(n).ues[i].occasions + [Noted(env, a, t, SnrTrend(env, b, a.serving))]
            && NamesTheMeasured(env, a, b.proc, t)
            && (env.cfg.strategy != TdCho || Last(b.occasions).RadioLinkFailure? ==> b.cache == a.cache)
    ensures exists lines, predictions ::
              && Announced(env, AtOccasion(env, run(n), i), run(n + 1).now, lines, predictions)
              && Of(run(n + 1).lines, i) == Of(run(n).lines, i) + lines
              && Of(run(n + 1).predictions, i) == Of(run(n).predictions, i) + predictions
  {
    hide Step, Initial, UeOk, Protocol.CheckHandover, PreparedUe, Noted, NamesTheMeasured, Measure, Alert, Measurable, Announced;
    TickStep(env, ues, run, n, i);
    WatchOfARun(env, ues, run, n, i);
    var t := run(n).queue[0].time;
    StaysIdle(env, run(n).ues[i], t);
    var p := AtTick(env, run(n), i);
    CheckIsMeasure(env, p, t);
    LaterOk(env, p, t);
    MeasureIs(env, Occasioned(p, t), t);
    LossIsNoted(env, Occasioned(p, t), t, SnrTrend(env, run(n + 1).ues[i], p.serving));
  }

  lemma StaysIdle(env: Env, ue: Ue, t: real)
    requires ValidEnv(env) && UeOk(env, ue) && Alert(ue, t)
    ensures var p := PreparedUe(env, ue, t);
            p.proc.phase == ue.proc.phase && p.occasions == ue.occasions && t - p.meas.lastTime >= MEASUREMENT_PERIOD
  {
    hide PreparedUe, Firing, UeOk;
    PreparedOk(env, ue, t);
  }

  lemma LossIsNoted(env: Env, ue: Ue, t: real, trend: real)
    ensures UeOk(env, ue) ==> (Noted(env, ue, t, trend).RadioLinkFailure? <==> !Measurable(env, ue.cache, ue.serving, t))
  {
    hide Measurable, BestOf;
  }

  /** A link is given up only if the serving cell is out of the cache, below the horizon, too weak or past
      its trajectory, and then at the first tick. The distance strategy drops the cell; the others stay and
      start a procedure without a target. */
  lemma LinksAreLostForAReason(env: Env, ues: seq<Ue>, run: nat -> Sys, n: nat, i: nat)
    requires Starting(env, ues) && IsRun(env, ues, run) && i < |ues| && TickNext(run(n))
    requires |run(n).ues| == |ues| && run(n).ues[i].proc.phase == Idle && run(n).ues[i].serving != NO_CELL
    ensures |run(n + 1).ues| == |ues| && run(n + 1).ues[i].occasions != []
    ensures var a, b, t := AtTick(env, run(n), i), run(n + 1).ues[i], run(n + 1).now;
            var serving := run(n).ues[i].serving;
            && (Last(b.occasions) == RadioLinkFailure(t) <==>
                  serving !in a.cache || a.cache[serving].metrics.elevation < 0.0 || a.cache[serving].metrics.snr < -6.0
                  || t > env.lastTime(serving))
            && (Last(b.occasions) == RadioLinkFailure(t) ==>
                  && b.cache == a.cache
                  && if env.cfg.strategy == Distance then b.serving == NO_CELL && b.proc == run(n).ues[i].proc
                     else b.serving == serving && b.proc.phase == MeasReportUplink && b.proc.target == NO_CELL
                          && b.proc.source == serving && b.proc.startTime == t)
  {
    hide Step, Initial, UeOk, PreparedUe, NamesTheMeasured, BestOf, SnrTrend, Protocol.CheckHandover, Announced;
    TickStep(env, ues, run, n, i);
    var t := run(n).queue[0].time;
    StillServed(env, run(n).ues[i], t);
    LossStarts(env, AtTick(env, run(n), i), t);
    UeServing(env, AtTick(env, run(n), i));
    IdleUesMeasure(env, ues, run, n, i);
  }

  lemma LossStarts(env: Env, ue: Ue, t: real)
    requires ValidEnv(env) && UeOk(env, ue) && ue.proc.phase == Idle && ue.serving != NO_CELL
    ensures var b := Protocol.CheckHandover(env, ue, t).ue;
            b.occasions == ue.occasions + [RadioLinkFailure(t)] ==>
              if env.cfg.strategy == Distance then b.serving == NO_CELL && b.proc == ue.proc
              else b.serving == ue.serving && b.proc.phase == MeasReportUplink && b.proc.target == NO_CELL
                   && b.proc.source == ue.serving && b.proc.startTime == t
  {
    hide Protocol.CheckHandover, UeOk, UplinkDelay, Sift, PlainLines, Count, Decide;
    var x := TickCase(env, ue, t);
    var b := Protocol.CheckHandover(env, ue, t).ue;
    if b.occasions == ue.occasions + [RadioLinkFailure(t)] {
      assert b.occasions[|ue.occasions|] == RadioLinkFailure(t);
    }
  }

  lemma StillServed(env: Env, ue: Ue, t: real)
    requires ValidEnv(env) && UeOk(env, ue) && ue.serving != NO_CELL
    ensures PreparedUe(env, ue, t).serving == ue.serving && PreparedUe(env, ue, t).proc == ue.proc
            && PreparedUe(env, ue, t).occasions == ue.occasions
  {
    hide PreparedUe, UeOk;
    PreparedOk(env, ue, t);
  }

  /** An event that fires for the whole time-to-trigger is reported: if from its `k`-th occasion on the
      event fired at every measurement with the same best neighbour, no report was sent since, and the
      measurement of this tick is a time-to-trigger later, then a procedure towards that neighbour starts. */
  lemma FiringLongEnoughReports(env: Env, ues: seq<Ue>, run: nat -> Sys, n: nat, i: nat, k: nat, best: Cell)
    requires Starting(env, ues) && IsRun(env, ues, run) && i < |ues| && TickNext(run(n))
    requires |run(n).ues| == |ues| == |run(n + 1).ues|
    requires var before, os := run(n).ues[i], run(n + 1).ues[i].occasions;
             && |before.occasions| < |os| && k < |os| - 1 && AllFired(os, k, best)
             && before.stats.lastReportTime < os[k].time && run(n + 1).now - os[k].time >= env.cfg.timeToTrigger
    ensures var before, after, t := run(n).ues[i], run(n + 1).ues[i], run(n + 1).now;
            && after.proc.phase == MeasReportUplink && after.proc.target == best
            && after.proc.source == AtTick(env, run(n), i).serving
            && after.proc.startTime == t && Last(after.occasions) == Fired(t, best)
            && after.stats.totalReports == before.stats.totalReports + 1 && after.stats.lastReportTime == t
  {
    hide Step, Initial, UeOk, Protocol.CheckHandover, PreparedUe, Alert, Measured;
    TickStep(env, ues, run, n, i);
    WatchOfARun(env, ues, run, n, i);
    var t := run(n).queue[0].time;
    var p, before, after := AtTick(env, run(n), i), run(n).ues[i], run(n + 1).ues[i];
    PreparedOk(env, before, t);
    SameAlert(before, p, t, t);
    DueReports(env, p, t, k, best);
  }

  lemma DueReports(env: Env, ue: Ue, t: real, k: nat, best: Cell)
    requires ValidEnv(env) && UeOk(env, ue) && Alert(ue, t)
    requires var os := Protocol.CheckHandover(env, ue, t).ue.occasions;
             && |ue.occasions| < |os| && k < |os| - 1 && AllFired(os, k, best)
             && ue.stats.lastReportTime < os[k].time && t - os[k].time >= env.cfg.timeToTrigger
    ensures var after := Protocol.CheckHandover(env, ue, t).ue;
            && after.proc.phase == MeasReportUplink && after.proc.source == ue.serving && after.proc.target == best
            && after.proc.startTime == t && Last(after.occasions) == Fired(t, best)
            && after.stats.totalReports == ue.stats.totalReports + 1 && after.stats.lastReportTime == t
  {
    hide Protocol.CheckHandover, UeOk, Alert, UplinkDelay, Sift, PlainLines, CheckExecution;
    var x := TickCase(env, ue, t);
    var o := Protocol.CheckHandover(env, ue, t);
    if ue.proc.phase == Evaluating {
      EvaluationIsApart(env, ue, t);
    } else {
      assert x.Some?;
      FiredBefore(ue, o.ue, x.value, k, best);
      FiringAlert(ue, t, k, best);
    }
  }

  lemma FiredBefore(a: Ue, b: Ue, x: Occasion, k: nat, best: Cell)
    requires b.occasions == a.occasions + [x] && k < |a.occasions| && AllFired(b.occasions, k, best)
    requires a.stats.lastReportTime < b.occasions[k].time
    ensures x.Fired? && x.best == best && Firing(a, k, best) && b.occasions[k] == a.occasions[k]
  {
    assert b.occasions[|a.occasions|] == x;
    assert forall j :: 0 <= j < |a.occasions| ==> b.occasions[j] == a.occasions[j];
  }

  lemma FiringAlert(ue: Ue, t: real, k: nat, best: Cell)
    requires Alert(ue, t) && Firing(ue, k, best)
    ensures ue.meas.triggerActive && ue.meas.candidate == best && ue.meas.triggerStart <= ue.occasions[k].time
  {
  }

  /** The SNRs every procedure with a target carries from its report differ as the strategy demands. */
  lemma ProceduresHaveGrounds(env: Env, ues: seq<Ue>, run: nat -> Sys, n: nat, i: nat)
    requires Starting(env, ues) && IsRun(env, ues, run) && i < |ues|
    ensures |run(n).ues| == |ues|
    ensures var p := run(n).ues[i].proc;
            p.phase != Idle && p.target != NO_CELL ==>
              && (env.cfg.strategy == TdCho ==> p.targetSnrAtReport > p.servingSnrAtReport + 1.0)
              && (env.cfg.strategy == Snr || env.cfg.strategy == Topsis ==>
                    p.targetSnrAtReport > p.servingSnrAtReport - env.cfg.reportingOffset)
  {
    WatchOfARun(env, ues, run, n, i);
  }

  /** When a procedure with a target starts, that target clears the bound on the channel of the tick: with
      the trend-aware strategy by more than the configured margin, two decibel less while the serving cell
      falls, and never less than one. */
  lemma ReportsClearTheBound(env: Env, ues: seq<Ue>, run: nat -> Sys, n: nat, i: nat)
    requires Starting(env, ues) && IsRun(env, ues, run) && i < |ues| && TickNext(run(n))
    requires |run(n).ues| == |ues| == |run(n + 1).ues|
    requires var p, q := run(n).ues[i].proc, run(n + 1).ues[i].proc; p.phase == Idle != q.phase && q.target != NO_CELL
    ensures var a, b := AtTick(env, run(n), i), run(n + 1).ues[i];
            && a.serving in a.cache && b.proc.target in a.cache && b.proc.source == a.serving
            && Clears(env.cfg, SnrTrend(env, b, a.serving), a.cache[a.serving].metrics, a.cache[b.proc.target].metrics)
            && b.proc.servingSnrAtReport == a.cache[a.serving].metrics.snr
            && b.proc.targetSnrAtReport == a.cache[b.proc.target].metrics.snr
  {
    hide Step, Initial, UeOk, Protocol.CheckHandover, PreparedUe, Alert, Noted, NamesTheMeasured, SnrTrend, Clears;
    TickStep(env, ues, run, n, i);
    WatchOfARun(env, ues, run, n, i);
    var t := run(n).queue[0].time;
    var a, b := AtTick(env, run(n), i), run(n + 1).ues[i];
    StaysIdle(env, run(n).ues[i], t);
    StartsFired(env, a, t);
    IdleUesMeasure(env, ues, run, n, i);
    UeServing(env, a);
    ClearsWhatItNamed(env, AtOccasion(env, run(n), i), t, SnrTrend(env, b, a.serving), b.proc);
  }

  lemma StartsFired(env: Env, ue: Ue, t: real)
    requires ValidEnv(env) && UeOk(env, ue) && ue.proc.phase == Idle
    requires var p := Protocol.CheckHandover(env, ue, t).ue.proc; p.phase != Idle && p.target != NO_CELL
    ensures ue.serving != NO_CELL
    ensures var r := Protocol.CheckHandover(env, ue, t).ue;
            |r.occasions| == |ue.occasions| + 1 && Last(r.occasions).Fired? && r.proc.source == ue.serving
  {
    hide Protocol.CheckHandover, UeOk, UplinkDelay, Sift, PlainLines, CheckExecution, Decide, Count;
    var x := TickCase(env, ue, t);
  }

  lemma ClearsWhatItNamed(env: Env, ue: Ue, t: real, trend: real, p: Procedure)
    requires Noted(env, ue, t, trend).Fired? && NamesTheMeasured(env, ue, p, t) && p.phase != Idle && p.target != NO_CELL
    ensures ue.meas.serving in ue.cache && p.target in ue.cache
    ensures Clears(env.cfg, trend, ue.cache[ue.meas.serving].metrics, ue.cache[p.target].metrics)
    ensures p.servingSnrAtReport == ue.cache[ue.meas.serving].metrics.snr && p.targetSnrAtReport == ue.cache[p.target].metrics.snr
  {
    hide BestOf, Clears;
  }
}
