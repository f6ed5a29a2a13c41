/** The CHO handlers of one UE, as functions from its state to its new state and what it asks of the
    rest of the simulator: events to schedule, counters to bump, records and lines to write. */
module Protocol {
  import opened ChoTypes
  import opened Agenda
  import opened Channel
  import Topsis

  const RRC_PROCESSING := 0.010
  const BEAM_SWITCH := 0.005
  const RACH_BASE := 0.020
  const DECISION_DELAY := 0.001
  const XN_REQUEST_PROCESSING := 0.002
  const XN_RESPONSE_PROCESSING := 0.001
  const MEASUREMENT_PERIOD := 1.0
  const NO_SNR := -999.0
  const NO_TIME := -1.0
  const MIN_CANDIDATE_SNR := 3.0
  const RECEDING_PENALTY := 2.0
  const VALIDATION_DELAY := 5.0

  /** One increment of a statistics record; the UE's own and the global one get the same. */
  datatype Bump =
    | NoBump
    | ReportSent(time: real)
    | ConfigSent
    | ConfigReceived
    | ExecutionStarted
    | HandoverDone(procedureDelay: real, executionDelay: real)
    | HandoverFailed
    | ConfigExpired

  function Count(s: Statistics, b: Bump): Statistics {
    match b
    case NoBump => s
    case ReportSent(t) => s.(totalReports := s.totalReports + 1, lastReportTime := t)
    case ConfigSent => s.(configsSent := s.configsSent + 1)
    case ConfigReceived => s.(configsReceived := s.configsReceived + 1)
    case ExecutionStarted => s.(executions := s.executions + 1)
    case HandoverFailed => s.(failures := s.failures + 1)
    case ConfigExpired => s.(expired := s.expired + 1)
    case HandoverDone(p, e) =>
      var n := (s.successes + 1) as real;
      s.(successes := s.successes + 1,
         totalProcedureDelay := s.totalProcedureDelay + p,
         totalExecutionDelay := s.totalExecutionDelay + e,
         avgProcedureDelay := (s.totalProcedureDelay + p) / n,
         avgExecutionDelay := (s.totalExecutionDelay + e) / n)
  }

  datatype Outcome = Outcome(
    ue: Ue,
    bump: Bump,
    jobs: seq<Timed<Job>>,
    predictions: seq<Prediction>,
    validations: seq<Validation>,
    followups: seq<Followup>,
    lines: seq<Line>,
    rows: seq<Row>,
    cancels: nat)

  function Only(ue: Ue): Outcome {
    Outcome(ue, NoBump, [], [], [], [], [], [], 0)
  }

  // ----- starting a procedure -----

  datatype Report = Report(serving: Cell, servingSnr: real, target: Cell, targetSnr: real)

  function Trigger(ue: Ue, t: real, r: Report): Outcome {
    if ue.proc.phase != Idle then Only(ue)
    else
      var delay := UplinkDelay(ue.cache, r.serving) + RRC_PROCESSING;
      Only(ue.(stats := Count(ue.stats, ReportSent(t)),
               proc := ue.proc.(
               phase := MeasReportUplink, source := r.serving, target := r.target,
               startTime := t, phaseStart := t, failed := false,
               servingSnrAtReport := r.servingSnr, targetSnrAtReport := r.targetSnr,
               uplinkDelay := delay, downlinkDelay := delay)))
      .(bump := ReportSent(t), jobs := [Timed(t + delay, HopJob(ReportArrived, r.serving, r.target))])
  }

  // ----- the hops of a procedure -----

  /** The phase in which a hop's handler does not return at its guard. */
  function Expects(hop: Hop): Phase {
    match hop
    case ReportArrived => MeasReportUplink
    case SendXnRequest => GnbDecision
    case XnResponse => Phase.XnRequest
    case SendRrcReconfig => Phase.XnResponse
    case UeStoresConfig => RrcReconfigDownlink
    case ExecutionComplete => Executing
  }

  function Advance(ue: Ue, t: real, phase: Phase, delay: real, next: Hop, source: Cell, target: Cell): Outcome {
    Only(ue.(proc := ue.proc.(phase := phase, phaseStart := t)))
    .(jobs := [Timed(t + delay, HopJob(next, source, target))])
  }

  function StoreConfig(env: Env, ue: Ue, t: real, target: Cell): Outcome {
    var expiry := t + env.cfg.validity;
    Only(ue.(stats := Count(ue.stats, ConfigReceived),
             proc := ue.proc.(phase := Evaluating, phaseStart := t, configReceived := t, configExpiry := expiry,
             tttActive := false, tttStart := NO_TIME, timeToTrigger := env.cfg.executionTtt),
             conf := ue.conf.(configs := ue.conf.configs[target := ChoConfiguration(target, t, expiry)],
             received := ue.conf.received + 1)))
    .(bump := ConfigReceived)
  }

  predicate LinkViable(cfg: Config, cache: Cache, cell: Cell) {
    cell in cache &&
    var m := cache[cell].metrics;
    m.snr >= cfg.minViableSinr && m.distance / 1000.0 <= cfg.maxViableDistance && m.elevation >= 0.0
  }

  function CachedSnr(cache: Cache, cell: Cell, default: real): real {
    if cell in cache then cache[cell].metrics.snr else default
  }

  /** ApplyUeErrorModelImmediately: the packet error rate of the serving link, or total loss. */
  function AppliedRate(env: Env, ue: Ue): real {
    if ue.serving == NO_CELL || ue.serving !in ue.cache then ue.errorRate
    else if ue.interruption then 1.0
    else env.errorRate(ue.cache[ue.serving].metrics.snr)
  }

  function ClearContext(cfg: Config, ue: Ue): HoContext {
    if cfg.strategy == Topsis then ue.context else NO_CONTEXT
  }

  function ExecutionLines(cfg: Config, t: real): seq<Line> {
    if cfg.strategy == Topsis || cfg.strategy == Distance then [ExecutionLine(t)] else []
  }

  function Fail(env: Env, ue: Ue, t: real): Outcome {
    Only(ue.(stats := Count(ue.stats, HandoverFailed),
             hoFail := ue.hoFail + 1,
             interruption := false,
             conf := ue.conf.(configs := map[]),
             context := ClearContext(env.cfg, ue),
             proc := ue.proc.(phase := Idle, failed := true)))
    .(bump := HandoverFailed,
      lines := ExecutionLines(env.cfg, t)
      + if env.cfg.strategy == Snr then [ResultLine(t, t - ue.proc.startTime, "")] else [],
      rows := [Row(t, ue.proc.source, ue.proc.target, false)])
  }

  predicate ContextMatches(ue: Ue, source: Cell, target: Cell) {
    ue.context.valid && ue.context.source == source && ue.context.target == target
  }

  function Complete(env: Env, ue: Ue, t: real, source: Cell, target: Cell): Outcome {
    var done := HandoverDone(t - ue.proc.configReceived, t - ue.proc.executionStart);
    var moved := ue.(
      stats := Count(ue.stats, done),
      hoCount := ue.hoCount + 1,
      serving := target,
      meas := ue.meas.(serving := target, triggerActive := false, triggerStart := NO_TIME, candidate := NO_CELL),
      conf := ue.conf.(executionPending := false, executionTarget := NO_CELL, configs := map[]),
      interruption := false,
      context := ClearContext(env.cfg, ue),
      proc := ue.proc.(phase := Idle, failed := false));
    Only(moved.(errorRate := AppliedRate(env, moved)))
    .(bump := done,
      lines := ExecutionLines(env.cfg, t)
      + (if env.cfg.strategy != Topsis && ContextMatches(ue, source, target)
         then [ResultLine(t, t - ue.context.decisionTime, ue.context.trigger)] else [])
      + [CompleteLine(source, target)],
      rows := [Row(t, source, target, true)],
      cancels := |ue.conf.configs.Keys - {target}|)
  }

  function HandleHop(env: Env, ue: Ue, t: real, hop: Hop, source: Cell, target: Cell): Outcome {
    if ue.proc.phase != Expects(hop) then Only(ue)
    else
      match hop
      case ReportArrived =>
        Advance(ue, t, GnbDecision, DECISION_DELAY, SendXnRequest, source, target)
      case SendXnRequest =>
        Advance(ue, t, Phase.XnRequest, env.islDelay(source, target, t) + XN_REQUEST_PROCESSING, Hop.XnResponse, source, target)
      case XnResponse =>
        Advance(ue, t, Phase.XnResponse, env.islDelay(target, source, t) + XN_RESPONSE_PROCESSING, SendRrcReconfig, source, target)
      case SendRrcReconfig =>
        Advance(ue.(stats := Count(ue.stats, ConfigSent)), t, RrcReconfigDownlink, ue.proc.downlinkDelay, UeStoresConfig, source, target)
        .(bump := ConfigSent)
      case UeStoresConfig => StoreConfig(env, ue, t, target)
      case ExecutionComplete =>
        if LinkViable(env.cfg, ue.cache, target) then Complete(env, ue, t, source, target)
        else Fail(env, ue, t)
  }

  // ----- executing -----

  function ExecutionTime(cache: Cache, source: Cell, target: Cell): real {
    UplinkDelay(cache, source) + (RRC_PROCESSING + BEAM_SWITCH) + (UplinkDelay(cache, target) * 4.0 + RACH_BASE)
  }

  /** CHO_Phase6_UeExecutes */
  function Execute(env: Env, ue: Ue, t: real, source: Cell, target: Cell): Outcome {
    if ue.proc.phase != Evaluating then Only(ue)
    else
      var started := ue.(
        stats := Count(ue.stats, ExecutionStarted),
        conf := ue.conf.(executionPending := true, executionTarget := target, executionTriggerTime := t),
        interruption := true,
        proc := ue.proc.(phase := Executing, phaseStart := t, executionStart := t,
        servingSnrAtExecution := CachedSnr(ue.cache, source, ue.proc.servingSnrAtExecution),
        targetSnrAtExecution := CachedSnr(ue.cache, target, ue.proc.targetSnrAtExecution)));
      Only(started.(errorRate := AppliedRate(env, started)))
      .(bump := ExecutionStarted,
        jobs := [Timed(t + ExecutionTime(ue.cache, source, target), HopJob(ExecutionComplete, source, target))])
  }

  /** Phase 2 of the conditional handover: the condition stored with the configuration. */
  predicate ConditionMet(cfg: Config, cache: Cache, source: Cell, target: Cell)
    requires source in cache && target in cache
  {
    var s, g := cache[source].metrics, cache[target].metrics;
    if cfg.strategy == Distance then
      s.distance / 1000.0 - g.distance / 1000.0 >= cfg.executionOffset && s.distance / 1000.0 < cfg.maxDistance
    else
      g.snr - s.snr >= cfg.executionOffset && s.snr > cfg.minSnr
  }

  function Expire(env: Env, ue: Ue): Outcome {
    Only(ue.(stats := Count(ue.stats, ConfigExpired),
             proc := ue.proc.(phase := Idle),
             conf := ue.conf.(configs := map[]),
             context := if env.cfg.strategy == TdCho then NO_CONTEXT else ue.context))
    .(bump := ConfigExpired)
  }

  /** CHO_CheckExecutionCondition */
  function CheckExecution(env: Env, ue: Ue, t: real): Outcome {
    if ue.proc.phase != Evaluating then Only(ue)
    else if t > ue.proc.configExpiry then Expire(env, ue)
    else
      var source, target := ue.proc.source, ue.proc.target;
      if source !in ue.cache || target !in ue.cache then Only(ue)
      else
        var met := ConditionMet(env.cfg, ue.cache, source, target);
        var seen := ue.(checks := ue.checks + [Check(t, met)]);
        if !met then Only(seen.(proc := ue.proc.(tttActive := false, tttStart := NO_TIME)))
        else if !ue.proc.tttActive then Only(seen.(proc := ue.proc.(tttActive := true, tttStart := t)))
        else if t - ue.proc.tttStart >= ue.proc.timeToTrigger then
          Execute(env, seen.(proc := ue.proc.(tttActive := false)), t, source, target)
        else Only(seen)
  }

  // ----- measuring -----

  function Neighbours(ms: seq<Measurement>, serving: Cell, k: nat): (r: seq<Measurement>)
    requires k <= |ms|
    ensures forall m :: m in r ==> m in ms && m.cell != serving
  {
    if k == 0 then []
    else if ms[k - 1].cell == serving then Neighbours(ms, serving, k - 1)
    else Neighbours(ms, serving, k - 1) + [ms[k - 1]]
  }

  function MetricsOf(ms: seq<Measurement>): (r: seq<Metrics>)
    ensures |r| == |ms|
  {
    seq(|ms|, i requires 0 <= i < |ms| => ms[i].metrics)
  }

  predicate Beats(cfg: Config, m: Measurement, best: Option<Measurement>) {
    if cfg.strategy == Distance then
      m.metrics.distance < (if best.Some? then best.value.metrics.distance else OUT_OF_REACH)
    else
      m.metrics.snr > (if best.Some? then best.value.metrics.snr else NEVER_CHOSEN)
  }

  /** The best neighbour among the first `k` measurements: nearest, or strongest. */
  function BestNeighbour(cfg: Config, ms: seq<Measurement>, serving: Cell, k: nat): (r: Option<Measurement>)
    requires k <= |ms|
    ensures r.Some? ==> r.value in ms && r.value.cell != serving
  {
    if k == 0 then None
    else
      var best := BestNeighbour(cfg, ms, serving, k - 1);
      if ms[k - 1].cell != serving && Beats(cfg, ms[k - 1], best) then Some(ms[k - 1]) else best
  }

  /** UE_EvaluateCHOPreparationCondition */
  predicate PreparationMet(cfg: Config, s: Measurement, n: Measurement) {
    if cfg.strategy == Distance then
      n.metrics.distance / 1000.0 < s.metrics.distance / 1000.0 + cfg.reportingOffset
    else
      n.metrics.snr > s.metrics.snr - cfg.reportingOffset
  }

  /** What the UE learns from one round of measurements. */
  datatype Survey = Survey(
    ue: Ue,
    best: Option<Measurement>,
    fired: bool,
    validations: seq<Validation>,
    followups: seq<Followup>)

  /** The trend-aware scan of the first `k` neighbours: receding ones are penalised. */
  datatype Scan = Scan(ue: Ue, best: Option<Measurement>, metric: real, validations: seq<Validation>)

  function TrendScan(env: Env, ue: Ue, t: real, ms: seq<Measurement>, k: nat): (r: Scan)
    requires k <= |ms|
    ensures r.best.Some? ==> r.best.value in ms && r.best.value.cell != ue.meas.serving
  {
    if k == 0 then Scan(ue, None, NO_SNR, [])
    else
      var s, m := TrendScan(env, ue, t, ms, k - 1), ms[k - 1];
      if m.cell == ue.meas.serving || m.metrics.snr < MIN_CANDIDATE_SNR then s
      else
        var (after, trend) := DistanceTrend(env, s.ue, m.cell, t);
        var metric := m.metrics.snr - if trend > 0.0 then RECEDING_PENALTY else 0.0;
        var validation := Validation(t, m.cell, trend, m.metrics.snr, t + VALIDATION_DELAY);
        if metric > s.metric
        then Scan(after, Some(m), metric, s.validations + [validation])
        else Scan(after, s.best, s.metric, s.validations + [validation])
  }

  function Margin(cfg: Config, servingTrend: real): real {
    var m := if servingTrend < -cfg.servingTrendThreshold then cfg.trendMargin - 2.0 else cfg.trendMargin;
    if 1.0 < m then m else 1.0
  }

  function FollowupsFor(t: real, s: Measurement, snrTrend: real, distanceTrend: real): seq<Followup> {
    [Followup(t, s.cell, snrTrend, distanceTrend, s.metrics.snr, 1.0, t + 1.0),
     Followup(t, s.cell, snrTrend, distanceTrend, s.metrics.snr, 3.0, t + 3.0),
     Followup(t, s.cell, snrTrend, distanceTrend, s.metrics.snr, 5.0, t + 5.0)]
  }

  function TrendSurvey(env: Env, ue: Ue, t: real, ms: seq<Measurement>, s: Measurement): Survey {
    var scan := TrendScan(env, ue, t, ms, |ms|);
    if scan.best.None? then Survey(scan.ue, None, false, scan.validations, [])
    else
      var best := scan.best.value;
      var (u1, servingChange) := DistanceTrend(env, scan.ue, ue.meas.serving, t);
      var (u2, _) := DistanceTrend(env, u1, best.cell, t);
      var servingTrend := SnrTrend(env, u2, ue.meas.serving);
      Survey(u2, Some(best),
             best.metrics.snr > s.metrics.snr + Margin(env.cfg, servingTrend),
             scan.validations,
             if servingTrend < -env.cfg.servingTrendThreshold
             then FollowupsFor(t, s, servingTrend, servingChange) else [])
  }

  function PlainSurvey(env: Env, ue: Ue, ms: seq<Measurement>, s: Measurement): Survey {
    var best :=
      if env.cfg.strategy == Topsis then
        var candidates := Neighbours(ms, ue.meas.serving, |ms|);
        if candidates == [] then None
        else Some(candidates[Topsis.Choice(env.root, MetricsOf(candidates))])
      else BestNeighbour(env.cfg, ms, ue.meas.serving, |ms|);
    Survey(ue, best, best.Some? && PreparationMet(env.cfg, s, best.value), [], [])
  }

  function TakeSurvey(env: Env, ue: Ue, t: real, ms: seq<Measurement>, s: Measurement): Survey {
    if env.cfg.strategy == TdCho then TrendSurvey(env, ue, t, ms, s) else PlainSurvey(env, ue, ms, s)
  }

  /** The time-to-trigger logic all strategies share: None while no report is due. */
  function Decide(cfg: Config, meas: MeasState, t: real, fired: bool, best: Cell): (MeasState, bool) {
    if !fired then (meas.(triggerActive := false, triggerStart := NO_TIME, candidate := NO_CELL), false)
    else if !meas.triggerActive then (meas.(triggerActive := true, triggerStart := t, candidate := best), false)
    else if best != meas.candidate then (meas.(triggerStart := t, candidate := best), false)
    else if t - meas.triggerStart >= cfg.timeToTrigger then
      (meas.(reportsSent := meas.reportsSent + 1, lastReportTime := t, triggerActive := false), true)
    else (meas, false)
  }

  function TriggerName(cfg: Config): string {
    if cfg.strategy == TdCho then "A3+prediction" else "A3"
  }

  function ContextAfter(cfg: Config, ue: Ue, t: real, s: Measurement, best: Option<Measurement>, fired: bool): HoContext {
    if cfg.strategy == Topsis then ue.context
    else if fired && best.Some? then
      HoContext(true, s.metrics.snr, best.value.metrics.snr, t, s.cell, best.value.cell, TriggerName(cfg))
    else NO_CONTEXT
  }

  /** The radio link is gone: the distance strategy drops the cell, the others report without a target. */
  function LoseLink(env: Env, ue: Ue, t: real): Outcome {
    var lost := ue.(context := ClearContext(env.cfg, ue), occasions := ue.occasions + [RadioLinkFailure(t)]);
    if env.cfg.strategy == Distance then
      Only(lost.(serving := NO_CELL, meas := ue.meas.(serving := NO_CELL, triggerActive := false)))
    else Trigger(lost, t, Report(ue.meas.serving, NO_SNR, NO_CELL, NO_SNR))
  }

  function Announce(env: Env, t: real, s: Measurement, best: Option<Measurement>, fired: bool, o: Outcome): Outcome {
    if env.cfg.strategy == Topsis || best.None? then o
    else
      var p := Prediction(s.cell, best.value.cell, t, t + env.cfg.predictionDelay);
      var delay := if env.cfg.predictionDelay < 0.0 then 0.0 else env.cfg.predictionDelay;
      o.(jobs := [Timed(t + delay, PredictJob(p))] + o.jobs,
         predictions := [p],
         lines := [DebugLine(t, s.cell, best.value.cell, fired)])
  }

  /** One measurement occasion that found the serving cell: survey, decide, perhaps start. */
  function MeasureServing(env: Env, ue: Ue, t: real, ms: seq<Measurement>, s: Measurement): Outcome {
    var v := TakeSurvey(env, ue, t, ms, s);
    var bestCell := if v.best.Some? then v.best.value.cell else NO_CELL;
    var (meas, due) := Decide(env.cfg, v.ue.meas, t, v.fired, bestCell);
    var decided := v.ue.(
      meas := meas,
      context := ContextAfter(env.cfg, v.ue, t, s, v.best, v.fired),
      occasions := v.ue.occasions + [if v.fired then Fired(t, bestCell) else NotFired(t)]);
    var o := if due && v.best.Some?
             then Trigger(decided, t, Report(s.cell, s.metrics.snr, bestCell, v.best.value.metrics.snr))
             else Only(decided);
    Announce(env, t, s, v.best, v.fired, o).(validations := v.validations, followups := v.followups)
  }

  /** UE_EvaluateAndReport and the start of a procedure if it yields a report. */
  function Measure(env: Env, ue: Ue, t: real): Outcome {
    if ue.meas.serving == NO_CELL then Only(ue.(context := ClearContext(env.cfg, ue)))
    else
      var ms := Detected(env, ue.cache, t, |env.satellites|);
      match FindCell(ms, ue.meas.serving)
      case None => LoseLink(env, ue, t)
      case Some(s) => MeasureServing(env, ue, t, ms, s)
  }

  /** The serving cell as the measurement state should have it. */
  function Resync(ue: Ue, t: real): MeasState {
    if ue.meas.serving == NO_CELL || ue.meas.serving != ue.serving then
      ue.meas.(serving := ue.serving, lastTime := t, triggerActive := false, triggerStart := NO_TIME, candidate := NO_CELL)
    else ue.meas
  }

  /** CheckHandover: the per-tick decision of one UE. */
  function CheckHandover(env: Env, ue: Ue, t: real): Outcome {
    if ue.proc.phase != Idle then
      if ue.proc.phase == Evaluating then CheckExecution(env, ue, t) else Only(ue)
    else if ue.serving == NO_CELL then Only(ue)
    else
      var meas := Resync(ue, t);
      if t - meas.lastTime < MEASUREMENT_PERIOD then Only(ue.(meas := meas))
      else Measure(env, ue.(meas := meas.(lastTime := t)), t)
  }

  /** Step 2 of the tick for one UE: connect if unconnected, then apply the error rate. */
  function ApplyChannel(env: Env, ue: Ue, t: real): Ue {
    var first := if ue.serving == NO_CELL then FirstServing(env, ue.cache, t) else NO_CELL;
    var connected := if first == NO_CELL then ue else ue.(serving := first, meas := ue.meas.(serving := first));
    connected.(errorRate := AppliedRate(env, connected))
  }

  /** The first tick's view of a UE. */
  ghost predicate Initial(ue: Ue) {
    && ue.serving == NO_CELL && !ue.interruption && ue.stats == NO_STATISTICS && ue.hoCount == 0 && ue.hoFail == 0
    && ue.meas == MeasState(NO_CELL, NO_TIME, false, NO_TIME, NO_CELL, 0, NO_TIME)
    && ue.proc.phase == Idle && ue.proc.source == NO_CELL == ue.proc.target && !ue.proc.failed
    && ue.proc.startTime == ue.proc.phaseStart == 0.0
    && ue.proc.configReceived == ue.proc.configExpiry == ue.proc.executionStart == -999.0
    && !ue.proc.tttActive && ue.proc.tttStart == NO_TIME && ue.proc.uplinkDelay == ue.proc.downlinkDelay == 0.0
    && ue.conf == ConfigState(map[], false, NO_CELL, NO_TIME, 0)
    && ue.context == NO_CONTEXT && ue.cache == map[] && ue.history == map[] && ue.draws == 0
    && ue.occasions == [] && ue.checks == []
  }
}
