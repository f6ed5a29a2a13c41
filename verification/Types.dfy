/** The records the four conditional-handover (CHO) simulators share: one value per C++ struct.
    Times are seconds, signal-to-noise ratios decibel, distances metres. */
module ChoTypes {

  datatype Option<+T> = None | Some(value: T)

  /** A satellite name; the empty name is the source's "no satellite". */
  type Cell = string

  const NO_CELL: Cell := ""

  /** The four strategies that share the CHO engine. */
  datatype Strategy = TdCho | Snr | Topsis | Distance

  /** `ConfigStored`, `XnSuccess` and `XnCancel` are set inside a handler, or never; no UE rests there. */
  datatype Phase =
    | Idle
    | MeasReportUplink
    | GnbDecision
    | XnRequest
    | XnResponse
    | RrcReconfigDownlink
    | ConfigStored
    | Evaluating
    | Executing
    | XnSuccess
    | XnCancel

  datatype Metrics = Metrics(elevation: real, distance: real, snr: real)

  /** What the channel model returns for a satellite it cannot see. */
  const UNSEEN := Metrics(-90.0, 1000000000.0, -999.0)

  datatype CacheEntry = CacheEntry(time: real, metrics: Metrics)

  type Cache = map<Cell, CacheEntry>

  datatype Sample = Sample(time: real, snr: real)

  /** One cell as the UE measured it. */
  datatype Measurement = Measurement(cell: Cell, metrics: Metrics)

  /** Simulation-wide parameters; every theorem is for all their values. */
  datatype Config = Config(
    strategy: Strategy,
    timeToTrigger: real,
    executionTtt: real,
    validity: real,
    minViableSinr: real,
    maxViableDistance: real,
    reportingOffset: real,
    minSnr: real,
    maxDistance: real,
    executionOffset: real,
    measurementPeriod: real,
    trendMargin: real,
    servingTrendThreshold: real,
    trendWindow: int,
    predictionDelay: real)

  /** The world outside the engine: which satellites exist and when, the geometry, the radio
      samples and the inter-satellite delays. `snr` takes the number of samples the UE has drawn so
      far, which stands for the state of that UE's own random generator. `profile` identifies a UE
      (its position, scenario and seed), so that the same UE can be placed in different runs. */
  datatype Env = Env(
    cfg: Config,
    satellites: seq<Cell>,
    firstTime: Cell -> real,
    lastTime: Cell -> real,
    distance: (nat, Cell, real) -> real,
    elevation: (nat, Cell, real) -> real,
    snr: (nat, Cell, real, nat) -> real,
    islDelay: (Cell, Cell, real) -> real,
    errorRate: real -> real,
    root: real -> real)

  /** What the loader and the physics guarantee: every satellite has a name, no signal arrives
      before it is sent. */
  ghost predicate ValidEnv(env: Env) {
    && NO_CELL !in env.satellites
    && (forall a, b, t :: env.islDelay(a, b, t) >= 0.0)
  }

  datatype Procedure = Procedure(
    phase: Phase,
    source: Cell,
    target: Cell,
    startTime: real,
    phaseStart: real,
    servingSnrAtReport: real,
    targetSnrAtReport: real,
    configReceived: real,
    configExpiry: real,
    executionStart: real,
    servingSnrAtExecution: real,
    targetSnrAtExecution: real,
    tttActive: bool,
    tttStart: real,
    timeToTrigger: real,
    uplinkDelay: real,
    downlinkDelay: real,
    failed: bool)

  datatype MeasState = MeasState(
    serving: Cell,
    lastTime: real,
    triggerActive: bool,
    triggerStart: real,
    candidate: Cell,
    reportsSent: nat,
    lastReportTime: real)

  datatype ChoConfiguration = ChoConfiguration(target: Cell, received: real, expiry: real)

  datatype ConfigState = ConfigState(
    configs: map<Cell, ChoConfiguration>,
    executionPending: bool,
    executionTarget: Cell,
    executionTriggerTime: real,
    received: nat)

  /** What the UE remembers of the decision, for the result line it prints on success. */
  datatype HoContext = HoContext(
    valid: bool,
    preServingSnr: real,
    preNeighborSnr: real,
    decisionTime: real,
    source: Cell,
    target: Cell,
    trigger: string)

  const NO_CONTEXT := HoContext(false, -999.0, -999.0, -1.0, NO_CELL, NO_CELL, "")

  datatype Statistics = Statistics(
    totalReports: nat,
    configsSent: nat,
    configsReceived: nat,
    executions: nat,
    successes: nat,
    failures: nat,
    expired: nat,
    totalProcedureDelay: real,
    avgProcedureDelay: real,
    totalExecutionDelay: real,
    avgExecutionDelay: real,
    lastReportTime: real)

  const NO_STATISTICS := Statistics(0, 0, 0, 0, 0, 0, 0, 0.0, 0.0, 0.0, 0.0, -999.0)

  /** What one measurement occasion found: the preparation event fired with this best neighbour, it
      did not fire, or the serving cell was gone. Bookkeeping for the properties. */
  datatype Occasion =
    | Fired(time: real, best: Cell)
    | NotFired(time: real)
    | RadioLinkFailure(time: real)

  /** One evaluation of the execution condition. Bookkeeping for the properties. */
  datatype Check = Check(time: real, met: bool)

  datatype Ue = Ue(
    profile: nat,
    serving: Cell,
    meas: MeasState,
    proc: Procedure,
    conf: ConfigState,
    context: HoContext,
    interruption: bool,
    errorRate: real,
    stats: Statistics,
    hoCount: nat,
    hoFail: nat,
    cache: Cache,
    history: map<Cell, seq<Sample>>,
    draws: nat,
    occasions: seq<Occasion>,
    checks: seq<Check>)

  datatype Prediction = Prediction(serving: Cell, neighbor: Cell, decisionTime: real, evalTime: real)

  datatype Validation = Validation(
    recordTime: real, cell: Cell, distanceTrend: real, sinr: real, verificationTime: real)

  datatype Followup = Followup(
    recordTime: real, serving: Cell, snrTrend: real, distanceTrend: real, sinr: real,
    horizon: real, verificationTime: real)

  /** The lines of standard output that the log analysis reads. */
  datatype Line =
    | DebugLine(time: real, serving: Cell, neighbor: Cell, fired: bool)
    | ExecutionLine(time: real)
    | ResultLine(time: real, decisionDelay: real, trigger: string)
    | CompleteLine(source: Cell, target: Cell)

  /** A row of the handover CSV. */
  datatype Row = Row(time: real, source: Cell, target: Cell, success: bool)

  /** The scheduled handlers of a procedure; phase 6 is called directly, never scheduled. */
  datatype Hop =
    | ReportArrived
    | SendXnRequest
    | XnResponse
    | SendRrcReconfig
    | UeStoresConfig
    | ExecutionComplete

  datatype Job =
    | HopJob(hop: Hop, source: Cell, target: Cell)
    | PredictJob(prediction: Prediction)
}
