# Conditional handover in a multi-UE satellite network

This project models the simulators under `scratch/`: discrete-event programs in which any number of UEs
on the ground are served by satellites and move between them by conditional handover (section 9.2.3.4 of
3GPP TS 38.300, sections 5.3.5.13.4 and 5.3.5.13.5 of 3GPP TS 38.331). Four programs share one engine and
differ in how a candidate is chosen, what the stored execution condition compares and what a radio-link
failure does; here they are one engine with a `Strategy` (trend-aware `TdCho`, `Snr`, `Topsis`,
`Distance`).

A one-second tick refreshes each UE's channel cache, measures, runs the measurement time-to-trigger and
starts procedures; a procedure then moves through scheduled phases with per-hop delays, an expiry, an
execution time-to-trigger, a liveness check, and success or failure. The theorems are about all runs: any
number of UEs, any radio samples, any geometry, any parameters.

- `Types`, `Channel`, `SnrHistory`, `Topsis`, `Protocol`, `SystemModel` hold the records, the handlers as
  functions, and `Run`, the system with one shared queue.
- `Simulator` is the program itself: a class whose fields are the globals of the source, with an array of
  UE records changed in place. Every method is proved equal to the function that specifies it, so what is
  proved of `Run` holds of `Simulation.RunEvents`.
- `Independence` shows that a UE in company is the same UE alone. The per-UE invariants in `Lockstep`,
  `StepCases`, `HandoverPath`, `Timing`, `ExecutionTrigger`, `MeasurementTrigger`, `Reporting`, `Evaluation`,
  `ProcedureDelays`, `Sampling` and `PendingRecords` are therefore proved on the engine with one UE and
  carried over to every run; `Reordering`, `Reachable`, `Moments`, `Liveness`, `Conservation`, `Aftermath`,
  `LinkRate` and `DistanceTrends` state further results on the shared system.
- `HandoverLog`, `LogRoundTrip`, `LogByUe`, `SnrLog` and `PingPong` are the log analysis and its round trip
  with the simulators' printed lines; `SimulationFacts` applies the theorems to the simulator object.
- `StaleTrigger`, `RisingSatellite` and `SnrFailure` are concrete runs that show where the code does not do
  what it seems to promise.
- `CandidateChoice`, `TopsisOptimality`, `TopsisWeights`, `Interpolation`, `Trajectory` and `Benchmark` are
  self-contained results about the choice of a cell, the multi-criteria choice, the elevation tables, the
  satellite positions and the scheduler benchmark.

`dafny verify dfyconfig.toml` checks everything.

Readings of the code that its own documentation does not give:

- The period between measurements is the literal 1.0 (`scratch/MultiUE-CHO-SNR-TDCHO/SNR-CHO-Multi-TDCHO.cc:897`),
  although the repository's own `README.md:33` lists a flag for it; the flag only moves the sample the distance trend compares with.
- The configured reporting offset plays no part in the trend-aware trigger.
- A radio-link failure leaves the measurement trigger as it was, so a later report can rest on a window the
  failure lies in (`StaleTrigger`).
- The distance trend of a satellite that rose within the last period is taken against the distance of an
  unseen one, so it always counts as approaching and is never penalised (`RisingSatellite`).
- The SNR program prints a result line for a failure as well, and the log analysis gives each completion
  the oldest result that waits, so after a failure handovers are reported at the times of other attempts
  (`SnrFailure`).
- With `prefer_a3` the analysis can still settle on a debug entry that did not fire (`HandoverLog.PreferenceHolds`).

## Model

| member | source | states |
|---|---|---|
| Independence.UesAreIndependent | scratch/MultiUE-CHO-SNR-TDCHO/SNR-CHO-Multi-TDCHO.cc:2889-2918 | In every run with any UEs, at every moment, UE i's state, its events and its entries in every shared list are those of the run in which it is the only UE, after as many events as it had: UEs do not influence each other |
| Liveness.EverySoloMomentIsShown | scratch/MultiUE-CHO-SNR-TDCHO/SNR-CHO-Multi-TDCHO.cc:2889-2918 | Conversely, every moment of the run in which the UE is alone is shown by the run with the others: the two are the same but for waiting |
| Reordering.SimultaneousEventsCommute | scratch/MultiUE-CHO-SNR-TDCHO/SNR-CHO-Multi-TDCHO.cc:2004-2560 | Two events of different UEs at the head of the queue with the same time can change places: after both, every UE is in the same state, with the same events and records |
| Reordering.SwapIsNeverNoticed | scratch/MultiUE-CHO-SNR-TDCHO/SNR-CHO-Multi-TDCHO.cc:2889-2918 | And for ever after: whatever view of the system a UE has at any moment of one of the two runs, it has in the other, after as many events of its own |
| Independence.StepView | scratch/MultiUE-CHO-SNR-TDCHO/SNR-CHO-Multi-TDCHO.cc:2889-2918 | A tick or an own event is a step of the UE alone; an event of another UE is invisible to it |
| Independence.OfKeepFor | scratch/MultiUE-CHO-SNR-TDCHO/SNR-CHO-Multi-TDCHO.cc:1901-1949 | Erasing records from a shared pending list, for one UE or for all, is erasing them from each UE's own list |
| Independence.RunIsOrdered | scratch/MultiUE-CHO-SNR-TDCHO/SNR-CHO-Multi-TDCHO.cc:2889-2918 | Nothing is ever scheduled in the past: the queue stays ordered and the clock never goes back |
| SystemModel.RunIs | scratch/MultiUE-CHO-SNR-TDCHO/SNR-CHO-Multi-TDCHO.cc:2889-2918 | A population has exactly one run: each state follows from the one before by handling the earliest event |
| Reachable.QueueAndPhaseInLockstep | scratch/MultiUE-CHO-SNR-TDCHO/SNR-CHO-Multi-TDCHO.cc:2004-2560 | In every reachable state an idle or evaluating UE has no phase event in the queue, and every other UE exactly one, for the handler its phase waits for and with its stored cells |
| Reachable.GuardsNeverDropEvents | scratch/MultiUE-CHO-SNR-TDCHO/SNR-CHO-Multi-TDCHO.cc:2063-2292 | Whenever a phase event is next, its UE is in the phase its handler's guard asks for and the event's cells are the procedure's: no guard ever drops an event |
| Reachable.ServingChain | scratch/MultiUE-CHO-SNR-TDCHO/SNR-CHO-Multi-TDCHO.cc:2169-2408 | Through a procedure the UE stays with the source cell and heads for another; it holds exactly the target's configuration while evaluating or executing and none otherwise; the data path is down exactly while executing; the context names the procedure's cells, SNRs, start and trigger |
| Reachable.NoCancelIsEverSent | scratch/MultiUE-CHO-SNR/SNR-CHO-Multi.cc:1835-1852 | Over every run the number of HANDOVER_CANCEL messages stays 0, since the only configuration held is the target's |
| Lockstep.StepCoherent | scratch/MultiUE-CHO-SNR-TDCHO/SNR-CHO-Multi-TDCHO.cc:2004-2560 | One event of a UE's run keeps the queue ordered, one tick pending, queue and phase in lockstep and the UE's record in order |
| Lockstep.HopOk | scratch/MultiUE-CHO-SNR-TDCHO/SNR-CHO-Multi-TDCHO.cc:2063-2292 | Each phase handler leaves the UE in order with exactly the next hop scheduled, for all six scheduled phases |
| Lockstep.MeasureOk | scratch/MultiUE-CHO-SNR-TDCHO/SNR-CHO-Multi-TDCHO.cc:1559-1884 | A measurement occasion, with or without a report, leaves the UE in order |
| HandoverPath.HandoversFormAPath | scratch/MultiUE-CHO-distance/distance-CHO-Multi.cc:2126-2145 | The successful handovers of a UE form a path in time order that ends at its serving cell, and their number is hoCount; only a radio-link failure of the distance strategy may break the path |
| Liveness.EveryProcedureEnds | scratch/MultiUE-CHO-SNR-TDCHO/SNR-CHO-Multi-TDCHO.cc:2004-2560 | Every procedure, also one without a target, is over after finitely many events and no later than preparation, validity and one tick or the execution after its report |
| Liveness.NoProcedureIsOverdue | scratch/MultiUE-CHO-SNR-TDCHO/SNR-CHO-Multi-TDCHO.cc:2004-2560 | In no reachable state is a procedure under way past its deadline |
| Liveness.TheClockPassesEveryBound | scratch/MultiUE-CHO-SNR-TDCHO/SNR-CHO-Multi-TDCHO.cc:2917-2917 | The clock of every run passes every bound: no run is stuck, and none piles up events before some moment |
| Liveness.TickComes | scratch/MultiUE-CHO-SNR-TDCHO/SNR-CHO-Multi-TDCHO.cc:2917-2917 | From every reachable state the next tick comes after finitely many events |
| Liveness.StepIsLighter | scratch/MultiUE-CHO-SNR-TDCHO/SNR-CHO-Multi-TDCHO.cc:2063-2292 | Every event other than a tick strictly lowers the number of events that can still follow before the next tick |
| Timing.TicksFindUesAtRest | scratch/MultiUE-CHO-SNR-TDCHO/SNR-CHO-Multi-TDCHO.cc:2619-2631 | If preparation and execution each take less than a tick, every tick finds every UE idle or evaluating |
| Timing.LivenessCheckReadsTheSameCache | scratch/MultiUE-CHO-SNR-TDCHO/SNR-CHO-Multi-TDCHO.cc:2299-2322 | If an execution takes less than a tick, however long preparations take, the cache the liveness check reads is one on which the execution condition is met |
| Timing.SnrConditionImpliesViability | scratch/MultiUE-CHO-SNR-TDCHO/SNR-CHO-Multi-TDCHO.cc:2525-2530 | The SNR condition guarantees a viable target SNR if and only if minSNR + executionOffset reaches the viable minimum |
| Timing.DistanceConditionImpliesViability | scratch/MultiUE-CHO-distance/distance-CHO-Multi.cc:1976-1982 | The distance condition guarantees a viable target distance if and only if maxDistance - executionOffset is within the viable maximum |
| Timing.FailureCauses | scratch/MultiUE-CHO-distance/distance-CHO-Multi.cc:1351-1363 | If an execution takes less than a tick and the parameters add up, a failed liveness check is never due to the target's SNR (SNR conditions) or distance (distance condition), only to what the condition did not compare |
| ProcedureDelays.ConfigurationsArriveOnSchedule | scratch/MultiUE-CHO-SNR-TDCHO/SNR-CHO-Multi-TDCHO.cc:2063-2224 | The configuration arrives exactly when the delays of the five hops add up to: report, decision, request and response across the satellites with their processing, reconfiguration |
| ProcedureDelays.ReportsTakeTheUplink | scratch/MultiUE-CHO-SNR-TDCHO/SNR-CHO-Multi-TDCHO.cc:2004-2060 | A report takes the cached distance to the serving cell over the speed of light and 10 ms |
| ProcedureDelays.ExecutionsTakeTheSwitch | scratch/MultiUE-CHO-SNR-TDCHO/SNR-CHO-Multi-TDCHO.cc:2226-2284 | An execution's end is scheduled exactly one way to the source, 15 ms, four ways to the target and 20 ms after its start |
| ExecutionTrigger.HandoverRateBound | scratch/MultiUE-CHO-SNR-TDCHO/SNR-CHO-Multi-TDCHO.cc:1826-1882 | At every moment a UE's executions times (timeToTrigger + executionTimeToTrigger) is at most the time so far, also across radio-link failures |
| ExecutionTrigger.ExecutionsAreBacked | scratch/MultiUE-CHO-SNR-TDCHO/SNR-CHO-Multi-TDCHO.cc:2497-2560 | An executing UE met the condition at every tick over at least the execution time-to-trigger, after the configuration arrived and before it expired |
| Evaluation.EvaluationsCompare | scratch/MultiUE-CHO-SNR-TDCHO/SNR-CHO-Multi-TDCHO.cc:2497-2560 | Every tick of an evaluating UE drops a configuration older than its validity; else, with both cells cached, it records a check that is met if and only if the target beats the serving cell by the offset and the serving cell is within its bound; it executes only on a met check and records the SNRs compared |
| Evaluation.ExecutionsImprove | scratch/MultiUE-CHO-SNR-TDCHO/SNR-CHO-Multi-TDCHO.cc:2525-2530 | Whenever a UE executes, the recorded target SNR exceeds the serving one by at least the execution offset and the serving one the minimum (all strategies but distance) |
| Evaluation.HeldLongEnoughExecutes | scratch/MultiUE-CHO-SNR-TDCHO/SNR-CHO-Multi-TDCHO.cc:2532-2560 | A condition met at every check of the procedure over the execution time-to-trigger, up to this tick, is executed at this tick |
| ExecutionTrigger.ProcedureDelaysAreBounded | scratch/MultiUE-CHO-SNR-TDCHO/SNR-CHO-Multi-TDCHO.cc:2327-2339 | Per UE, total procedure delay minus total execution delay lies between successes times the execution time-to-trigger and successes times the validity |
| ExecutionTrigger.GlobalDelaysAreBounded | scratch/MultiUE-CHO-SNR-TDCHO/SNR-CHO-Multi-TDCHO.cc:2327-2339 | The same bound for the global statistics |
| MeasurementTrigger.ReportsAreBacked | scratch/MultiUE-CHO-distance/distance-CHO-Multi.cc:1290-1346 | A report with a target follows measurements over at least timeToTrigger that all fired with that target as best neighbour: always in the distance strategy, and in the others if and only if the window has no radio-link failure. The measurements are one tick apart, except right after such a failure |
| StaleTrigger.ReportOverARadioLinkFailure | scratch/MultiUE-CHO-SNR-TDCHO/SNR-CHO-Multi-TDCHO.cc:1583-1596 | A concrete run of the SNR strategy whose report spans a radio-link failure, since the failure leaves the trigger running: the side condition is needed |
| Reporting.IdleUesMeasure | scratch/MultiUE-CHO-SNR-TDCHO/SNR-CHO-Multi-TDCHO.cc:2619-2666 | Every tick is a measurement occasion for every idle, connected UE: it notes a lost link if and only if the serving cell is not measurable, and otherwise that the event fired, if and only if its best neighbour clears the strategy's bound; the debug line and the prediction name that neighbour |
| Reporting.FiringLongEnoughReports | scratch/MultiUE-CHO-distance/distance-CHO-Multi.cc:1312-1336 | The converse of ReportsAreBacked: if from some occasion on the event fired at every measurement with the same best neighbour, no report was sent since, and the time-to-trigger has passed, then a procedure towards that neighbour starts at this tick, in every strategy |
| Reporting.ReportsClearTheBound | scratch/MultiUE-CHO-SNR-TDCHO/SNR-CHO-Multi-TDCHO.cc:1683-1728 | When a procedure with a target starts, the target beats the serving cell on the channel of the tick: by more than 1 dB and more than the margin, 2 dB less while the serving SNR falls (trend-aware), by more than minus the reporting offset (SNR, TOPSIS), or in distance; both SNRs are recorded as cached |
| Reporting.ProceduresHaveGrounds | scratch/MultiUE-CHO-SNR/SNR-CHO-Multi.cc:1169-1175 | Whenever a procedure with a target is under way, its recorded target SNR exceeds the serving one plus 1 dB (trend-aware) or minus the reporting offset (SNR, TOPSIS) |
| Reporting.LinksAreLostForAReason | scratch/MultiUE-CHO-distance/distance-CHO-Multi.cc:2126-2138 | At a tick an idle UE gives its link up if and only if the serving cell is uncached, below the horizon, weaker than -6 dB or past its trajectory; the distance strategy then drops it, the others start a procedure without a target |
| Aftermath.PendingMeansExecutingOrFailed | scratch/MultiUE-CHO-SNR-TDCHO/SNR-CHO-Multi-TDCHO.cc:2471-2495 | In every run executionPending is set exactly while the UE executes or after its last handover failed, and the failure mark implies an idle UE whose last handover failed |
| Aftermath.FailureMarkLasts | scratch/MultiUE-CHO-SNR-TDCHO/SNR-CHO-Multi-TDCHO.cc:2019-2042 | No event takes the failure mark away but the start of the next procedure |
| Aftermath.FailureLeavesTheLinkDown | scratch/MultiUE-CHO-SNR-TDCHO/SNR-CHO-Multi-TDCHO.cc:2488-2494 | From a failed liveness check until the next tick, whatever other events come between, the UE is idle, back with its source and uninterrupted, but its error rate stays 1 and the pending flag set |
| LinkRate.TheNextTickEndsTheLoss | scratch/MultiUE-CHO-SNR-TDCHO/SNR-CHO-Multi-TDCHO.cc:2713-2740 | The next tick after that ends it: the UE is on its old cell with the error rate of the SNR just sampled, or has given the cell up |
| LinkRate.TicksApplyTheChannel | scratch/MultiUE-CHO-SNR-TDCHO/SNR-CHO-Multi-TDCHO.cc:1979-1999 | After every tick each connected, uninterrupted UE with a cached cell has the packet error rate of that cell's sampled SNR |
| LinkRate.TicksConnect | scratch/MultiUE-CHO-SNR-TDCHO/SNR-CHO-Multi-TDCHO.cc:2567-2617 | Every tick connects a UE without a cell to the first of the nearest, or strongest, acceptable satellites, unless there is none |
| LinkRate.ExecutionsEnd | scratch/MultiUE-CHO-SNR-TDCHO/SNR-CHO-Multi-TDCHO.cc:2299-2408 | An execution succeeds if and only if the target is cached with viable SNR, distance and elevation; then the UE is on the target at once with the error rate of that link and both delays are added up; else it is on its source with the link down; one row tells which |
| SnrFailure.AHandoverFails | scratch/MultiUE-CHO-SNR/SNR-CHO-Multi.cc:1933-1957 | A concrete run of the SNR strategy whose tenth event is a failing liveness check although the SNR parameters add up: the results about failures speak of reachable states |
| Conservation.CountersAreConserved | scratch/MultiUE-CHO-SNR-TDCHO/SNR-CHO-Multi-TDCHO.cc:2004-2513 | In every reachable state each UE's counters balance stage by stage, every global counter and delay sum is the sum of the UEs' own, and every average times its count is its total |
| Conservation.GlobalBalance | scratch/MultiUE-CHO-SNR-TDCHO/SNR-CHO-Multi-TDCHO.cc:2004-2513 | The global counters balance with the number of UEs now preparing, downloading, evaluating and executing |
| Conservation.CommitConserves | scratch/MultiUE-CHO-SNR-TDCHO/SNR-CHO-Multi-TDCHO.cc:2327-2339 | One increment in a UE's statistics and the same one in the global statistics keep the global ones the sum |
| Channel.FirstTrendIsTheChange | scratch/MultiUE-CHO-SNR-TDCHO/SNR-CHO-Multi-TDCHO.cc:1438-1461 | With a fresh entry at a whole second, the first distance trend of a tick is d(t) - d(t - p); it back-dates the cache entry and leaves the SNR history alone |
| Channel.SecondTrendIsZero | scratch/MultiUE-CHO-SNR-TDCHO/SNR-CHO-Multi-TDCHO.cc:1625-1677 | Every further distance trend for that cell in the tick is exactly 0, because the entry is back-dated |
| Channel.SamplingTwiceIsSamplingOnce | scratch/MultiUE-CHO-SNR-TDCHO/SNR-CHO-Multi-TDCHO.cc:1203-1211 | A cell sampled at a whole second is returned from the cache when sampled again: no second radio draw |
| Channel.RefreshFrame | scratch/MultiUE-CHO-SNR-TDCHO/SNR-CHO-Multi-TDCHO.cc:2894-2898 | Refreshing the channel changes only cache, history and draws, drops no cell, and caches only existing satellites at least a metre away |
| Channel.DetectedFrame | scratch/MultiUE-CHO-SNR-TDCHO/SNR-CHO-Multi-TDCHO.cc:1507-1533 | A measured cell is cached, exists, is above the horizon, detectable and inside its trajectory, with the cached metrics |
| Channel.DetectedIsAll | scratch/MultiUE-CHO-SNR-TDCHO/SNR-CHO-Multi-TDCHO.cc:1507-1533 | Conversely every cached satellite with elevation at least 0 and SNR at least -6 dB within its trajectory is measured, once and in list order |
| Sampling.CachesHoldSamples | scratch/MultiUE-CHO-SNR-TDCHO/SNR-CHO-Multi-TDCHO.cc:1203-1342 | In every reachable state each cached entry holds the distance, elevation and one drawn SNR of its satellite at its own time |
| Sampling.TicksSampleTheSky | scratch/MultiUE-CHO-SNR-TDCHO/SNR-CHO-Multi-TDCHO.cc:2893-2898 | At every tick each UE acts on samples of that second of every satellite in its trajectory and at least a metre away, and the trend-aware strategy has them at the end of its SNR histories |
| ProtocolFacts.SurveyFrame | scratch/MultiUE-CHO-SNR-TDCHO/SNR-CHO-Multi-TDCHO.cc:1559-1790 | A survey only samples; its best neighbour was measured and is not the serving cell; it fires only with a best neighbour |
| SnrHistory.UpdateHistory | scratch/MultiUE-CHO-SNR-TDCHO/SNR-CHO-Multi-TDCHO.cc:1168-1201 | The in-place deque update: same-instant replacement, out-of-order rejection, trimming to two windows |
| SnrHistory.ComputeTrend | scratch/MultiUE-CHO-SNR-TDCHO/SNR-CHO-Multi-TDCHO.cc:1389-1433 | The two running sums of the last and the previous window give the difference of their means, 0 before two windows |
| SnrHistory.HistoryIsTailOfLog | scratch/MultiUE-CHO-SNR-TDCHO/SNR-CHO-Multi-TDCHO.cc:1168-1201 | After any samples the bounded history is the last 2W of the log that forgets nothing, strictly ordered in time |
| SnrHistory.TrendOfHistoryIsTrendOfLog | scratch/MultiUE-CHO-SNR-TDCHO/SNR-CHO-Multi-TDCHO.cc:1389-1433 | The trend of the bounded history is the trend of everything accepted so far |
| SnrHistory.TrendNeedsTwoWindows | scratch/MultiUE-CHO-SNR-TDCHO/SNR-CHO-Multi-TDCHO.cc:1389-1433 | The trend is 0 until two windows of samples have been accepted |
| SnrHistory.TrendIsBounded | scratch/MultiUE-CHO-SNR-TDCHO/SNR-CHO-Multi-TDCHO.cc:1389-1433 | The trend never leaves the range the samples span |
| SnrHistory.SteadyChange | scratch/MultiUE-CHO-SNR-TDCHO/SNR-CHO-Multi-TDCHO.cc:1389-1433 | A signal that changes by b per sample has trend b times the window |
| SnrFailure.TheSnrIsNotToBlame | scratch/MultiUE-CHO-SNR/SNR-CHO-Multi.cc:1933-1957 | In that run the result about the causes of failures applies: the target's SNR is viable, so what failed is something its condition did not compare |
| DistanceTrends.RecordedTrends | scratch/MultiUE-CHO-SNR-TDCHO/SNR-CHO-Multi-TDCHO.cc:1616-1700 | In every run every pending validation and follow-up record holds d(t) - d(t - p) if the run and the satellite's trajectory are p old, although every query back-dates the cache; before that 0, or d(t) less the 1e9 m of an unseen satellite |
| RisingSatellite.RecordThatIsNoChange | scratch/MultiUE-CHO-SNR-TDCHO/SNR-CHO-Multi-TDCHO.cc:1439-1461 | A concrete run that records a trend of -999000 km for a satellite that stands still, because it rose within the last period |
| DistanceTrends.SecondNeighbourTrend | scratch/MultiUE-CHO-SNR-TDCHO/SNR-CHO-Multi-TDCHO.cc:1671-1677 | The best neighbour's distance trend that the survey computes a second time is 0 whatever the satellite does, unless it has just risen |
| PendingRecords.PredictionsAreScheduledOnce | scratch/MultiUE-CHO-SNR-TDCHO/SNR-CHO-Multi-TDCHO.cc:1901-1949 | In every reachable state a UE's pending predictions are exactly those the queue holds a look for, in order and at the configured delay: none is evaluated twice, dropped or forgotten |
| PendingRecords.TicksVerifyAndNote | scratch/MultiUE-CHO-SNR-TDCHO/SNR-CHO-Multi-TDCHO.cc:2790-2887 | At every tick exactly the validations and follow-ups whose time has come leave a UE's lists; those of this tick join, with their three horizons if the serving SNR falls |
| PendingRecords.ScanValidates | scratch/MultiUE-CHO-SNR-TDCHO/SNR-CHO-Multi-TDCHO.cc:1616-1640 | The trend-aware scan records every neighbour of at least 3 dB in order, to be verified 5 s later |
| DistanceTrends.RefreshFresh | scratch/MultiUE-CHO-SNR-TDCHO/SNR-CHO-Multi-TDCHO.cc:2893-2898 | After the refresh of a whole-second tick every cached satellite whose trajectory is not over has an entry of that moment |
| CandidateChoice.NeighbourIsBest | scratch/MultiUE-CHO-distance/distance-CHO-Multi.cc:1222-1236 | The plain scan returns the first of the nearest, or strongest, neighbours, and none only if there is none |
| CandidateChoice.ScanPicksHighest | scratch/MultiUE-CHO-SNR-TDCHO/SNR-CHO-Multi-TDCHO.cc:1616-1660 | The trend-aware scan returns the first neighbour with the highest penalised SNR |
| CandidateChoice.ScanMissesNobody | scratch/MultiUE-CHO-SNR-TDCHO/SNR-CHO-Multi-TDCHO.cc:1612-1660 | It returns nothing exactly if no neighbour reaches the minimum SNR |
| CandidateChoice.EligibleIsBest | scratch/MultiUE-CHO-distance/distance-CHO-Multi.cc:2018-2068 | The scan for a serving cell keeps the first of the best eligible ones |
| CandidateChoice.FirstServingIsBest | scratch/MultiUE-CHO-distance/distance-CHO-Multi.cc:2018-2083 | An unconnected UE stays so exactly if no satellite is acceptable; otherwise it gets the first of the best eligible ones: the hysteresis after the scan turns down the best only if it would turn down all |
| CandidateChoice.NeighboursAreAll | scratch/MultiUE-CHO-TOPSIS/topsis-CHO-Multi.cc:1289-1302 | The TOPSIS candidates are all measured cells but the serving one, in order |
| CandidateChoice.SurveyPicksTheBest | scratch/MultiUE-CHO-TOPSIS/topsis-CHO-Multi.cc:1289-1302 | In every strategy a survey has no best neighbour exactly if there is no candidate; otherwise it is the strongest, the nearest, or one no other candidate dominates |
| Topsis.FindBestTarget | scratch/MultiUE-CHO-TOPSIS/topsis-CHO-Multi.cc:350-447 | The whole matrix computation, in place, picks the candidate the definition picks; nothing for no candidate |
| TopsisOptimality.ScoreRespectsDominance | scratch/MultiUE-CHO-TOPSIS/topsis-CHO-Multi.cc:422-445 | Scores lie in [0, 1]; a candidate no worse on SINR, elevation and distance never scores lower, and one that is also better on one of them scores strictly higher |
| TopsisOptimality.ChoiceIsParetoOptimal | scratch/MultiUE-CHO-TOPSIS/topsis-CHO-Multi.cc:350-447 | The chosen candidate is dominated by none, has the highest score, and is the first that has it |
| TopsisOptimality.ChoiceIgnoresUnits | scratch/MultiUE-CHO-TOPSIS/topsis-CHO-Multi.cc:366-385 | Rescaling a column (metres to kilometres) changes no score and not the choice |
| TopsisOptimality.IdealsAreAttained | scratch/MultiUE-CHO-TOPSIS/topsis-CHO-Multi.cc:410-419 | The positive and negative ideals are entries of the weighted matrix, not the initial sentinels |
| TopsisOptimality.DifferingColumnHasWeight | scratch/MultiUE-CHO-TOPSIS/topsis-CHO-Multi.cc:381-403 | A criterion on which two candidates differ has positive weight, by its deviation or by the uniform fallback |
| TopsisWeights.ColumnsAreNormalised | scratch/MultiUE-CHO-TOPSIS/topsis-CHO-Multi.cc:366-381 | Each column is divided by its Euclidean length, and an all-zero column left alone |
| TopsisWeights.WeightsFollowDeviations | scratch/MultiUE-CHO-TOPSIS/topsis-CHO-Multi.cc:383-403 | The weights are in the ratio of the standard deviations of the normalised columns and sum to 1 if the deviations total more than 1e-6, and are 1/3 each otherwise |
| TopsisWeights.ScoreIsRelativeCloseness | scratch/MultiUE-CHO-TOPSIS/topsis-CHO-Multi.cc:410-445 | The score is the Euclidean distance to the worst values over the sum of the distances to the best and to the worst |
| TopsisWeights.TheStrongerIsChosen | scratch/MultiUE-CHO-TOPSIS/topsis-CHO-Multi.cc:350-447 | A concrete pair for which the weights decide: the SNR, which differs most, outweighs elevation and distance together |
| Simulator.Simulation.constructor | scratch/MultiUE-CHO-SNR-TDCHO/SNR-CHO-Multi-TDCHO.cc:890-905 | The simulation starts with the given UEs, empty lists and one tick at time 0 |
| Simulator.Simulation.Enqueue | src/core/model/map-scheduler.cc:62-68 | The scan that places an event puts it behind every event that is not later |
| Simulator.Simulation.UpdateSatelliteState | scratch/MultiUE-CHO-SNR-TDCHO/SNR-CHO-Multi-TDCHO.cc:1203-1342 | In-place sampling of one cell of one UE |
| Simulator.Simulation.UpdateCaches | scratch/MultiUE-CHO-SNR-TDCHO/SNR-CHO-Multi-TDCHO.cc:2893-2898 | The nested loop of step 1 refreshes every UE as the per-UE definition says |
| Simulator.Simulation.SelectBestSatellite | scratch/MultiUE-CHO-SNR-TDCHO/SNR-CHO-Multi-TDCHO.cc:2567-2617 | The scan picks the first-serving cell of the definition, or none |
| Simulator.Simulation.ApplyErrorModel | scratch/MultiUE-CHO-SNR-TDCHO/SNR-CHO-Multi-TDCHO.cc:1979-1999 | Sets the packet error rate of the serving link, 1 during the interruption, unchanged without a cached serving cell |
| Simulator.Simulation.UpdateChannelState | scratch/MultiUE-CHO-SNR-TDCHO/SNR-CHO-Multi-TDCHO.cc:2713-2740 | Step 2 connects unconnected UEs and applies every error rate |
| Simulator.Simulation.VerifyPendingMeasurements | scratch/MultiUE-CHO-SNR-TDCHO/SNR-CHO-Multi-TDCHO.cc:2790-2834 | The erasing scan keeps exactly the validations whose time has not come |
| Simulator.Simulation.VerifyPendingServingSnrFollowups | scratch/MultiUE-CHO-SNR-TDCHO/SNR-CHO-Multi-TDCHO.cc:2836-2887 | The erasing scan keeps exactly the follow-ups whose time has not come |
| Simulator.Simulation.EvaluatePendingPrediction | scratch/MultiUE-CHO-SNR-TDCHO/SNR-CHO-Multi-TDCHO.cc:1901-1912 | Erases the UE's matching prediction and leaves those of every other UE |
| Simulator.EraseRecords | scratch/MultiUE-CHO-SNR-TDCHO/SNR-CHO-Multi-TDCHO.cc:2790-2834 | Erasing while scanning leaves the records that are kept, in their order |
| Simulator.Simulation.PerformMeasurements | scratch/MultiUE-CHO-SNR-TDCHO/SNR-CHO-Multi-TDCHO.cc:1507-1533 | The measuring loop yields the visible, detectable cells |
| Simulator.Simulation.GetDistanceTrend | scratch/MultiUE-CHO-SNR-TDCHO/SNR-CHO-Multi-TDCHO.cc:1438-1461 | The trend and its side effect on the cache |
| Simulator.Simulation.ScanNeighbours | scratch/MultiUE-CHO-SNR-TDCHO/SNR-CHO-Multi-TDCHO.cc:1616-1660 | The trend-aware scan with its penalty, its best-so-far and the validation records it appends |
| Simulator.Simulation.PickNeighbour | scratch/MultiUE-CHO-distance/distance-CHO-Multi.cc:1223-1236 | The scan for the nearest, or the strongest, neighbour |
| Simulator.Simulation.ChooseByTopsis | scratch/MultiUE-CHO-TOPSIS/topsis-CHO-Multi.cc:1289-1302 | The TOPSIS choice among the measured neighbours |
| Simulator.Simulation.SurveyTrends | scratch/MultiUE-CHO-SNR-TDCHO/SNR-CHO-Multi-TDCHO.cc:1671-1730 | Trends, dynamic margin, follow-up records and the A3 comparison |
| Simulator.Simulation.UpdateTrigger | scratch/MultiUE-CHO-SNR-TDCHO/SNR-CHO-Multi-TDCHO.cc:1815-1882 | The time-to-trigger state machine and the context, in place |
| Simulator.Simulation.EvaluateAndReport | scratch/MultiUE-CHO-SNR-TDCHO/SNR-CHO-Multi-TDCHO.cc:1559-1884 | The whole occasion, from measuring to the started procedure |
| Simulator.Simulation.LinkLost | scratch/MultiUE-CHO-distance/distance-CHO-Multi.cc:2126-2138 | A lost serving cell: re-selection in the distance strategy, a report without target in the others |
| Simulator.Simulation.TriggerProcedure | scratch/MultiUE-CHO-SNR-TDCHO/SNR-CHO-Multi-TDCHO.cc:2004-2060 | Starts a procedure in place, counts it and schedules its first hop |
| Simulator.Simulation.Phase1ReportArrived | scratch/MultiUE-CHO-SNR-TDCHO/SNR-CHO-Multi-TDCHO.cc:2063-2086 | Phase 1 in place, equal to the specified handling |
| Simulator.Simulation.Phase2SendXnRequest | scratch/MultiUE-CHO-SNR-TDCHO/SNR-CHO-Multi-TDCHO.cc:2088-2113 | Phase 2 in place |
| Simulator.Simulation.Phase3XnResponse | scratch/MultiUE-CHO-SNR-TDCHO/SNR-CHO-Multi-TDCHO.cc:2115-2139 | Phase 3 in place |
| Simulator.Simulation.Phase4SendRrcReconfig | scratch/MultiUE-CHO-SNR-TDCHO/SNR-CHO-Multi-TDCHO.cc:2141-2167 | Phase 4 in place |
| Simulator.Simulation.Phase5UeStoresConfig | scratch/MultiUE-CHO-SNR-TDCHO/SNR-CHO-Multi-TDCHO.cc:2169-2224 | Phase 5 in place |
| Simulator.Simulation.UeExecutes | scratch/MultiUE-CHO-SNR-TDCHO/SNR-CHO-Multi-TDCHO.cc:2226-2284 | Phase 6 in place |
| Simulator.Simulation.Phase7ExecutionComplete | scratch/MultiUE-CHO-SNR-TDCHO/SNR-CHO-Multi-TDCHO.cc:2286-2469 | Phase 7 in place: liveness check, then success or failure |
| Simulator.Simulation.HandleFailure | scratch/MultiUE-CHO-SNR-TDCHO/SNR-CHO-Multi-TDCHO.cc:2471-2495 | A failure clears configurations and interruption, not the pending flag, and does not re-apply the error rate |
| Simulator.Simulation.CheckExecutionCondition | scratch/MultiUE-CHO-SNR-TDCHO/SNR-CHO-Multi-TDCHO.cc:2497-2560 | Expiry, the condition and its time-to-trigger, in place |
| Simulator.Simulation.CheckHandover | scratch/MultiUE-CHO-SNR-TDCHO/SNR-CHO-Multi-TDCHO.cc:2619-2666 | The per-tick decision of one UE, in place |
| Simulator.Simulation.CheckHandoverConditions | scratch/MultiUE-CHO-SNR-TDCHO/SNR-CHO-Multi-TDCHO.cc:2889-2918 | The tick, step by step, equals the specified tick |
| Simulator.Simulation.RunEvents | scratch/MultiUE-CHO-SNR-TDCHO/SNR-CHO-Multi-TDCHO.cc:2889-2918 | Any number of events of the imperative simulator is the specified run, to which every theorem applies |
| HandoverLog.PickDebugMatch | tools/analysis/analyze_pingpong.py:82-101 | Nothing exactly if no entry is in the window; without the preference the first of the nearest entries; with it the first fired entry that no later one is nearer than, and if there is none the nearest since the last fired entry |
| HandoverLog.PreferenceHolds | tools/analysis/analyze_pingpong.py:95-100 | The preference gives a fired entry if and only if some fired entry in the window has no later one in the window that is nearer |
| HandoverLog.PreferenceFails | tools/analysis/analyze_pingpong.py:95-100 | Otherwise it does not: an entry that fired is displaced by a later, nearer one that did not, but not in the other order |
| HandoverLog.GuessLooksTwice | tools/analysis/analyze_pingpong.py:145-152 | A result is first given the cells of an entry within a second of the decision, or else of the nearest within two seconds of the result, or none |
| HandoverLog.ParseHandovers | tools/analysis/analyze_pingpong.py:69-209 | The parser, line by line with its dictionaries, returns what the fold over the lines defines |
| LogByUe.InterleavingDoesNotMatter | tools/analysis/analyze_pingpong.py:124-209 | The events reported for a UE are those of the UE's own lines, however the lines of the UEs interleave |
| LogRoundTrip.LogReadsBack | scratch/MultiUE-CHO-SNR-TDCHO/SNR-CHO-Multi-TDCHO.cc:2411-2434 | Parsing the log of any run of the trend-aware, TOPSIS or distance strategy gives exactly the successful handovers, with UE, cells, time and trigger |
| LogRoundTrip.SnrLogReadsBack | scratch/MultiUE-CHO-SNR/SNR-CHO-Multi.cc:1943-1957 | The SNR log, where failures print a result too, yields one event per outcome, and reads back if and only if no handover failed |
| SnrLog.CompletionsTakeTheOldestResult | tools/analysis/analyze_pingpong.py:173-177 | What is read back instead, UE by UE: the k-th event has the time and trigger of the UE's k-th outcome, and for each success the k-th event has the cells of the k-th success |
| SnrFailure.SuccessIsReadAtTheTimeOfTheFailure | tools/analysis/analyze_pingpong.py:173-177 | A concrete run in which a handover fails and the next succeeds: the analysis reports the success at the time of the failure and without a trigger |
| LogRoundTrip.HopPrints | scratch/MultiUE-CHO-SNR-TDCHO/SNR-CHO-Multi-TDCHO.cc:2411-2434 | A handler prints exactly the lines of the handover it reports, result then completion on a success, and a printed decision delay is the time since the report |
| PingPong.CountPingPongs | tools/analysis/analyze_pingpong.py:212-242 | The program groups by UE in order of first occurrence, sorts each group stably by time and counts consecutive reversed pairs within the window; PingPongTotal says what that number is on the log of a run |
| PingPong.PingPongTotal | tools/analysis/analyze_pingpong.py:212-242 | On the log of any run that reads back, the returned number is the sum over all UEs of the straight returns along their handover paths |
| PingPong.PingPongsOfARun | tools/analysis/analyze_pingpong.py:212-242 | On such a log the count for one UE is the number of straight returns along its handover path; sorting changes nothing and no event of another UE interferes |
| SimulationFacts.Simulate | scratch/MultiUE-CHO-SNR-TDCHO/SNR-CHO-Multi-TDCHO.cc:2889-2918 | The simulator object after any number of events holds the specified state: conserved counters, no cancel sent, queue and phases in lockstep, and printed lines that parse to the successful rows |
| SimulationFacts.CountPingPongsOf | tools/analysis/analyze_pingpong.py:212-242 | Simulating, parsing the printed log and counting, all in place, gives the number of straight returns along the handover paths |
| Interpolation.LookupIsInterpolation | scratch/MultiUE-CHO-SNR-TDCHO/SNR-CHO-Multi-TDCHO.cc:482-501 | For every elevation the floor-and-ceiling lookup is the interpolation, and never misses a key |
| Interpolation.ScanColumn | scratch/MultiUE-CHO-SNR-TDCHO/SNR-CHO-Multi-TDCHO.cc:1267-1285 | The scan for P(LOS) computes the same interpolation |
| Interpolation.StaysBetweenNeighbours | scratch/MultiUE-CHO-SNR-TDCHO/SNR-CHO-Multi-TDCHO.cc:482-501 | The value lies between the adjacent table entries |
| Interpolation.NoSteeperThanItsColumn | scratch/MultiUE-CHO-SNR-TDCHO/SNR-CHO-Multi-TDCHO.cc:482-501 | The function is nowhere steeper than the steepest step of its table |
| Interpolation.RisesWithElevation | scratch/MultiUE-CHO-SNR-TDCHO/SNR-CHO-Multi-TDCHO.cc:1267-1285 | A rising table gives a rising function |
| Interpolation.LineOfSightGrowsWithElevation | scratch/MultiUE-CHO-SNR-TDCHO/SNR-CHO-Multi-TDCHO.cc:1267-1285 | P(LOS) is a probability and grows with elevation, urban and rural |
| Trajectory.Segment | scratch/MultiUE-CHO-SNR-TDCHO/SNR-CHO-Multi-TDCHO.cc:946-951 | For any trajectory, sorted or not, the scan ends with time[i] < t <= time[i+1]: the interpolation never divides by zero |
| Trajectory.InterpolatePosition | scratch/MultiUE-CHO-SNR-TDCHO/SNR-CHO-Multi-TDCHO.cc:919-971 | Clamped at both ends, else the blend of the two straddling points |
| Trajectory.StaysInSegment | scratch/MultiUE-CHO-SNR-TDCHO/SNR-CHO-Multi-TDCHO.cc:954-968 | Every coordinate lies between those of the straddling points |
| Trajectory.PassesThroughItsPoints | scratch/MultiUE-CHO-SNR-TDCHO/SNR-CHO-Multi-TDCHO.cc:919-971 | On an ordered trajectory the interpolation passes through every point |
| Trajectory.MovesEvenly | scratch/MultiUE-CHO-SNR-TDCHO/SNR-CHO-Multi-TDCHO.cc:954-968 | The way covered is to the way between the two points as the time gone by is to the time between them |
| Trajectory.NormalizeLongitude | scratch/MultiUE-CHO-SNR-TDCHO/SNR-CHO-Multi-TDCHO.cc:911-916 | The result is in [-180, 180] and whole turns away from the input |
| Trajectory.ShortWayIsShortest | scratch/MultiUE-CHO-SNR-TDCHO/SNR-CHO-Multi-TDCHO.cc:1012-1023 | No way between the two meridians is shorter than the one taken |
| Trajectory.InterpolateLongitude | scratch/MultiUE-CHO-SNR-TDCHO/SNR-CHO-Multi-TDCHO.cc:1012-1027 | alpha of the way along the shorter arc, in range, across the antimeridian or not |
| Trajectory.InterpolateGeoPosition | scratch/MultiUE-CHO-SNR-TDCHO/SNR-CHO-Multi-TDCHO.cc:973-1029 | The clamps, the linear latitude and altitude and the longitude along the shorter arc |
| Benchmark.Summarise | utils/bench-scheduler.cc:328-372 | Nothing for fewer than two results; else each average is the arithmetic mean of its column and each second moment the sum of squared deviations from it |
| Benchmark.Accumulated | utils/bench-scheduler.cc:354-358 | One Welford step keeps average and second moment equal to the textbook sums |
| Benchmark.RunBench | utils/bench-scheduler.cc:133-176 | Each event schedules one more, so the population is kept until exactly the requested number of events is counted |

## Left out

- Radio physics (path loss, fading draws, Doppler, elevation from ECEF coordinates): `Env` gives distance, elevation and SNR as arbitrary functions; the SNR takes the number of samples drawn so far, which stands for the UE's own random generator.
- The square root in TOPSIS is a parameter with exactly its defining property (`IsRoot`).
- IEEE rounding and the integer-nanosecond clock of ns-3: times and decibels are reals, with the 1e-9 and 1e-6 comparisons kept.
- The packet error rate is one value per UE; the error-model objects, channels, echo applications and flow monitor never feed back into handover decisions.
- The width of the 32-bit counters.
- The legacy handover phase, which never leaves its idle value, the failure-reason text and the `lastMeasurements` map, which nothing reads.
- The distance program keeps no per-UE statistics: there the UE's own record is the model's; the global record and the per-UE `hoCount` and `hoFail` are the program's.
- `occasions` and `checks` in a UE's record are notes of what the UE saw, kept for the properties; no handler reads them.
- The CSV logs, the visualisation snapshot, link-quality prints and final tables; of standard output, only the four kinds of line the log analysis reads.
- The text level of the log: regular expressions, decimals, and names that `normalize` would merge; a record stands for a matched line.
- HandoverLog.ParseHandovers: does not model lines that match a pattern but hold an unparsable number, because a record holds numbers.
- Loading of trajectories and UE groups, command-line parsing and directory creation.
- The elevation and serving-time programs, whose engine is the same.
- `ns3` schedulers other than the ordering they all promise, earliest first and ties in order of arrival.
- Event A3 and the NTN trigger functions, which the programs define but never let decide anything.
- Timing.FailureCauses: says nothing for parameters that do not add up, because then either cause can occur, as the two equivalences before it show.
