/** What the distance trends a run records are, although asking for one back-dates the cache it is read
    from. */
module DistanceTrends {
  import opened ChoTypes
  import opened Agenda
  import opened Channel
  import opened Protocol
  import opened ProtocolFacts
  import opened SystemModel
  import opened Independence
  import opened Lockstep
  import opened StepCases
  import opened Reachable

  /** Whether the trend can look a whole measurement period back. */
  predicate LooksBack(env: Env, cell: Cell, t: real) {
    env.cfg.measurementPeriod <= t && env.firstTime(cell) <= t - env.cfg.measurementPeriod
  }

  /** The trend the simulator arrives at. Where it cannot look back it is not the change of distance: 0
      before the first period is over, and against a satellite out of sight for one that has just risen. */
  function CodedTrend(env: Env, who: nat, cell: Cell, t: real): real {
    var p := env.cfg.measurementPeriod;
    if t < p then 0.0
    else env.distance(who, cell, t) - if t - p < env.firstTime(cell) then UNSEEN.distance else env.distance(who, cell, t - p)
  }

  /** Satellites are listed once and stay at least a metre away, and a period is longer than the
      tolerance with which whole seconds are recognised. */
  ghost predicate Regular(env: Env) {
    && (forall j, k :: 0 <= j < k < |env.satellites| ==> env.satellites[j] != env.satellites[k])
    && (forall who, cell, t :: env.distance(who, cell, t) >= 1.0)
    && env.cfg.measurementPeriod > 0.000001
  }

  // ----- the cache -----

  /** Every entry holds the distance at its own time, which lies in the trajectory and not ahead. */
  ghost predicate Truthful(env: Env, ue: Ue, now: real) {
    forall c :: c in ue.cache ==> TrueEntry(env, ue.profile, c, ue.cache[c]) && ue.cache[c].time <= now
  }

  ghost predicate TrueEntry(env: Env, who: nat, c: Cell, e: CacheEntry) {
    c in env.satellites && env.firstTime(c) <= e.time <= env.lastTime(c) && e.metrics.distance == env.distance(who, c, e.time)
  }

  lemma SampleTruthful(env: Env, ue: Ue, cell: Cell, t: real, now: real)
    requires Truthful(env, ue, now) && t <= now
    ensures Truthful(env, SampleCell(env, ue, cell, t).0, now) && SampleCell(env, ue, cell, t).0.profile == ue.profile
    ensures var after := SampleCell(env, ue, cell, t).0.cache;
            && (forall c :: c != cell && c in ue.cache ==> c in after && after[c] == ue.cache[c])
            && (forall c :: c != cell && c !in ue.cache ==> c !in after)
  {
    hide RecordSnr;
  }

  /** Sampled now: the entry is of this moment, unless the trajectory is over. */
  ghost predicate Fresh(env: Env, ue: Ue, c: Cell, t: real) {
    c in ue.cache && t <= env.lastTime(c) ==> ue.cache[c].time == t
  }

  lemma SampleFresh(env: Env, ue: Ue, cell: Cell, t: real)
    requires Regular(env) && Truthful(env, ue, t) && Whole(t)
    ensures Fresh(env, SampleCell(env, ue, cell, t).0, cell, t)
  {
    hide RecordSnr;
    FloorOfWhole(t, t.Floor);
    assert env.distance(ue.profile, cell, t) >= 1.0;
  }

  lemma {:induction false} RefreshFresh(env: Env, ue: Ue, t: real, k: nat)
    requires Regular(env) && Truthful(env, ue, t) && Whole(t) && k <= |env.satellites|
    ensures var r := Refresh(env, ue, t, k);
            && Truthful(env, r, t) && r.profile == ue.profile
            && (forall j :: 0 <= j < k ==> Fresh(env, r, env.satellites[j], t))
  {
    hide SampleCell, Truthful, Whole;
    if k > 0 {
      RefreshFresh(env, ue, t, k - 1);
      var before := Refresh(env, ue, t, k - 1);
      SampleTruthful(env, before, env.satellites[k - 1], t, t);
      SampleFresh(env, before, env.satellites[k - 1], t);
    }
  }

  // ----- one trend -----

  /** An entry of this moment for a cell inside its trajectory. */
  ghost predicate Current(env: Env, ue: Ue, c: Cell, t: real) {
    c in ue.cache && ue.cache[c].time == t && TrueEntry(env, ue.profile, c, ue.cache[c])
  }

  lemma TrendIsCoded(env: Env, ue: Ue, cell: Cell, t: real)
    requires Regular(env) && Truthful(env, ue, t) && Current(env, ue, cell, t)
    ensures var (after, trend) := DistanceTrend(env, ue, cell, t);
            && trend == CodedTrend(env, ue.profile, cell, t)
            && Truthful(env, after, t) && after.profile == ue.profile && after.meas == ue.meas
            && (forall c :: c != cell && c in ue.cache ==> c in after.cache && after.cache[c] == ue.cache[c])
  {
    hide RecordSnr;
    var p := env.cfg.measurementPeriod;
    if t >= p {
      SampleTruthful(env, ue, cell, t - p, t);
      EarlierFloor(t, p);
      assert env.distance(ue.profile, cell, t - p) >= 1.0;
    }
  }

  lemma EarlierFloor(t: real, p: real)
    requires p > 0.000001
    ensures t != (t - p + 0.000001).Floor as real
  {
  }

  /** A trend whose entry is anything truthful leaves the cache truthful. */
  lemma TrendTruthful(env: Env, ue: Ue, cell: Cell, t: real)
    requires Regular(env) && Truthful(env, ue, t)
    ensures Truthful(env, DistanceTrend(env, ue, cell, t).0, t) && DistanceTrend(env, ue, cell, t).0.profile == ue.profile
  {
    hide SampleCell, Truthful;
    SampleTruthful(env, ue, cell, t - env.cfg.measurementPeriod, t);
  }

  // ----- a survey -----

  ghost predicate DistinctCells(ms: seq<Measurement>) {
    forall j, k :: 0 <= j < k < |ms| ==> ms[j].cell != ms[k].cell
  }

  ghost predicate CodedValidation(env: Env, who: nat, v: Validation) {
    v.distanceTrend == CodedTrend(env, who, v.cell, v.recordTime)
  }

  ghost predicate CodedFollowup(env: Env, who: nat, f: Followup) {
    f.distanceTrend == CodedTrend(env, who, f.serving, f.recordTime)
  }

  /** While the scan is at the `k`-th neighbour, the entries of the cells to come are untouched. */
  lemma {:induction false} ScanRecordsCoded(env: Env, ue: Ue, t: real, ms: seq<Measurement>, k: nat)
    requires Regular(env) && Truthful(env, ue, t) && k <= |ms| && DistinctCells(ms)
    requires forall j :: 0 <= j < |ms| ==> Current(env, ue, ms[j].cell, t)
    ensures var scan := TrendScan(env, ue, t, ms, k);
            && Truthful(env, scan.ue, t) && scan.ue.profile == ue.profile && scan.ue.meas == ue.meas
            && (forall j :: k <= j < |ms| ==> Current(env, scan.ue, ms[j].cell, t))
            && (ue.meas.serving in ue.cache && Current(env, ue, ue.meas.serving, t) ==> Current(env, scan.ue, ue.meas.serving, t))
            && (forall v :: v in scan.validations ==> CodedValidation(env, ue.profile, v))
  {
    hide DistanceTrend, Truthful, Regular, CodedTrend, TrueEntry;
    if k > 0 {
      ScanRecordsCoded(env, ue, t, ms, k - 1);
      TrendIsCoded(env, TrendScan(env, ue, t, ms, k - 1).ue, ms[k - 1].cell, t);
    }
  }

  lemma SurveyRecordsCoded(env: Env, ue: Ue, t: real, ms: seq<Measurement>, s: Measurement)
    requires Regular(env) && Truthful(env, ue, t) && DistinctCells(ms) && s.cell == ue.meas.serving
    requires (forall j :: 0 <= j < |ms| ==> Current(env, ue, ms[j].cell, t)) && Current(env, ue, s.cell, t)
    ensures var v := TakeSurvey(env, ue, t, ms, s);
            && Truthful(env, v.ue, t) && v.ue.profile == ue.profile
            && (forall r :: r in v.validations ==> CodedValidation(env, ue.profile, r))
            && (forall r :: r in v.followups ==> CodedFollowup(env, ue.profile, r))
  {
    hide TrendScan, DistanceTrend, SnrTrend, Truthful, Regular, CodedTrend, TrueEntry, PlainSurvey;
    if env.cfg.strategy == TdCho {
      ScanRecordsCoded(env, ue, t, ms, |ms|);
      var scan := TrendScan(env, ue, t, ms, |ms|);
      if scan.best.Some? {
        TrendIsCoded(env, scan.ue, ue.meas.serving, t);
        TrendTruthful(env, DistanceTrend(env, scan.ue, ue.meas.serving, t).0, scan.best.value.cell, t);
      }
    } else {
      PlainRecords(env, ue, ms, s);
    }
  }

  lemma PlainRecords(env: Env, ue: Ue, ms: seq<Measurement>, s: Measurement)
    ensures var v := PlainSurvey(env, ue, ms, s); v.ue == ue && v.validations == [] && v.followups == []
  {
  }

  lemma {:induction false} DetectedDistinct(env: Env, cache: Cache, t: real, k: nat)
    requires Regular(env) && k <= |env.satellites|
    ensures DistinctCells(Detected(env, cache, t, k))
    ensures forall m :: m in Detected(env, cache, t, k) ==> exists j :: 0 <= j < k && m.cell == env.satellites[j]
  {
    if k > 0 {
      DetectedDistinct(env, cache, t, k - 1);
    }
  }

  /** Everything measured right after a refresh is current. */
  lemma MeasuredIsCurrent(env: Env, ue: Ue, t: real, m: Measurement)
    requires Truthful(env, ue, t) && forall j :: 0 <= j < |env.satellites| ==> Fresh(env, ue, env.satellites[j], t)
    requires m in Detected(env, ue.cache, t, |env.satellites|)
    ensures Current(env, ue, m.cell, t)
  {
    DetectedFrame(env, ue.cache, t, |env.satellites|, m);
    var j :| 0 <= j < |env.satellites| && env.satellites[j] == m.cell;
    assert Fresh(env, ue, env.satellites[j], t);
  }

  // ----- every handler keeps it -----

  ghost predicate RecordsCoded(env: Env, who: nat, o: Outcome, t: real) {
    && Truthful(env, o.ue, t) && o.ue.profile == who
    && (forall r :: r in o.validations ==> CodedValidation(env, who, r))
    && (forall r :: r in o.followups ==> CodedFollowup(env, who, r))
  }

  lemma ServingRecordsCoded(env: Env, ue: Ue, t: real, ms: seq<Measurement>, s: Measurement)
    requires Regular(env) && Truthful(env, ue, t) && s.cell == ue.meas.serving && s in ms
    requires forall j :: 0 <= j < |env.satellites| ==> Fresh(env, ue, env.satellites[j], t)
    requires ms == Detected(env, ue.cache, t, |env.satellites|)
    ensures RecordsCoded(env, ue.profile, MeasureServing(env, ue, t, ms, s), t)
  {
    hide Detected, TakeSurvey, Decide, ContextAfter, Count, UplinkDelay, Regular, Fresh, Current, CodedValidation, CodedFollowup, TrueEntry;
    DetectedDistinct(env, ue.cache, t, |env.satellites|);
    forall j | 0 <= j < |ms| ensures Current(env, ue, ms[j].cell, t) {
      MeasuredIsCurrent(env, ue, t, ms[j]);
    }
    SurveyRecordsCoded(env, ue, t, ms, s);
  }

  /** A handler that samples nothing and records nothing. */
  lemma QuietRecordsCoded(env: Env, ue: Ue, o: Outcome, t: real)
    requires Truthful(env, ue, t) && o.ue.cache == ue.cache && o.ue.profile == ue.profile
    requires o.validations == [] && o.followups == []
    ensures RecordsCoded(env, ue.profile, o, t)
  {
  }

  lemma EvaluationRecordsCoded(env: Env, ue: Ue, t: real)
    requires Truthful(env, ue, t)
    ensures RecordsCoded(env, ue.profile, CheckExecution(env, ue, t), t)
  {
    hide CheckExecution, RecordsCoded, Truthful;
    EvaluationFrame(env, ue, t);
    QuietRecordsCoded(env, ue, CheckExecution(env, ue, t), t);
  }

  lemma MeasureRecordsCoded(env: Env, ue: Ue, t: real)
    requires Regular(env) && Truthful(env, ue, t)
    requires forall j :: 0 <= j < |env.satellites| ==> Fresh(env, ue, env.satellites[j], t)
    ensures RecordsCoded(env, ue.profile, Measure(env, ue, t), t)
  {
    hide MeasureServing, Detected, FindCell, Count, UplinkDelay, Regular, Fresh, RecordsCoded, Truthful;
    var ms := Detected(env, ue.cache, t, |env.satellites|);
    match FindCell(ms, ue.meas.serving) {
      case Some(s) => ServingRecordsCoded(env, ue, t, ms, s);
      case None => QuietRecordsCoded(env, ue, LoseLink(env, ue, t), t);
    }
    QuietRecordsCoded(env, ue, Only(ue.(context := ClearContext(env.cfg, ue))), t);
  }

  lemma TickRecordsCoded(env: Env, ue: Ue, t: real)
    requires Regular(env) && Truthful(env, ue, t)
    requires forall j :: 0 <= j < |env.satellites| ==> Fresh(env, ue, env.satellites[j], t)
    ensures RecordsCoded(env, ue.profile, Protocol.CheckHandover(env, ue, t), t)
  {
    hide Measure, CheckExecution, Regular, Fresh, RecordsCoded, Truthful;
    var a := ue.(meas := Resync(ue, t).(lastTime := t));
    SameTruth(env, ue, a, t);
    MeasureRecordsCoded(env, a, t);
    EvaluationRecordsCoded(env, ue, t);
    QuietRecordsCoded(env, ue, Only(ue), t);
    QuietRecordsCoded(env, ue, Only(ue.(meas := Resync(ue, t))), t);
  }

  lemma SameTruth(env: Env, a: Ue, b: Ue, t: real)
    requires a.cache == b.cache && a.profile == b.profile && Truthful(env, a, t)
    requires forall j :: 0 <= j < |env.satellites| ==> Fresh(env, a, env.satellites[j], t)
    ensures Truthful(env, b, t)
    ensures forall j :: 0 <= j < |env.satellites| ==> Fresh(env, b, env.satellites[j], t)
  {
    hide Fresh, TrueEntry;
    forall j | 0 <= j < |env.satellites| ensures Fresh(env, b, env.satellites[j], t) {
      SameFreshness(env, a, b, env.satellites[j], t);
    }
  }

  lemma SameFreshness(env: Env, a: Ue, b: Ue, c: Cell, t: real)
    requires a.cache == b.cache && Fresh(env, a, c, t)
    ensures Fresh(env, b, c, t)
  {
  }

  lemma HopRecordsCoded(env: Env, ue: Ue, t: real, hop: Hop, source: Cell, target: Cell)
    requires Truthful(env, ue, t)
    ensures RecordsCoded(env, ue.profile, HandleHop(env, ue, t, hop, source, target), t)
  {
    hide Count, AppliedRate, LinkViable, TrueEntry;
  }

  /** The whole of one UE's run: its cache, the whole seconds of its ticks, its pending records. */
  ghost predicate AllCoded(env: Env, who: nat, l: Local) {
    && Truthful(env, l.ue, l.now) && l.ue.profile == who
    && |Ticks(l)| == 1 && Whole(Ticks(l)[0].time)
    && (forall r :: r in l.validations ==> CodedValidation(env, who, r))
    && (forall r :: r in l.followups ==> CodedFollowup(env, who, r))
  }

  lemma {:induction false} KeepIsPart<T>(s: seq<T>, p: T -> bool)
    ensures forall x :: x in Keep(s, p) ==> x in s
  {
    if s != [] {
      KeepIsPart(s[1..], p);
    }
  }

  lemma LaterTruthful(env: Env, ue: Ue, now: real, t: real)
    requires Truthful(env, ue, now) && now <= t
    ensures Truthful(env, ue, t)
  {
  }

  lemma PreparedTruthful(env: Env, ue: Ue, t: real)
    requires Regular(env) && Truthful(env, ue, t) && Whole(t)
    ensures var p := PreparedUe(env, ue, t);
            && Truthful(env, p, t) && p.profile == ue.profile
            && forall j :: 0 <= j < |env.satellites| ==> Fresh(env, p, env.satellites[j], t)
  {
    hide Refresh, FirstServing, AppliedRate, TrueEntry, Whole, Regular;
    RefreshFresh(env, ue, t, |env.satellites|);
    var r, p := Refresh(env, ue, t, |env.satellites|), PreparedUe(env, ue, t);
    assert p.cache == r.cache && p.profile == r.profile;
  }

  /** The pending records after a step: those that are left and the new ones. */
  lemma StepRecords(env: Env, l: Local)
    requires l.queue != []
    ensures var l', o := StepOwn(env, l), if l.queue[0].act.OwnJob? && l.queue[0].act.job.HopJob?
                                          then HandleHop(env, l.ue, l.queue[0].time, l.queue[0].act.job.hop, l.queue[0].act.job.source, l.queue[0].act.job.target)
                                          else Handled(env, l);
            && (forall r :: r in l'.validations ==> r in l.validations || r in o.validations)
            && (forall r :: r in l'.followups ==> r in l.followups || r in o.followups)
  {
    hide Keep, HandleHop, Protocol.CheckHandover, PreparedUe, ScheduleOwn;
    var t := l.queue[0].time;
    KeepIsPart(l.validations, ValidationPending(t));
    KeepIsPart(l.followups, FollowupPending(t));
  }

  lemma StepKeepsRecords(env: Env, who: nat, l: Local)
    requires ValidEnv(env) && Regular(env) && Coherent(env, l) && AllCoded(env, who, l)
    ensures AllCoded(env, who, StepOwn(env, l))
  {
    hide StepOwn, UeOk, Protocol.CheckHandover, HandleHop, PreparedUe, Sift, Truthful, CodedValidation, CodedFollowup, Fresh, Whole, Regular;
    if l.queue == [] {
      EmptyStep(env, l);
    } else {
      StepCase(env, l);
      StepRecords(env, l);
      var t := l.queue[0].time;
      LaterTruthful(env, l.ue, l.now, t);
      match l.queue[0].act {
        case OwnTick =>
          NextWhole(t);
          PreparedTruthful(env, l.ue, t);
          TickRecordsCoded(env, PreparedUe(env, l.ue, t), t);
        case OwnJob(HopJob(hop, source, target)) =>
          HopRecordsCoded(env, l.ue, t, hop, l.ue.proc.source, l.ue.proc.target);
          HopRecordsCoded(env, l.ue, t, hop, source, target);
        case OwnJob(PredictJob(_)) =>
      }
    }
  }

  lemma StartCoded(env: Env, ue: Ue)
    requires Initial(ue)
    ensures AllCoded(env, ue.profile, StartOwn(ue))
  {
  }

  lemma {:induction false} RunKeepsRecords(env: Env, ue: Ue, m: nat)
    requires ValidEnv(env) && Regular(env) && Initial(ue)
    ensures AllCoded(env, ue.profile, RunOwn(env, StartOwn(ue), m))
  {
    hide Coherent, StepOwn, AllCoded, Regular;
    StartCoded(env, ue);
    if m > 0 {
      RunKeepsRecords(env, ue, m - 1);
      RunCoherent(env, ue, m - 1);
      StepKeepsRecords(env, ue.profile, RunOwn(env, StartOwn(ue), m - 1));
    }
  }

  /** A record made at `t` for this cell: the change of distance over one period where the trend can look
      back, and one of the two stand-ins where it cannot. */
  ghost predicate TrendRecord(env: Env, who: nat, cell: Cell, t: real, trend: real) {
    var p := env.cfg.measurementPeriod;
    && (LooksBack(env, cell, t) ==> trend == env.distance(who, cell, t) - env.distance(who, cell, t - p))
    && (t < p ==> trend == 0.0)
    && (p <= t && t - p < env.firstTime(cell) ==> trend == env.distance(who, cell, t) - 1000000000.0)
  }

  /** In every run every pending trend record, of a validation for its cell and of a follow-up for the
      serving cell, is the change of the distance over the period before it was made, provided that the
      run and the satellite's trajectory were a period old; otherwise it is 0, or the distance less the
      1e9 metres of a satellite out of sight. */
  lemma RecordedTrends(env: Env, ues: seq<Ue>, run: nat -> Sys, n: nat, i: nat)
    requires Starting(env, ues) && IsRun(env, ues, run) && i < |ues| && Regular(env)
    ensures forall v :: v in Of(run(n).validations, i) ==> TrendRecord(env, ues[i].profile, v.cell, v.recordTime, v.distanceTrend)
    ensures forall f :: f in Of(run(n).followups, i) ==> TrendRecord(env, ues[i].profile, f.serving, f.recordTime, f.distanceTrend)
  {
    hide RunOwn, Truthful, Whole, Regular;
    var m, l := OwnMoment(env, ues, run, i, n);
    RunKeepsRecords(env, ues[i], m);
  }

  // ----- asking a second time -----

  /** The entry of a cell whose trend was asked for at `t`. */
  ghost predicate Asked(env: Env, ue: Ue, c: Cell, t: real) {
    && c in ue.cache && c in env.satellites && t <= env.lastTime(c)
    && ue.cache[c].metrics.distance ==
       env.distance(ue.profile, c, if LooksBack(env, c, t) then t - env.cfg.measurementPeriod else t)
    && ue.cache[c].time == if LooksBack(env, c, t) then t - env.cfg.measurementPeriod else t
  }

  lemma FirstAsk(env: Env, ue: Ue, cell: Cell, t: real)
    requires Regular(env) && Current(env, ue, cell, t)
    ensures Asked(env, DistanceTrend(env, ue, cell, t).0, cell, t)
  {
    hide RecordSnr;
    var p := env.cfg.measurementPeriod;
    if t >= p {
      EarlierFloor(t, p);
      assert env.distance(ue.profile, cell, t - p) >= 1.0;
    }
  }

  lemma OtherAsk(env: Env, ue: Ue, cell: Cell, other: Cell, t: real)
    requires Asked(env, ue, cell, t) && other != cell
    ensures Asked(env, DistanceTrend(env, ue, other, t).0, cell, t)
  {
    hide RecordSnr;
  }

  lemma SecondAsk(env: Env, ue: Ue, cell: Cell, t: real)
    requires Regular(env) && Asked(env, ue, cell, t)
    ensures var p := env.cfg.measurementPeriod;
            DistanceTrend(env, ue, cell, t).1 ==
            if p <= t && t - p < env.firstTime(cell) then env.distance(ue.profile, cell, t) - UNSEEN.distance else 0.0
  {
    hide RecordSnr;
    var p := env.cfg.measurementPeriod;
    if t >= p {
      EarlierFloor(t, p);
      assert env.distance(ue.profile, cell, t - p) >= 1.0;
    }
  }

  /** The scan has asked for the trend of the neighbour it settles on. */
  lemma {:induction false} ScanAsks(env: Env, ue: Ue, t: real, ms: seq<Measurement>, k: nat)
    requires Regular(env) && Truthful(env, ue, t) && k <= |ms| && DistinctCells(ms)
    requires forall j :: 0 <= j < |ms| ==> Current(env, ue, ms[j].cell, t)
    ensures var scan := TrendScan(env, ue, t, ms, k);
            scan.best.Some? ==> scan.best.value in ms[..k] && Asked(env, scan.ue, scan.best.value.cell, t)
  {
    hide DistanceTrend, Truthful, Regular, CodedTrend, TrueEntry, Asked, Current;
    if k > 0 {
      ScanAsks(env, ue, t, ms, k - 1);
      ScanRecordsCoded(env, ue, t, ms, k - 1);
      var before := TrendScan(env, ue, t, ms, k - 1);
      FirstAsk(env, before.ue, ms[k - 1].cell, t);
      if before.best.Some? {
        var j :| 0 <= j < k - 1 && ms[..k - 1][j] == before.best.value;
        OtherAsk(env, before.ue, before.best.value.cell, ms[k - 1].cell, t);
      }
      assert ms[..k] == ms[..k - 1] + [ms[k - 1]];
    }
  }

  /** The neighbour's own trend that a survey computes besides the one it ranked the neighbours by, and
      logs, is 0, whatever the satellite does, unless the satellite has just risen. */
  lemma {:induction false} SecondNeighbourTrend(env: Env, ue: Ue, t: real, ms: seq<Measurement>)
    requires Regular(env) && Truthful(env, ue, t) && DistinctCells(ms)
    requires forall j :: 0 <= j < |ms| ==> Current(env, ue, ms[j].cell, t)
    ensures var p, scan := env.cfg.measurementPeriod, TrendScan(env, ue, t, ms, |ms|);
            scan.best.Some? ==>
              var (u1, _), cell := DistanceTrend(env, scan.ue, ue.meas.serving, t), scan.best.value.cell;
              DistanceTrend(env, u1, cell, t).1 ==
              if p <= t && t - p < env.firstTime(cell) then env.distance(ue.profile, cell, t) - UNSEEN.distance else 0.0
  {
    hide DistanceTrend, Truthful, Regular, CodedTrend, TrueEntry, Asked, Current, TrendScan;
    ScanAsks(env, ue, t, ms, |ms|);
    ScanRecordsCoded(env, ue, t, ms, |ms|);
    var scan := TrendScan(env, ue, t, ms, |ms|);
    if scan.best.Some? {
      var cell, u1 := scan.best.value.cell, DistanceTrend(env, scan.ue, ue.meas.serving, t).0;
      OtherAsk(env, scan.ue, cell, ue.meas.serving, t);
      SecondAsk(env, u1, cell, t);
      TrendTruthful(env, scan.ue, ue.meas.serving, t);
    }
  }
}
