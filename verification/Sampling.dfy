/** What a UE knows of the sky: samples of the channel, fresh at every tick. */
module Sampling {
  import opened ChoTypes
  import opened Agenda
  import opened Channel
  import opened Protocol
  import opened ProtocolFacts
  import opened SystemModel
  import opened Independence
  import opened Lockstep
  import opened StepCases
  import opened Reachable
  import opened Moments
  import SnrHistory

  /** An entry is what the channel showed this UE at its time, at one of the draws so far. */
  ghost predicate IsSample(env: Env, who: nat, draws: nat, c: Cell, e: CacheEntry) {
    && c in env.satellites && env.firstTime(c) <= e.time <= env.lastTime(c)
    && e.metrics.distance == env.distance(who, c, e.time) >= 1.0
    && e.metrics.elevation == env.elevation(who, c, e.time)
    && IsDraw(env, who, draws, c, e.time, e.metrics.snr)
  }

  ghost predicate IsDraw(env: Env, who: nat, draws: nat, c: Cell, t: real, snr: real) {
    exists k: nat :: k < draws && snr == env.snr(who, c, t, k)
  }

  /** No entry and no recorded sample is later than `limit`. */
  ghost predicate AllBy(ue: Ue, limit: real) {
    && (forall c :: c in ue.cache ==> ue.cache[c].time <= limit)
    && (forall c :: c in ue.history && ue.history[c] != [] ==> Latest(ue.history[c]).time <= limit)
  }

  function Latest(log: seq<Sample>): Sample
    requires log != []
  {
    log[|log| - 1]
  }

  /** Unless trends look into the future, nothing does. */
  ghost predicate Sampled(env: Env, ue: Ue, limit: real) {
    && (forall c :: c in ue.cache ==> IsSample(env, ue.profile, ue.draws, c, ue.cache[c]))
    && (env.cfg.measurementPeriod >= 0.0 ==> AllBy(ue, limit))
  }

  lemma MoreDraws(env: Env, who: nat, draws: nat, more: nat, c: Cell, e: CacheEntry)
    requires IsSample(env, who, draws, c, e) && draws <= more
    ensures IsSample(env, who, more, c, e)
  {
    var k: nat :| k < draws && e.metrics.snr == env.snr(who, c, e.time, k);
  }

  /** What sampling one cell leaves: true entries, and the others as they were. */
  ghost predicate Grown(env: Env, a: Ue, b: Ue, cell: Cell, limit: real) {
    && b.profile == a.profile && a.draws <= b.draws && Sampled(env, b, limit)
    && forall c :: c != cell && c in a.cache ==> c in b.cache && b.cache[c] == a.cache[c]
  }

  lemma SampleKeeps(env: Env, ue: Ue, cell: Cell, t: real, limit: real)
    requires Sampled(env, ue, limit) && (env.cfg.measurementPeriod >= 0.0 ==> t <= limit)
    ensures Grown(env, ue, SampleCell(env, ue, cell, t).0, cell, limit)
  {
    hide RecordSnr, IsDraw, AllBy;
    var b := SampleCell(env, ue, cell, t).0;
    forall c | c in b.cache ensures IsSample(env, b.profile, b.draws, c, b.cache[c]) {
      if c in ue.cache && b.cache[c] == ue.cache[c] {
        MoreDraws(env, ue.profile, ue.draws, b.draws, c, ue.cache[c]);
      } else {
        NewDraw(env, ue.profile, ue.draws, cell, t);
      }
    }
    if env.cfg.measurementPeriod >= 0.0 {
      SampleIsBy(env, ue, cell, t, limit);
    }
  }

  lemma SampleIsBy(env: Env, ue: Ue, cell: Cell, t: real, limit: real)
    requires AllBy(ue, limit) && t <= limit
    ensures AllBy(SampleCell(env, ue, cell, t).0, limit)
  {
    hide SnrHistory.Record;
    var b := SampleCell(env, ue, cell, t).0;
    forall c | c in b.history && b.history[c] != [] ensures Latest(b.history[c]).time <= limit {
      if b.history != ue.history && c == cell {
        var m := b.cache[cell].metrics;
        RecordIsBy(if cell in ue.history then ue.history[cell] else [], env.cfg.trendWindow, Sample(t, m.snr), limit);
      }
    }
  }

  lemma RecordIsBy(log: seq<Sample>, w: int, s: Sample, limit: real)
    requires log != [] ==> Latest(log).time <= limit
    requires s.time <= limit
    ensures var r := SnrHistory.Record(log, w, s); r != [] ==> Latest(r).time <= limit
  {
  }

  lemma NewDraw(env: Env, who: nat, draws: nat, c: Cell, t: real)
    ensures IsDraw(env, who, draws + 1, c, t, env.snr(who, c, t, draws))
  {
  }

  // ----- a refresh -----

  /** In its trajectory and at least a metre away. */
  predicate InSky(env: Env, who: nat, c: Cell, t: real) {
    env.firstTime(c) <= t <= env.lastTime(c) && env.distance(who, c, t) >= 1.0
  }

  ghost predicate FreshAt(ue: Ue, c: Cell, t: real) {
    c in ue.cache && ue.cache[c].time == t
  }

  lemma SampleFreshens(env: Env, ue: Ue, cell: Cell, t: real)
    requires Whole(t) && cell in env.satellites && InSky(env, ue.profile, cell, t)
    ensures FreshAt(SampleCell(env, ue, cell, t).0, cell, t)
  {
    hide RecordSnr;
    FloorOfWhole(t, t.Floor);
  }

  lemma StaysFresh(env: Env, ue: Ue, cell: Cell, t: real, c: Cell)
    requires Whole(t) && FreshAt(ue, c, t)
    ensures FreshAt(SampleCell(env, ue, cell, t).0, c, t)
  {
    hide RecordSnr;
    FloorOfWhole(t, t.Floor);
  }

  lemma {:induction false} RefreshFreshens(env: Env, ue: Ue, t: real, k: nat)
    requires Sampled(env, ue, t) && Whole(t) && k <= |env.satellites|
    ensures var r := Refresh(env, ue, t, k);
            && Sampled(env, r, t) && r.profile == ue.profile && ue.draws <= r.draws
            && forall j :: 0 <= j < k && InSky(env, ue.profile, env.satellites[j], t) ==> FreshAt(r, env.satellites[j], t)
  {
    hide SampleCell, Sampled, FreshAt, Whole, InSky;
    if k > 0 {
      RefreshFreshens(env, ue, t, k - 1);
      var before, cell := Refresh(env, ue, t, k - 1), env.satellites[k - 1];
      SampleKeeps(env, before, cell, t, t);
      if InSky(env, ue.profile, cell, t) {
        SampleFreshens(env, before, cell, t);
      }
      forall j | 0 <= j < k - 1 && InSky(env, ue.profile, env.satellites[j], t)
        ensures FreshAt(SampleCell(env, before, cell, t).0, env.satellites[j], t)
      {
        StaysFresh(env, before, cell, t, env.satellites[j]);
      }
    }
  }

  // ----- the SNR history -----

  /** The strategy that keeps SNR histories, with a window, and with trends that look back. */
  predicate Records(env: Env) {
    env.cfg.strategy == TdCho && env.cfg.trendWindow > 0 && env.cfg.measurementPeriod >= 0.0
  }

  /** The last sample in the history of a cell is the one in the cache. */
  ghost predicate Recorded(ue: Ue, c: Cell, t: real) {
    && c in ue.cache && c in ue.history && ue.history[c] != []
    && var last := Latest(ue.history[c]);
       last.snr == ue.cache[c].metrics.snr && last.time <= t < last.time + 0.000000001
  }

  ghost predicate FreshAreRecorded(ue: Ue, t: real) {
    forall c :: FreshAt(ue, c, t) ==> Recorded(ue, c, t)
  }

  lemma RecordIsLast(log: seq<Sample>, w: int, s: Sample)
    requires w > 0 && (log != [] ==> Latest(log).time <= s.time)
    ensures var r := SnrHistory.Record(log, w, s);
            r != [] && Latest(r).snr == s.snr && Latest(r).time <= s.time < Latest(r).time + 0.000000001
  {
  }

  lemma SampleRecords(env: Env, ue: Ue, cell: Cell, t: real)
    requires Records(env) && AllBy(ue, t) && FreshAreRecorded(ue, t)
    ensures FreshAreRecorded(SampleCell(env, ue, cell, t).0, t)
  {
    hide SnrHistory.Record;
    var b := SampleCell(env, ue, cell, t).0;
    if b != ue {
      var log := if cell in ue.history then ue.history[cell] else [];
      RecordIsLast(log, env.cfg.trendWindow, Sample(t, b.cache[cell].metrics.snr));
      forall c | FreshAt(b, c, t) ensures Recorded(b, c, t) {
        if c != cell {
          assert FreshAt(ue, c, t);
        }
      }
    }
  }

  lemma {:induction false} RefreshRecords(env: Env, ue: Ue, t: real, k: nat)
    requires k <= |env.satellites| && (Records(env) ==> AllBy(ue, t) && FreshAreRecorded(ue, t))
    ensures Records(env) ==> AllBy(Refresh(env, ue, t, k), t) && FreshAreRecorded(Refresh(env, ue, t, k), t)
  {
    hide SampleCell, AllBy, FreshAreRecorded;
    if k > 0 && Records(env) {
      RefreshRecords(env, ue, t, k - 1);
      SampleIsBy(env, Refresh(env, ue, t, k - 1), env.satellites[k - 1], t, t);
      SampleRecords(env, Refresh(env, ue, t, k - 1), env.satellites[k - 1], t);
    }
  }

  lemma NothingFresh(env: Env, ue: Ue, t: real)
    requires Sampled(env, ue, t - TICK_PERIOD)
    ensures Records(env) ==> AllBy(ue, t) && FreshAreRecorded(ue, t)
  {
  }

  // ----- a measurement -----

  lemma TrendKeeps(env: Env, ue: Ue, cell: Cell, t: real)
    requires Sampled(env, ue, t)
    ensures var r := DistanceTrend(env, ue, cell, t).0; Sampled(env, r, t) && r.profile == ue.profile && ue.draws <= r.draws
  {
    hide SampleCell, Sampled;
    SampleKeeps(env, ue, cell, t - env.cfg.measurementPeriod, t);
  }

  lemma {:induction false} ScanKeeps(env: Env, ue: Ue, t: real, ms: seq<Measurement>, k: nat)
    requires Sampled(env, ue, t) && k <= |ms|
    ensures var r := TrendScan(env, ue, t, ms, k).ue; Sampled(env, r, t) && r.profile == ue.profile && ue.draws <= r.draws
  {
    hide DistanceTrend, Sampled;
    if k > 0 {
      ScanKeeps(env, ue, t, ms, k - 1);
      TrendKeeps(env, TrendScan(env, ue, t, ms, k - 1).ue, ms[k - 1].cell, t);
    }
  }

  lemma SurveyKeeps(env: Env, ue: Ue, t: real, ms: seq<Measurement>, s: Measurement)
    requires Sampled(env, ue, t)
    ensures var r := TakeSurvey(env, ue, t, ms, s).ue; Sampled(env, r, t) && r.profile == ue.profile
  {
    hide TrendScan, DistanceTrend, SnrTrend, Sampled, Neighbours, BestNeighbour;
    ScanKeeps(env, ue, t, ms, |ms|);
    var scan := TrendScan(env, ue, t, ms, |ms|);
    if scan.best.Some? {
      TrendKeeps(env, scan.ue, ue.meas.serving, t);
      TrendKeeps(env, DistanceTrend(env, scan.ue, ue.meas.serving, t).0, scan.best.value.cell, t);
    }
  }

  lemma SameSamples(env: Env, a: Ue, b: Ue, t: real)
    requires Sampled(env, a, t) && b.cache == a.cache && b.history == a.history
    requires b.profile == a.profile && b.draws == a.draws
    ensures Sampled(env, b, t)
  {
  }

  lemma LossOnlyReads(env: Env, ue: Ue, t: real)
    ensures var r := LoseLink(env, ue, t).ue; r.cache == ue.cache && r.history == ue.history && r.profile == ue.profile && r.draws == ue.draws
  {
    hide Count, UplinkDelay;
  }

  lemma ServingOnlySurveys(env: Env, ue: Ue, t: real, ms: seq<Measurement>, s: Measurement)
    ensures var v, r := TakeSurvey(env, ue, t, ms, s).ue, MeasureServing(env, ue, t, ms, s).ue;
            r.cache == v.cache && r.history == v.history && r.profile == v.profile && r.draws == v.draws
  {
    hide TakeSurvey, Count, UplinkDelay, Decide, ContextAfter;
  }

  lemma MeasureKeeps(env: Env, ue: Ue, t: real)
    requires Sampled(env, ue, t)
    ensures Sampled(env, Measure(env, ue, t).ue, t) && Measure(env, ue, t).ue.profile == ue.profile
  {
    hide TakeSurvey, Detected, FindCell, MeasureServing, LoseLink, Sampled;
    var ms, r := Detected(env, ue.cache, t, |env.satellites|), Measure(env, ue, t).ue;
    if ue.meas.serving == NO_CELL {
      SameSamples(env, ue, r, t);
    } else {
      match FindCell(ms, ue.meas.serving) {
        case None =>
          LossOnlyReads(env, ue, t);
          SameSamples(env, ue, r, t);
        case Some(s) =>
          SurveyKeeps(env, ue, t, ms, s);
          ServingOnlySurveys(env, ue, t, ms, s);
          SameSamples(env, TakeSurvey(env, ue, t, ms, s).ue, r, t);
      }
    }
  }

  lemma CheckKeeps(env: Env, ue: Ue, t: real)
    requires Sampled(env, ue, t)
    ensures var r := Protocol.CheckHandover(env, ue, t).ue; Sampled(env, r, t) && r.profile == ue.profile
  {
    hide Measure, CheckExecution, Sampled;
    var a := ue.(meas := Resync(ue, t).(lastTime := t));
    SameSamples(env, ue, a, t);
    SameSamples(env, ue, ue.(meas := Resync(ue, t)), t);
    MeasureKeeps(env, a, t);
    EvaluationOnlyReads(env, ue, t);
    SameSamples(env, ue, CheckExecution(env, ue, t).ue, t);
  }

  lemma EvaluationOnlyReads(env: Env, ue: Ue, t: real)
    ensures var r := CheckExecution(env, ue, t).ue; r.cache == ue.cache && r.history == ue.history && r.profile == ue.profile && r.draws == ue.draws
  {
    hide CheckExecution;
    EvaluationFrame(env, ue, t);
  }

  lemma HopOnlyReads(env: Env, ue: Ue, t: real, hop: Hop, source: Cell, target: Cell)
    ensures var r := HandleHop(env, ue, t, hop, source, target).ue;
            r.cache == ue.cache && r.history == ue.history && r.profile == ue.profile && r.draws == ue.draws
  {
    hide Count, LinkViable, AppliedRate;
  }

  // ----- whole runs -----

  ghost predicate SkyOk(env: Env, who: nat, l: Local) {
    |Ticks(l)| == 1 && Sampled(env, l.ue, Ticks(l)[0].time - TICK_PERIOD) && l.ue.profile == who && Whole(Ticks(l)[0].time)
  }

  lemma LaterSamples(env: Env, ue: Ue, limit: real, t: real)
    requires Sampled(env, ue, limit) && limit <= t
    ensures Sampled(env, ue, t)
  {
  }

  lemma PreparedSamples(env: Env, ue: Ue, t: real)
    requires Sampled(env, ue, t - TICK_PERIOD) && Whole(t)
    ensures var p := PreparedUe(env, ue, t);
            && Sampled(env, p, t) && p.profile == ue.profile
            && forall c :: c in env.satellites && InSky(env, ue.profile, c, t) ==> FreshAt(p, c, t) && (Records(env) ==> Recorded(p, c, t))
  {
    hide Refresh, Sampled, FirstServing, AppliedRate, InSky, Whole, Recorded;
    LaterSamples(env, ue, t - TICK_PERIOD, t);
    RefreshFreshens(env, ue, t, |env.satellites|);
    var r, p := Refresh(env, ue, t, |env.satellites|), PreparedUe(env, ue, t);
    SameSamples(env, r, p, t);
    NothingFresh(env, ue, t);
    RefreshRecords(env, ue, t, |env.satellites|);
    forall c | c in env.satellites && InSky(env, ue.profile, c, t)
      ensures FreshAt(p, c, t) && (Records(env) ==> Recorded(p, c, t))
    {
      var j :| 0 <= j < |env.satellites| && env.satellites[j] == c;
      assert FreshAt(r, c, t);
      SameRecord(r, p, c, t);
    }
  }

  lemma SameRecord(a: Ue, b: Ue, c: Cell, t: real)
    requires b.cache == a.cache && b.history == a.history
    ensures Recorded(a, c, t) ==> Recorded(b, c, t)
  {
  }

  lemma StepKeepsSky(env: Env, who: nat, l: Local)
    requires ValidEnv(env) && Coherent(env, l) && SkyOk(env, who, l)
    ensures SkyOk(env, who, StepOwn(env, l))
  {
    hide StepOwn, UeOk, Protocol.CheckHandover, HandleHop, PreparedUe, Sift, Sampled, Whole, InSky;
    if l.queue == [] {
      EmptyStep(env, l);
    } else {
      StepCase(env, l);
      var t := l.queue[0].time;
      match l.queue[0].act {
        case OwnTick =>
          PreparedSamples(env, l.ue, t);
          CheckKeeps(env, PreparedUe(env, l.ue, t), t);
          NextWhole(t);
        case OwnJob(HopJob(hop, _, _)) =>
          HopOnlyReads(env, l.ue, t, hop, l.ue.proc.source, l.ue.proc.target);
          SameSamples(env, l.ue, StepOwn(env, l).ue, Ticks(l)[0].time - TICK_PERIOD);
        case OwnJob(PredictJob(_)) =>
      }
    }
  }

  lemma StartKeepsSky(env: Env, ue: Ue)
    requires Initial(ue)
    ensures SkyOk(env, ue.profile, StartOwn(ue))
  {
  }

  lemma {:induction false} RunKeepsSky(env: Env, ue: Ue, m: nat)
    requires ValidEnv(env) && Initial(ue)
    ensures SkyOk(env, ue.profile, RunOwn(env, StartOwn(ue), m))
  {
    hide Coherent, StepOwn, SkyOk;
    StartKeepsSky(env, ue);
    if m > 0 {
      RunKeepsSky(env, ue, m - 1);
      RunCoherent(env, ue, m - 1);
      StepKeepsSky(env, ue.profile, RunOwn(env, StartOwn(ue), m - 1));
    }
  }

  /** In every reachable state each cached entry is a sample of the channel at its own time. */
  lemma CachesHoldSamples(env: Env, ues: seq<Ue>, run: nat -> Sys, n: nat, i: nat)
    requires Starting(env, ues) && IsRun(env, ues, run) && i < |ues|
    ensures |run(n).ues| == |ues|
    ensures var ue := run(n).ues[i];
            ue.profile == ues[i].profile && forall c :: c in ue.cache ==> IsSample(env, ue.profile, ue.draws, c, ue.cache[c])
  {
    hide RunOwn, IsSample, Sift;
    var m, l := OwnMoment(env, ues, run, i, n);
    RunKeepsSky(env, ues[i], m);
  }

  /** At every tick each UE acts on samples of that very second of every satellite it can see at all, and
      the trend-aware strategy has put their SNRs at the end of its histories. */
  lemma TicksSampleTheSky(env: Env, ues: seq<Ue>, run: nat -> Sys, n: nat, i: nat, c: Cell)
    requires Starting(env, ues) && IsRun(env, ues, run) && i < |ues| && TickNext(run(n)) && |run(n).ues| == |ues|
    requires c in env.satellites && InSky(env, ues[i].profile, c, run(n).queue[0].time)
    ensures var a, t := AtTick(env, run(n), i), run(n).queue[0].time;
            && c in a.cache && a.cache[c].time == t && IsSample(env, ues[i].profile, a.draws, c, a.cache[c])
            && (Records(env) ==> Recorded(a, c, t))
  {
    hide Step, StepOwn, RunOwn, Initial, Sift, Sampled, PreparedUe, InSky, IsSample, Recorded;
    var m, l := OwnStep(env, ues, run, n, i);
    RunKeepsSky(env, ues[i], m);
    RunCoherent(env, ues[i], m);
    HeadTick(l);
    PreparedSamples(env, l.ue, run(n).queue[0].time);
    EntryIsSample(env, AtTick(env, run(n), i), run(n).queue[0].time, c);
  }

  lemma EntryIsSample(env: Env, ue: Ue, limit: real, c: Cell)
    requires Sampled(env, ue, limit) && c in ue.cache
    ensures IsSample(env, ue.profile, ue.draws, c, ue.cache[c])
  {
  }
}
