/** The per-UE channel cache: sampling, measuring, the back-dating distance trend and the choice of a
    first serving cell. */
module Channel {
  import opened ChoTypes
  import SnrHistory

  /** Metres per second, and the fallback delay for a satellite that was never sampled. */
  const SPEED_OF_LIGHT := 299792458.0
  const FALLBACK_DELAY := 0.010

  const MIN_DETECTABLE_SNR := -6.0
  const NEVER_CHOSEN := -999.0
  const OUT_OF_REACH := 1000000000000000000.0

  /** Every cached satellite exists and is at least a metre away. */
  ghost predicate CacheOk(env: Env, cache: Cache) {
    forall c :: c in cache ==> c in env.satellites && cache[c].metrics.distance >= 1.0
  }

  /** The part of a UE that sampling may change. */
  ghost predicate OnlySampled(a: Ue, b: Ue) {
    b == a.(cache := b.cache, history := b.history, draws := b.draws) && a.cache.Keys <= b.cache.Keys
  }

  function RecordSnr(cfg: Config, history: map<Cell, seq<Sample>>, cell: Cell, t: real, snr: real): map<Cell, seq<Sample>> {
    if cfg.strategy != TdCho then history
    else
      var samples := if cell in history then history[cell] else [];
      history[cell := SnrHistory.Record(samples, cfg.trendWindow, Sample(t, snr))]
  }

  /** UpdateSatelliteState: a cached entry of exactly this whole second is returned as it is; a
      satellite outside its trajectory, or closer than a metre, leaves the cache alone. */
  function SampleCell(env: Env, ue: Ue, cell: Cell, t: real): (Ue, Metrics) {
    if cell in ue.cache && ue.cache[cell].time == (t + 0.000001).Floor as real then
      (ue, ue.cache[cell].metrics)
    else if cell !in env.satellites || t < env.firstTime(cell) || t > env.lastTime(cell) then
      (ue, UNSEEN)
    else
      var d := env.distance(ue.profile, cell, t);
      if d < 1.0 then (ue, UNSEEN.(distance := d))
      else
        var m := Metrics(env.elevation(ue.profile, cell, t), d, env.snr(ue.profile, cell, t, ue.draws));
        (ue.(cache := ue.cache[cell := CacheEntry(t, m)],
             history := RecordSnr(env.cfg, ue.history, cell, t, m.snr),
             draws := ue.draws + 1),
         m)
  }

  /** Step 1 of the tick for one UE: every satellite is sampled, in the order of the satellite map. */
  function Refresh(env: Env, ue: Ue, t: real, k: nat): Ue
    requires k <= |env.satellites|
  {
    if k == 0 then ue else SampleCell(env, Refresh(env, ue, t, k - 1), env.satellites[k - 1], t).0
  }

  function UplinkDelay(cache: Cache, cell: Cell): real {
    if cell in cache then cache[cell].metrics.distance / SPEED_OF_LIGHT else FALLBACK_DELAY
  }

  predicate Visible(env: Env, cache: Cache, cell: Cell, t: real) {
    cell in cache && cache[cell].metrics.elevation >= 0.0 && !(cell in env.satellites && t > env.lastTime(cell))
  }

  /** UE_PerformMeasurements: the visible, detectable cells among the first `k` satellites. */
  function Detected(env: Env, cache: Cache, t: real, k: nat): seq<Measurement>
    requires k <= |env.satellites|
  {
    if k == 0 then []
    else
      var cell, rest := env.satellites[k - 1], Detected(env, cache, t, k - 1);
      if Visible(env, cache, cell, t) && cache[cell].metrics.snr >= MIN_DETECTABLE_SNR
      then rest + [Measurement(cell, cache[cell].metrics)]
      else rest
  }

  function FindCell(ms: seq<Measurement>, cell: Cell): (r: Option<Measurement>)
    ensures r.Some? ==> r.value in ms && r.value.cell == cell
    ensures r.None? ==> forall m :: m in ms ==> m.cell != cell
  {
    if ms == [] then None else if ms[0].cell == cell then Some(ms[0]) else FindCell(ms[1..], cell)
  }

  /** GetDistanceTrend: the cached distance minus the distance one period earlier. Sampling the
      earlier moment puts a back-dated entry into the cache. */
  function DistanceTrend(env: Env, ue: Ue, cell: Cell, t: real): (Ue, real) {
    if t < env.cfg.measurementPeriod || cell !in ue.cache then (ue, 0.0)
    else
      var (ue', earlier) := SampleCell(env, ue, cell, t - env.cfg.measurementPeriod);
      (ue', ue.cache[cell].metrics.distance - earlier.distance)
  }

  function SnrTrend(env: Env, ue: Ue, cell: Cell): real {
    if cell !in ue.history then 0.0 else SnrHistory.Trend(ue.history[cell], env.cfg.trendWindow)
  }

  // ----- the choice of a serving cell for an unconnected UE -----

  predicate Eligible(env: Env, cache: Cache, cell: Cell, t: real) {
    Visible(env, cache, cell, t) &&
    (env.cfg.strategy == Distance ==>
       && cache[cell].metrics.distance / 1000.0 <= env.cfg.maxDistance
       && cache[cell].metrics.snr >= MIN_DETECTABLE_SNR)
  }

  /** SelectBestSatellite's scan over the first `k` satellites. */
  function BestEligible(env: Env, cache: Cache, t: real, k: nat): (r: Option<Cell>)
    requires k <= |env.satellites|
    ensures r.Some? ==> r.value in cache && r.value in env.satellites
  {
    if k == 0 then None
    else
      var cell, best := env.satellites[k - 1], BestEligible(env, cache, t, k - 1);
      if !Eligible(env, cache, cell, t) then best
      else if env.cfg.strategy == Distance then
        var bound := if best.Some? then cache[best.value].metrics.distance else OUT_OF_REACH;
        if cache[cell].metrics.distance < bound then Some(cell) else best
      else
        var bound := if best.Some? then cache[best.value].metrics.snr else NEVER_CHOSEN;
        if cache[cell].metrics.snr > bound then Some(cell) else best
  }

  /** With no current satellite, the hysteresis compares against the initial sentinels. */
  predicate ClearlyBetterThanNothing(cfg: Config, m: Metrics) {
    match cfg.strategy
    case Distance => OUT_OF_REACH / 1000.0 - m.distance / 1000.0 >= cfg.executionOffset
    case Topsis => m.snr >= NEVER_CHOSEN
    case _ => m.snr >= NEVER_CHOSEN + cfg.executionOffset
  }

  function FirstServing(env: Env, cache: Cache, t: real): (r: Cell)
    ensures r != NO_CELL ==> r in cache && r in env.satellites
  {
    match BestEligible(env, cache, t, |env.satellites|)
    case None => NO_CELL
    case Some(c) => if ClearlyBetterThanNothing(env.cfg, cache[c].metrics) then c else NO_CELL
  }

  // ----- what sampling leaves alone -----

  lemma SampleFrame(env: Env, ue: Ue, cell: Cell, t: real)
    ensures OnlySampled(ue, SampleCell(env, ue, cell, t).0)
    ensures CacheOk(env, ue.cache) ==> CacheOk(env, SampleCell(env, ue, cell, t).0.cache)
  {
  }

  lemma {:induction false} RefreshFrame(env: Env, ue: Ue, t: real, k: nat)
    requires k <= |env.satellites|
    ensures OnlySampled(ue, Refresh(env, ue, t, k))
    ensures CacheOk(env, ue.cache) ==> CacheOk(env, Refresh(env, ue, t, k).cache)
  {
    if k > 0 {
      RefreshFrame(env, ue, t, k - 1);
      SampleFrame(env, Refresh(env, ue, t, k - 1), env.satellites[k - 1], t);
    }
  }

  lemma {:induction false} DetectedFrame(env: Env, cache: Cache, t: real, k: nat, m: Measurement)
    requires k <= |env.satellites| && m in Detected(env, cache, t, k)
    ensures m.cell in cache && m.cell in env.satellites && m.metrics == cache[m.cell].metrics
    ensures m.metrics.elevation >= 0.0 && m.metrics.snr >= MIN_DETECTABLE_SNR && t <= env.lastTime(m.cell)
  {
    if k > 0 && m in Detected(env, cache, t, k - 1) {
      DetectedFrame(env, cache, t, k - 1, m);
    }
  }

  // ----- everything detectable is measured -----

  /** Cached above the horizon and loud enough, of a satellite whose trajectory is not over. */
  predicate Measurable(env: Env, cache: Cache, cell: Cell, t: real) {
    cell in cache && cache[cell].metrics.elevation >= 0.0 && cache[cell].metrics.snr >= -6.0 && t <= env.lastTime(cell)
  }

  /** `at` lists the places below `k` that `p` selects, each once and in order. */
  ghost predicate Selects(at: seq<nat>, k: nat, p: nat -> bool) {
    && (forall x, y :: 0 <= x < y < |at| ==> at[x] < at[y])
    && (forall x :: 0 <= x < |at| ==> at[x] < k && p(at[x]))
    && (forall j: nat :: j < k && p(j) ==> j in at)
  }

  lemma SelectsNothing(p: nat -> bool)
    ensures Selects([], 0, p)
  {
  }

  lemma SelectsNext(at: seq<nat>, k: nat, p: nat -> bool)
    requires Selects(at, k, p)
    ensures Selects(if p(k) then at + [k] else at, k + 1, p)
  {
    if p(k) {
      forall j: nat | j < k + 1 && p(j) ensures j in at + [k] {
        assert j < k ==> j in at;
      }
    }
  }

  /** Which satellites of the list are measurable. */
  function MeasurableAt(env: Env, cache: Cache, t: real): nat -> bool {
    (j: nat) => j < |env.satellites| && Measurable(env, cache, env.satellites[j], t)
  }

  lemma DetectedNext(env: Env, cache: Cache, t: real, k: nat)
    requires k < |env.satellites|
    ensures var cell, rest := env.satellites[k], Detected(env, cache, t, k);
            if MeasurableAt(env, cache, t)(k)
            then cell in cache && Detected(env, cache, t, k + 1) == rest + [Measurement(cell, cache[cell].metrics)]
            else Detected(env, cache, t, k + 1) == rest
  {
  }

  /** The measurements are those of the measurable satellites, each once and in the order of the list. */
  lemma {:induction false} DetectedIsAll(env: Env, cache: Cache, t: real, k: nat) returns (at: seq<nat>)
    requires k <= |env.satellites|
    ensures Selects(at, k, MeasurableAt(env, cache, t))
    ensures var ms := Detected(env, cache, t, k);
            |at| == |ms| && forall x :: 0 <= x < |at| ==>
              at[x] < k && ms[x].cell == env.satellites[at[x]] && ms[x].cell in cache && ms[x].metrics == cache[ms[x].cell].metrics
  {
    hide Selects, Detected, MeasurableAt;
    var p := MeasurableAt(env, cache, t);
    at := [];
    if k == 0 {
      SelectsNothing(p);
      NothingDetected(env, cache, t);
    } else {
      var before := DetectedIsAll(env, cache, t, k - 1);
      SelectsNext(before, k - 1, p);
      DetectedNext(env, cache, t, k - 1);
      at := if p(k - 1) then before + [k - 1] else before;
    }
  }

  lemma NothingDetected(env: Env, cache: Cache, t: real)
    ensures Detected(env, cache, t, 0) == []
  {
  }

  lemma MeasurableIsListed(env: Env, cache: Cache, t: real, cell: Cell)
    requires CacheOk(env, cache) && Measurable(env, cache, cell, t)
    ensures cell in cache && cell in env.satellites
  {
  }

  /** A cell is found among the measurements, with its cached metrics, exactly if it is measurable. */
  lemma FoundIfMeasurable(env: Env, cache: Cache, t: real, cell: Cell)
    requires CacheOk(env, cache)
    ensures var found := FindCell(Detected(env, cache, t, |env.satellites|), cell);
            found == if Measurable(env, cache, cell, t) then Some(Measurement(cell, cache[cell].metrics)) else None
  {
    hide Detected, Selects, Measurable;
    var at := DetectedIsAll(env, cache, t, |env.satellites|);
    var ms := Detected(env, cache, t, |env.satellites|);
    if Measurable(env, cache, cell, t) {
      MeasurableIsListed(env, cache, t, cell);
      var j :| 0 <= j < |env.satellites| && env.satellites[j] == cell;
      var x := SelectedAt(at, |env.satellites|, MeasurableAt(env, cache, t), j);
      assert ms[x].cell == cell;
    } else if FindCell(ms, cell).Some? {
      var x :| 0 <= x < |ms| && ms[x] == FindCell(ms, cell).value;
      SelectedIs(at, |env.satellites|, MeasurableAt(env, cache, t), x);
    }
  }

  lemma SelectedAt(at: seq<nat>, k: nat, p: nat -> bool, j: nat) returns (x: nat)
    requires Selects(at, k, p) && j < k && p(j)
    ensures x < |at| && at[x] == j
  {
    assert j in at;
    x :| 0 <= x < |at| && at[x] == j;
  }

  lemma SelectedIs(at: seq<nat>, k: nat, p: nat -> bool, x: nat)
    requires Selects(at, k, p) && x < |at|
    ensures at[x] < k && p(at[x])
  {
  }

  // ----- the distance trend and the cache -----

  predicate Whole(t: real) {
    t == t.Floor as real
  }

  lemma FloorOfWhole(t: real, n: int)
    requires t == n as real
    ensures (t + 0.000001).Floor == n
  {
    var f := (t + 0.000001).Floor;
    assert f as real <= t + 0.000001 < f as real + 1.0;
  }

  /** With a fresh entry and whole seconds inside the trajectory, the first trend of a tick is the
      change of distance over one period. It back-dates the entry by that period and, as the history
      already holds a later sample, leaves the SNR history alone. */
  lemma FirstTrendIsTheChange(env: Env, ue: Ue, cell: Cell, t: real)
    requires var p := env.cfg.measurementPeriod;
             && 0.0 < p <= t && Whole(t) && Whole(p)
             && cell in env.satellites && env.firstTime(cell) <= t - p && t <= env.lastTime(cell)
             && env.distance(ue.profile, cell, t - p) >= 1.0
    requires cell in ue.cache && ue.cache[cell].time == t
    requires ue.cache[cell].metrics.distance == env.distance(ue.profile, cell, t)
    requires cell in ue.history && ue.history[cell] != [] && ue.history[cell][|ue.history[cell]| - 1].time == t
    ensures var p, (after, trend) := env.cfg.measurementPeriod, DistanceTrend(env, ue, cell, t);
            && trend == env.distance(ue.profile, cell, t) - env.distance(ue.profile, cell, t - p)
            && after.history == ue.history
            && cell in after.cache && after.cache[cell].time == t - p
            && after.cache[cell].metrics.distance == env.distance(ue.profile, cell, t - p)
  {
    var p, h := env.cfg.measurementPeriod, ue.history[cell];
    assert ue.history[cell := h] == ue.history;
  }

  /** Every further trend for that cell in the tick is 0, whatever the satellite does: the two
      distances it subtracts are the same back-dated entry. */
  lemma SecondTrendIsZero(env: Env, ue: Ue, cell: Cell, t: real)
    requires var p := env.cfg.measurementPeriod; 0.0 <= p && Whole(t) && Whole(p)
    requires cell in ue.cache && ue.cache[cell].time == t - env.cfg.measurementPeriod
    ensures DistanceTrend(env, ue, cell, t) == (ue, 0.0)
  {
    var p := env.cfg.measurementPeriod;
    assert t - p == (t.Floor - p.Floor) as real;
    FloorOfWhole(t - p, t.Floor - p.Floor);
  }

  /** A fresh sample of a tick at a whole second is fresh: sampling again changes nothing. */
  lemma SamplingTwiceIsSamplingOnce(env: Env, ue: Ue, cell: Cell, t: real)
    requires Whole(t)
    ensures var (once, m) := SampleCell(env, ue, cell, t);
            once != ue ==> SampleCell(env, once, cell, t) == (once, m)
  {
    hide RecordSnr;
    FloorOfWhole(t, t.Floor);
  }
}
