/** The scans that choose a cell choose the best one, and the first of equals. */
module CandidateChoice {
  import opened ChoTypes
  import opened Channel
  import opened Protocol
  import Topsis
  import TopsisOptimality

  // ----- the best neighbour -----

  /** What the plain strategies maximise. */
  function Merit(cfg: Config, m: Metrics): real {
    if cfg.strategy == Distance then -m.distance else m.snr
  }

  /** Worse than everything a channel model returns. */
  function NoMerit(cfg: Config): real {
    if cfg.strategy == Distance then -OUT_OF_REACH else NEVER_CHOSEN
  }

  lemma {:induction false} NeighbourIsBest(cfg: Config, ms: seq<Measurement>, serving: Cell, k: nat) returns (at: nat)
    requires k <= |ms|
    ensures var r := BestNeighbour(cfg, ms, serving, k);
            && (r.None? ==> forall j :: 0 <= j < k && ms[j].cell != serving ==> Merit(cfg, ms[j].metrics) <= NoMerit(cfg))
            && (r.Some? ==>
                  && at < k && r.value == ms[at] && ms[at].cell != serving && Merit(cfg, ms[at].metrics) > NoMerit(cfg)
                  && (forall j :: 0 <= j < k && ms[j].cell != serving ==> Merit(cfg, ms[j].metrics) <= Merit(cfg, ms[at].metrics))
                  && (forall j :: 0 <= j < at && ms[j].cell != serving ==> Merit(cfg, ms[j].metrics) < Merit(cfg, ms[at].metrics)))
  {
    at := 0;
    if k > 0 {
      at := NeighbourIsBest(cfg, ms, serving, k - 1);
      var best := BestNeighbour(cfg, ms, serving, k - 1);
      if ms[k - 1].cell != serving && Beats(cfg, ms[k - 1], best) {
        at := k - 1;
      }
    }
  }

  // ----- the trend-aware scan -----

  predicate Considered(ue: Ue, m: Measurement) {
    m.cell != ue.meas.serving && m.metrics.snr >= 3.0
  }

  /** The penalised SNR of the `j`-th measurement, when the scan comes to it. */
  function PenalisedAt(env: Env, ue: Ue, t: real, ms: seq<Measurement>, j: nat): real
    requires j < |ms|
  {
    var trend := DistanceTrend(env, TrendScan(env, ue, t, ms, j).ue, ms[j].cell, t).1;
    ms[j].metrics.snr - if trend > 0.0 then 2.0 else 0.0
  }

  lemma ScanStep(env: Env, ue: Ue, t: real, ms: seq<Measurement>, k: nat)
    requires k < |ms|
    ensures var before, after, p := TrendScan(env, ue, t, ms, k), TrendScan(env, ue, t, ms, k + 1), PenalisedAt(env, ue, t, ms, k);
            if Considered(ue, ms[k]) && p > before.metric then after.best == Some(ms[k]) && after.metric == p
            else after.best == before.best && after.metric == before.metric
  {
    hide DistanceTrend;
  }

  lemma NothingScanned(env: Env, ue: Ue, t: real, ms: seq<Measurement>)
    ensures TrendScan(env, ue, t, ms, 0).best.None? && TrendScan(env, ue, t, ms, 0).metric == NO_SNR
  {
  }

  lemma {:induction false} ScanPicksHighest(env: Env, ue: Ue, t: real, ms: seq<Measurement>, k: nat) returns (at: nat)
    requires k <= |ms|
    ensures var scan := TrendScan(env, ue, t, ms, k);
            && scan.metric >= NO_SNR
            && (forall j :: 0 <= j < k && Considered(ue, ms[j]) ==> PenalisedAt(env, ue, t, ms, j) <= scan.metric)
            && (scan.best.None? ==> scan.metric == NO_SNR)
            && (scan.best.Some? ==>
                  && at < k && scan.best.value == ms[at] && Considered(ue, ms[at]) && scan.metric == PenalisedAt(env, ue, t, ms, at)
                  && (forall j :: 0 <= j < at && Considered(ue, ms[j]) ==> PenalisedAt(env, ue, t, ms, j) < scan.metric))
  {
    hide TrendScan, PenalisedAt;
    at := 0;
    if k == 0 {
      NothingScanned(env, ue, t, ms);
    } else {
      at := ScanPicksHighest(env, ue, t, ms, k - 1);
      ScanStep(env, ue, t, ms, k - 1);
      if Considered(ue, ms[k - 1]) && PenalisedAt(env, ue, t, ms, k - 1) > TrendScan(env, ue, t, ms, k - 1).metric {
        at := k - 1;
      }
    }
  }

  /** A neighbour the scan considers always beats having none. */
  lemma ScanMissesNobody(env: Env, ue: Ue, t: real, ms: seq<Measurement>)
    ensures TrendScan(env, ue, t, ms, |ms|).best.None? <==> forall j :: 0 <= j < |ms| ==> !Considered(ue, ms[j])
  {
    hide TrendScan, DistanceTrend;
    var at := ScanPicksHighest(env, ue, t, ms, |ms|);
  }

  // ----- the survey of any strategy -----

  function IsNeighbour(ms: seq<Measurement>, serving: Cell): nat -> bool {
    (j: nat) => j < |ms| && ms[j].cell != serving
  }

  /** The neighbours are all measurements but those of the serving cell, in their order. */
  lemma {:induction false} NeighboursAreAll(ms: seq<Measurement>, serving: Cell, k: nat) returns (at: seq<nat>)
    requires k <= |ms|
    ensures Selects(at, k, IsNeighbour(ms, serving))
    ensures var r := Neighbours(ms, serving, k); |at| == |r| && forall x :: 0 <= x < |at| ==> at[x] < k && r[x] == ms[at[x]]
  {
    hide Selects;
    var p := IsNeighbour(ms, serving);
    at := [];
    if k == 0 {
      SelectsNothing(p);
    } else {
      var before := NeighboursAreAll(ms, serving, k - 1);
      SelectsNext(before, k - 1, p);
      at := if p(k - 1) then before + [k - 1] else before;
    }
  }

  /** Whether a measurement is one to choose from. */
  predicate Candidate(cfg: Config, serving: Cell, m: Measurement) {
    m.cell != serving &&
    match cfg.strategy
    case TdCho => m.metrics.snr >= 3.0
    case Topsis => true
    case Distance => m.metrics.distance < 1000000000000000000.0
    case Snr => m.metrics.snr > -999.0
  }

  /** A survey has no best neighbour exactly if there is none to choose from. The best is one of them, and
      the best of them by the strategy's measure: the strongest, the nearest, or one that none of the
      others dominates in SNR, elevation and distance. */
  lemma SurveyPicksTheBest(env: Env, ue: Ue, t: real, ms: seq<Measurement>, s: Measurement)
    requires env.cfg.strategy == Topsis ==> Topsis.IsRoot(env.root)
    ensures var best := TakeSurvey(env, ue, t, ms, s).best;
            && (best.None? <==> forall m :: m in ms ==> !Candidate(env.cfg, ue.meas.serving, m))
            && (best.Some? ==>
                  && best.value in ms && Candidate(env.cfg, ue.meas.serving, best.value)
                  && forall m :: m in ms && Candidate(env.cfg, ue.meas.serving, m) ==>
                       match env.cfg.strategy
                       case TdCho => true
                       case Topsis => !TopsisOptimality.Dominates(m.metrics, best.value.metrics)
                       case Distance => best.value.metrics.distance <= m.metrics.distance
                       case Snr => m.metrics.snr <= best.value.metrics.snr)
  {
    hide Topsis.IsRoot, Topsis.Choice, TopsisOptimality.Dominates, TrendScan, DistanceTrend, Neighbours, BestNeighbour, PreparationMet, SnrTrend;
    match env.cfg.strategy
    case TdCho =>
      ScanMissesNobody(env, ue, t, ms);
      var at := ScanPicksHighest(env, ue, t, ms, |ms|);
    case Topsis =>
      TopsisPicks(env, ms, ue.meas.serving);
    case _ =>
      var at := NeighbourIsBest(env.cfg, ms, ue.meas.serving, |ms|);
  }

  lemma TopsisPicks(env: Env, ms: seq<Measurement>, serving: Cell)
    requires Topsis.IsRoot(env.root)
    ensures var c := Neighbours(ms, serving, |ms|);
            && (c == [] <==> forall m :: m in ms ==> m.cell == serving)
            && (c != [] ==>
                  forall m :: m in ms && m.cell != serving ==>
                    !TopsisOptimality.Dominates(m.metrics, c[Topsis.Choice(env.root, MetricsOf(c))].metrics))
  {
    hide Topsis.IsRoot, Topsis.Choice, TopsisOptimality.Dominates, Topsis.Score, Neighbours;
    hide Selects;
    var c := Neighbours(ms, serving, |ms|);
    var at := NeighboursAreAll(ms, serving, |ms|);
    if c != [] {
      SelectedIs(at, |ms|, IsNeighbour(ms, serving), 0);
    }
    forall m | m in ms && m.cell != serving
      ensures m in c && !TopsisOptimality.Dominates(m.metrics, c[Topsis.Choice(env.root, MetricsOf(c))].metrics)
    {
      var j :| 0 <= j < |ms| && ms[j] == m;
      var x := SelectedAt(at, |ms|, IsNeighbour(ms, serving), j);
      assert c[x] == m;
      TopsisOptimality.ChoiceIsParetoOptimal(env.root, MetricsOf(c), x);
    }
  }

  // ----- the first serving cell -----

  lemma {:induction false} EligibleIsBest(env: Env, cache: Cache, t: real, k: nat) returns (at: nat)
    requires k <= |env.satellites|
    ensures var r := BestEligible(env, cache, t, k);
            && (r.None? ==> forall j :: 0 <= j < k && Eligible(env, cache, env.satellites[j], t) ==>
                  Merit(env.cfg, cache[env.satellites[j]].metrics) <= NoMerit(env.cfg))
            && (r.Some? ==>
                  && at < k && r.value == env.satellites[at] && Eligible(env, cache, r.value, t)
                  && Merit(env.cfg, cache[r.value].metrics) > NoMerit(env.cfg)
                  && (forall j :: 0 <= j < k && Eligible(env, cache, env.satellites[j], t) ==>
                        Merit(env.cfg, cache[env.satellites[j]].metrics) <= Merit(env.cfg, cache[r.value].metrics))
                  && (forall j :: 0 <= j < at && Eligible(env, cache, env.satellites[j], t) ==>
                        Merit(env.cfg, cache[env.satellites[j]].metrics) < Merit(env.cfg, cache[r.value].metrics)))
  {
    at := 0;
    if k > 0 {
      at := EligibleIsBest(env, cache, t, k - 1);
      var cell := env.satellites[k - 1];
      if Eligible(env, cache, cell, t) && BestEligible(env, cache, t, k) != BestEligible(env, cache, t, k - 1) {
        at := k - 1;
      }
    }
  }

  /** A satellite an unconnected UE may be connected to. */
  predicate Acceptable(env: Env, cache: Cache, cell: Cell, t: real) {
    && cell in cache && cache[cell].metrics.elevation >= 0.0 && t <= env.lastTime(cell)
    && var m := cache[cell].metrics;
       match env.cfg.strategy
       case Distance =>
         && m.distance < 1000000000000000000.0 && 1000000000000000.0 - m.distance / 1000.0 >= env.cfg.executionOffset
         && m.distance / 1000.0 <= env.cfg.maxDistance && m.snr >= -6.0
       case Topsis => m.snr > -999.0
       case _ => m.snr > -999.0 && m.snr >= -999.0 + env.cfg.executionOffset
  }

  lemma AcceptableIs(env: Env, cache: Cache, cell: Cell, t: real)
    requires cell in env.satellites
    ensures Acceptable(env, cache, cell, t) <==>
            && Eligible(env, cache, cell, t) && Merit(env.cfg, cache[cell].metrics) > NoMerit(env.cfg)
            && ClearlyBetterThanNothing(env.cfg, cache[cell].metrics)
  {
  }

  lemma BetterIsClearer(cfg: Config, a: Metrics, b: Metrics)
    requires ClearlyBetterThanNothing(cfg, a) && Merit(cfg, a) <= Merit(cfg, b)
    ensures ClearlyBetterThanNothing(cfg, b)
  {
  }

  /** An unconnected UE stays so exactly if no satellite is acceptable; otherwise it gets the first of the
      best eligible ones, as the test after the scan turns down the best only if it turns down all. */
  lemma FirstServingIsBest(env: Env, cache: Cache, t: real) returns (at: nat)
    requires NO_CELL !in env.satellites
    ensures var c := FirstServing(env, cache, t);
            && (c == NO_CELL <==> forall j :: 0 <= j < |env.satellites| ==> !Acceptable(env, cache, env.satellites[j], t))
            && (c != NO_CELL ==>
                  && at < |env.satellites| && c == env.satellites[at] && Acceptable(env, cache, c, t)
                  && (forall j :: 0 <= j < |env.satellites| && Eligible(env, cache, env.satellites[j], t) ==>
                        Merit(env.cfg, cache[env.satellites[j]].metrics) <= Merit(env.cfg, cache[c].metrics))
                  && (forall j :: 0 <= j < at && Eligible(env, cache, env.satellites[j], t) ==>
                        Merit(env.cfg, cache[env.satellites[j]].metrics) < Merit(env.cfg, cache[c].metrics)))
  {
    hide BestEligible, Merit, ClearlyBetterThanNothing, NoMerit, Acceptable;
    forall j | 0 <= j < |env.satellites|
      ensures Acceptable(env, cache, env.satellites[j], t) <==>
              && Eligible(env, cache, env.satellites[j], t) && Merit(env.cfg, cache[env.satellites[j]].metrics) > NoMerit(env.cfg)
              && ClearlyBetterThanNothing(env.cfg, cache[env.satellites[j]].metrics)
    {
      AcceptableIs(env, cache, env.satellites[j], t);
    }
    at := EligibleIsBest(env, cache, t, |env.satellites|);
    var best := BestEligible(env, cache, t, |env.satellites|);
    if best.Some? {
      forall j | 0 <= j < |env.satellites| && Acceptable(env, cache, env.satellites[j], t)
        ensures ClearlyBetterThanNothing(env.cfg, cache[best.value].metrics)
      {
        BetterIsClearer(env.cfg, cache[env.satellites[j]].metrics, cache[best.value].metrics);
      }
    }
  }
}
