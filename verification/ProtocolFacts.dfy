/** What one measurement round can change, and what it can report. */
module ProtocolFacts {
  import opened ChoTypes
  import opened Channel
  import opened Protocol

  lemma TrendFrame(env: Env, ue: Ue, cell: Cell, t: real)
    ensures OnlySampled(ue, DistanceTrend(env, ue, cell, t).0)
    ensures CacheOk(env, ue.cache) ==> CacheOk(env, DistanceTrend(env, ue, cell, t).0.cache)
  {
    SampleFrame(env, ue, cell, t - env.cfg.measurementPeriod);
  }

  lemma {:induction false} ScanFrame(env: Env, ue: Ue, t: real, ms: seq<Measurement>, k: nat)
    requires k <= |ms|
    ensures OnlySampled(ue, TrendScan(env, ue, t, ms, k).ue)
    ensures CacheOk(env, ue.cache) ==> CacheOk(env, TrendScan(env, ue, t, ms, k).ue.cache)
  {
    if k > 0 {
      ScanFrame(env, ue, t, ms, k - 1);
      TrendFrame(env, TrendScan(env, ue, t, ms, k - 1).ue, ms[k - 1].cell, t);
    }
  }

  /** A survey samples and nothing else; its best neighbour was measured and is not the serving cell. */
  lemma SurveyFrame(env: Env, ue: Ue, t: real, ms: seq<Measurement>, s: Measurement)
    ensures var v := TakeSurvey(env, ue, t, ms, s);
            && OnlySampled(ue, v.ue)
            && (CacheOk(env, ue.cache) ==> CacheOk(env, v.ue.cache))
            && (v.best.Some? ==> v.best.value in ms && v.best.value.cell != ue.meas.serving)
            && (v.fired ==> v.best.Some?)
  {
    if env.cfg.strategy == TdCho {
      ScanFrame(env, ue, t, ms, |ms|);
      var scan := TrendScan(env, ue, t, ms, |ms|);
      if scan.best.Some? {
        TrendFrame(env, scan.ue, ue.meas.serving, t);
        TrendFrame(env, DistanceTrend(env, scan.ue, ue.meas.serving, t).0, scan.best.value.cell, t);
      }
    }
  }
}
