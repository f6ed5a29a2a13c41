/** A run in which a satellite that has just risen, and stands still, is recorded as approaching by almost
    a million kilometres. */
module RisingSatellite {
  import opened ChoTypes
  import opened Agenda
  import opened Channel
  import opened Protocol
  import opened SystemModel
  import opened Independence
  import DistanceTrends

  const A: Cell := "a"
  const B: Cell := "b"

  const SETTINGS: Config :=
    Config(TdCho, 2.0, 1.0, 0.5, 0.0, 2500.0, 2.0, 0.0, 3000.0, 0.0, 1.0, 3.0, 0.5, 3, 5.0)

  /** Cell b rises at one second. */
  function Rises(cell: Cell): real {
    if cell == B then 1.0 else 0.0
  }

  const WORLD: Env :=
    Env(SETTINGS, [A, B], Rises, (_: Cell) => 1000.0, (_: nat, _: Cell, _: real) => 1000000.0,
        (_: nat, _: Cell, _: real) => 90.0, (_: nat, _: Cell, _: real, _: nat) => 10.0,
        (_: Cell, _: Cell, _: real) => 0.0, (_: real) => 0.0, (x: real) => x)

  const SEEN: Metrics := Metrics(90.0, 1000000.0, 10.0)

  function CacheAt(t: real): Cache {
    if t < 1.0 then map[A := CacheEntry(t, SEEN)] else map[A := CacheEntry(t, SEEN), B := CacheEntry(t, SEEN)]
  }

  lemma TickRefreshes(ue: Ue, t: real)
    requires (t == 0.0 && ue.cache == map[]) || (t == 1.0 && ue.cache == CacheAt(0.0))
    ensures var r := Refresh(WORLD, ue, t, 2);
            r.cache == CacheAt(t) && r == ue.(cache := r.cache, history := r.history, draws := r.draws)
  {
    hide RecordSnr;
    assert (t + 0.000001).Floor as real == t;
    var one := SampleCell(WORLD, ue, A, t).0;
    assert Refresh(WORLD, ue, t, 1) == SampleCell(WORLD, Refresh(WORLD, ue, t, 0), A, t).0 == one;
    assert Refresh(WORLD, ue, t, 2) == SampleCell(WORLD, one, B, t).0;
    assert one.cache == ue.cache[A := CacheEntry(t, SEEN)];
  }

  lemma Prepares(ue: Ue, t: real)
    requires (t == 0.0 && ue.cache == map[] && ue.serving == NO_CELL)
          || (t == 1.0 && ue.cache == CacheAt(0.0) && ue.serving == A == ue.meas.serving)
    ensures var p := PreparedUe(WORLD, ue, t);
            && p == ue.(cache := CacheAt(t), history := p.history, draws := p.draws, serving := A,
                        meas := ue.meas.(serving := A), errorRate := p.errorRate)
  {
    hide Refresh;
    TickRefreshes(ue, t);
    if t == 0.0 {
      assert BestEligible(WORLD, CacheAt(t), t, 0) == None;
      assert BestEligible(WORLD, CacheAt(t), t, 1) == Some(A);
      assert BestEligible(WORLD, CacheAt(t), t, 2) == Some(A);
    }
  }

  function MeasuredAt(t: real): seq<Measurement> {
    if t < 1.0 then [Measurement(A, SEEN)] else [Measurement(A, SEEN), Measurement(B, SEEN)]
  }

  lemma Measures(t: real)
    requires t == 0.0 || t == 1.0
    ensures Detected(WORLD, CacheAt(t), t, 2) == MeasuredAt(t) && FindCell(MeasuredAt(t), A) == Some(Measurement(A, SEEN))
  {
    assert Detected(WORLD, CacheAt(t), t, 0) == [];
    assert Detected(WORLD, CacheAt(t), t, 1) == [Measurement(A, SEEN)];
  }

  const RECORD: Validation := Validation(1.0, B, 1000000.0 - 1000000000.0, 10.0, 6.0)

  /** What the survey of a tick records: nothing while a is alone, then the trend of b. */
  lemma Surveys(ue: Ue, t: real)
    requires (t == 0.0 || t == 1.0) && ue.meas.serving == A && ue.cache == CacheAt(t)
    ensures TakeSurvey(WORLD, ue, t, MeasuredAt(t), Measurement(A, SEEN)).validations == if t == 1.0 then [RECORD] else []
    ensures t == 0.0 ==> TakeSurvey(WORLD, ue, t, MeasuredAt(t), Measurement(A, SEEN)) == Survey(ue, None, false, [], [])
  {
    hide RecordSnr, SnrTrend;
    var ms := MeasuredAt(t);
    assert TrendScan(WORLD, ue, t, ms, 0) == Scan(ue, None, NO_SNR, []);
    assert TrendScan(WORLD, ue, t, ms, 1) == Scan(ue, None, NO_SNR, []);
    if t == 1.0 {
      var trend := DistanceTrend(WORLD, ue, B, t);
      assert trend == (ue, 1000000.0 - 1000000000.0);
      assert TrendScan(WORLD, ue, t, ms, 2).validations == [] + [RECORD];
    }
  }

  /** The decision of a tick, for a UE that is connected to cell a. */
  lemma Records(ue: Ue, t: real)
    requires (t == 0.0 && ue.meas.lastTime == NO_TIME) || (t == 1.0 && ue.meas.lastTime == 0.0)
    requires ue.proc.phase == Idle && ue.serving == A == ue.meas.serving && ue.cache == CacheAt(t)
    ensures var o := Protocol.CheckHandover(WORLD, ue, t);
            && o.validations == (if t == 1.0 then [RECORD] else [])
            && (t == 0.0 ==> o.jobs == [] && o.ue == ue.(meas := o.ue.meas, context := o.ue.context, occasions := o.ue.occasions)
                             && o.ue.meas.serving == A && o.ue.meas.lastTime == 0.0)
  {
    hide TakeSurvey, Detected, FindCell, CacheAt, MeasuredAt, ContextAfter, UplinkDelay, Count;
    var a := ue.(meas := ue.meas.(lastTime := t));
    Measures(t);
    Surveys(a, t);
  }

  lemma FirstTick(ue: Ue)
    requires Initial(ue)
    ensures var l := RunOwn(WORLD, StartOwn(ue), 1);
            && l.queue == [Timed(1.0, OwnTick)] && l.validations == [] && l.ue.proc.phase == Idle
            && l.ue.serving == A == l.ue.meas.serving && l.ue.cache == CacheAt(0.0) && l.ue.meas.lastTime == 0.0
  {
    hide PreparedUe, Protocol.CheckHandover, CacheAt;
    Prepares(ue, 0.0);
    Records(PreparedUe(WORLD, ue, 0.0), 0.0);
    var start := StartOwn(ue);
    assert RunOwn(WORLD, start, 1) == StepOwn(WORLD, RunOwn(WORLD, start, 0));
    assert start.queue[1..] == [];
  }

  lemma SecondTick(l: Local)
    requires l.queue == [Timed(1.0, OwnTick)] && l.validations == [] && l.ue.proc.phase == Idle
    requires l.ue.serving == A == l.ue.meas.serving && l.ue.cache == CacheAt(0.0) && l.ue.meas.lastTime == 0.0
    ensures StepOwn(WORLD, l).validations == [RECORD]
  {
    hide PreparedUe, Protocol.CheckHandover, CacheAt, ScheduleOwn, Insert;
    Prepares(l.ue, 1.0);
    Records(PreparedUe(WORLD, l.ue, 1.0), 1.0);
    assert [] + [RECORD] == [RECORD];
  }

  lemma WorldIsRegular()
    ensures ValidEnv(WORLD) && DistanceTrends.Regular(WORLD)
  {
  }

  /** The second tick of every run in this world records a trend of less than -999000 kilometres for a
      satellite that has not moved: it rose within the period before. */
  lemma RecordThatIsNoChange(ue: Ue, run: nat -> Sys)
    requires Initial(ue) && IsRun(WORLD, [ue], run)
    ensures ValidEnv(WORLD) && DistanceTrends.Regular(WORLD)
    ensures Of(run(2).validations, 0) == [RECORD] && RECORD.distanceTrend == -999000000.0
    ensures WORLD.distance(ue.profile, RECORD.cell, RECORD.recordTime) ==
            WORLD.distance(ue.profile, RECORD.cell, RECORD.recordTime - WORLD.cfg.measurementPeriod)
  {
    hide StepOwn, Initial;
    WorldIsRegular();
    FirstTick(ue);
    SecondTick(RunOwn(WORLD, StartOwn(ue), 1));
    SoloRun(WORLD, ue, run, 2);
  }
}
