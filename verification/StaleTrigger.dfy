/** A run in which a radio-link failure leaves an old trigger running: the report that follows is backed
    by a window whose middle the event never fired in. */
module StaleTrigger {
  import opened ChoTypes
  import opened Agenda
  import opened Channel
  import opened Protocol
  import opened SystemModel
  import opened Independence
  import Topsis

  const A: Cell := "a"
  const B: Cell := "b"

  /** Cell a is strong, except around one second. */
  function Strength(cell: Cell, t: real): real {
    if cell == B then 9.0 else if 0.5 < t < 1.5 then -10.0 else 10.0
  }

  const SETTINGS: Config :=
    Config(Snr, 2.0, 1.0, 0.5, 0.0, 2500.0, 2.0, 0.0, 3000.0, 0.0, 1.0, 0.0, 0.0, 0, 100.0)

  const WORLD: Env :=
    Env(SETTINGS, [A, B], (_: Cell) => 0.0, (_: Cell) => 1000.0, (_: nat, _: Cell, _: real) => 1000000.0,
        (_: nat, _: Cell, _: real) => 90.0, (_: nat, cell: Cell, t: real, _: nat) => Strength(cell, t),
        (_: Cell, _: Cell, _: real) => 0.0, (_: real) => 0.0, (x: real) => x)

  function Seen(cell: Cell, t: real): CacheEntry {
    CacheEntry(t, Metrics(90.0, 1000000.0, Strength(cell, t)))
  }

  /** The cache after a tick at `t`. */
  function CacheAt(t: real): Cache {
    map[A := Seen(A, t), B := Seen(B, t)]
  }

  predicate Older(cache: Cache, t: real) {
    cache == map[] || (cache == CacheAt(t - 1.0))
  }

  lemma TickRefreshes(ue: Ue, t: real)
    requires t == 0.0 || t == 1.0 || t == 2.0 || t == 3.0
    requires Older(ue.cache, t)
    ensures var r := Refresh(WORLD, ue, t, 2); r.cache == CacheAt(t) && r == ue.(cache := r.cache, draws := r.draws)
  {
    assert (t + 0.000001).Floor as real == t;
    hide Strength;
    var one := SampleCell(WORLD, ue, A, t).0;
    assert Refresh(WORLD, ue, t, 1) == SampleCell(WORLD, Refresh(WORLD, ue, t, 0), A, t).0 == one;
    assert Refresh(WORLD, ue, t, 2) == SampleCell(WORLD, one, B, t).0;
    assert one.cache == ue.cache[A := Seen(A, t)];
    assert SampleCell(WORLD, one, B, t).0.cache == one.cache[B := Seen(B, t)];
    assert ue.cache[A := Seen(A, t)][B := Seen(B, t)] == CacheAt(t);
  }

  lemma Connects(t: real)
    requires t == 0.0
    ensures FirstServing(WORLD, CacheAt(t), t) == A
  {
    assert BestEligible(WORLD, CacheAt(t), t, 0) == None;
    assert BestEligible(WORLD, CacheAt(t), t, 1) == Some(A);
    assert BestEligible(WORLD, CacheAt(t), t, 2) == Some(A);
  }

  lemma Measures(t: real)
    requires t == 0.0 || t == 1.0 || t == 3.0
    ensures var ms := Detected(WORLD, CacheAt(t), t, 2);
            && (t == 1.0 ==> FindCell(ms, A).None?)
            && (t != 1.0 ==> ms == [Measurement(A, Seen(A, t).metrics), Measurement(B, Seen(B, t).metrics)])
  {
    assert Detected(WORLD, CacheAt(t), t, 0) == [];
    assert Detected(WORLD, CacheAt(t), t, 1) == if t == 1.0 then [] else [Measurement(A, Seen(A, t).metrics)];
    if t == 1.0 {
      assert Detected(WORLD, CacheAt(t), t, 2) == [Measurement(B, Seen(B, t).metrics)];
      assert [Measurement(B, Seen(B, t).metrics)][1..] == [];
    }
  }

  /** At zero and three seconds the event fires with b as the best neighbour. */
  lemma Fires(ue: Ue, t: real)
    requires t == 0.0 || t == 3.0
    requires ue.meas.serving == A && ue.cache == CacheAt(t)
    ensures var ms := Detected(WORLD, ue.cache, t, 2);
            && FindCell(ms, A) == Some(Measurement(A, Seen(A, t).metrics))
            && TakeSurvey(WORLD, ue, t, ms, Measurement(A, Seen(A, t).metrics)) ==
               Survey(ue, Some(Measurement(B, Seen(B, t).metrics)), true, [], [])
  {
    Measures(t);
    var ms := Detected(WORLD, ue.cache, t, 2);
    assert BestNeighbour(SETTINGS, ms, A, 0) == None;
    assert BestNeighbour(SETTINGS, ms, A, 1) == None;
    assert BestNeighbour(SETTINGS, ms, A, 2) == Some(Measurement(B, Seen(B, t).metrics));
  }

  const DELAY: real := 1000000.0 / SPEED_OF_LIGHT + RRC_PROCESSING

  lemma DelayIsShort()
    ensures 0.0 < DELAY < 0.02
    ensures forall t :: UplinkDelay(CacheAt(t), A) + RRC_PROCESSING == DELAY
  {
  }

  /** Between two handlers: what matters of the UE, and its queue. */
  ghost predicate At(l: Local, serving: Cell, lastTime: real, candidate: Cell, occasions: seq<Occasion>, phase: Phase, cache: Cache) {
    && l.ue.serving == serving == l.ue.meas.serving && !l.ue.interruption
    && l.ue.meas.lastTime == lastTime && l.ue.meas.candidate == candidate
    && (candidate == B ==> l.ue.meas.triggerActive && l.ue.meas.triggerStart == 0.0)
    && l.ue.occasions == occasions && l.ue.proc.phase == phase && l.ue.cache == cache
    && (phase != Idle ==> l.ue.proc.source == A && l.ue.proc.target == NO_CELL && l.ue.proc.downlinkDelay == DELAY)
  }

  function Later(p: Prediction): Timed<OwnAct> {
    Timed(100.0, OwnJob(PredictJob(p)))
  }

  // ----- the handlers of the run -----

  lemma Prepares(ue: Ue, t: real)
    requires (t == 0.0 && ue.cache == map[] && ue.serving == NO_CELL) ||
             ((t == 1.0 || t == 2.0 || t == 3.0) && ue.cache == CacheAt(t - 1.0) && ue.serving == A && ue.meas.serving == A)
    ensures var p := PreparedUe(WORLD, ue, t);
            p == ue.(cache := CacheAt(t), draws := p.draws, serving := A, meas := ue.meas.(serving := A), errorRate := p.errorRate)
  {
    hide Refresh, FirstServing, CacheAt, Strength;
    TickRefreshes(ue, t);
    if t == 0.0 {
      Connects(t);
    }
  }

  /** The tick at zero seconds, for a UE that has just been connected. */
  lemma FiresFirst(ue: Ue)
    requires ue.proc.phase == Idle && ue.serving == A == ue.meas.serving && ue.cache == CacheAt(0.0)
    requires ue.meas.lastTime == NO_TIME && !ue.meas.triggerActive && ue.occasions == []
    ensures var o, p := Protocol.CheckHandover(WORLD, ue, 0.0), Prediction(A, B, 0.0, 100.0);
            && o.jobs == [Timed(100.0, PredictJob(p))]
            && o.ue == ue.(meas := ue.meas.(lastTime := 0.0, triggerActive := true, triggerStart := 0.0, candidate := B),
                           occasions := [Fired(0.0, B)], context := o.ue.context)
  {
    hide TakeSurvey, Detected, FindCell, CacheAt, Strength, ContextAfter;
    var a := ue.(meas := ue.meas.(lastTime := 0.0));
    Fires(a, 0.0);
    assert [] + [Fired(0.0, B)] == [Fired(0.0, B)];
  }

  /** The tick at one second: the serving cell is gone. */
  lemma Loses(ue: Ue)
    requires ue.proc.phase == Idle && ue.serving == A == ue.meas.serving && ue.cache == CacheAt(1.0) && ue.meas.lastTime == 0.0
    ensures var o := Protocol.CheckHandover(WORLD, ue, 1.0);
            && o.jobs == [Timed(1.0 + DELAY, HopJob(ReportArrived, A, NO_CELL))]
            && o.ue == ue.(meas := ue.meas.(lastTime := 1.0), occasions := ue.occasions + [RadioLinkFailure(1.0)],
                           context := o.ue.context, stats := o.ue.stats, proc := o.ue.proc)
            && o.ue.proc.phase == MeasReportUplink && o.ue.proc.source == A && o.ue.proc.target == NO_CELL
            && o.ue.proc.downlinkDelay == DELAY
  {
    hide Detected, FindCell, UplinkDelay, CacheAt, Count;
    Measures(1.0);
    DelayIsShort();
  }

  /** The tick at three seconds: the trigger of three seconds ago is due. */
  lemma Reports(ue: Ue)
    requires ue.proc.phase == Idle && ue.serving == A == ue.meas.serving && ue.cache == CacheAt(3.0) && ue.meas.lastTime == 1.0
    requires ue.meas.triggerActive && ue.meas.triggerStart == 0.0 && ue.meas.candidate == B
    ensures var r := Protocol.CheckHandover(WORLD, ue, 3.0).ue;
            && r.proc.phase == MeasReportUplink && r.proc.target == B && r.proc.startTime == 3.0
            && r.occasions == ue.occasions + [Fired(3.0, B)]
  {
    hide TakeSurvey, Detected, FindCell, CacheAt, Strength, UplinkDelay, Count;
    var a := ue.(meas := ue.meas.(lastTime := 3.0));
    Fires(a, 3.0);
  }

  // ----- the run -----

  lemma FirstTick(ue: Ue) returns (p: Prediction)
    requires Initial(ue)
    ensures var l := RunOwn(WORLD, StartOwn(ue), 1);
            At(l, A, 0.0, B, [Fired(0.0, B)], Idle, CacheAt(0.0)) && l.queue == [Timed(1.0, OwnTick), Later(p)]
  {
    hide PreparedUe, Protocol.CheckHandover, CacheAt;
    p := Prediction(A, B, 0.0, 100.0);
    Prepares(ue, 0.0);
    FiresFirst(PreparedUe(WORLD, ue, 0.0));
    var start := StartOwn(ue);
    assert RunOwn(WORLD, start, 1) == StepOwn(WORLD, RunOwn(WORLD, start, 0));
    assert start.queue[1..] == [];
    ScheduleOwnOne([], Timed(100.0, PredictJob(p)));
    assert Insert([Later(p)], Timed(1.0, OwnTick)) == [Timed(1.0, OwnTick), Later(p)];
  }

  lemma SecondTick(l: Local, p: Prediction)
    requires At(l, A, 0.0, B, [Fired(0.0, B)], Idle, CacheAt(0.0)) && l.queue == [Timed(1.0, OwnTick), Later(p)]
    ensures var r := StepOwn(WORLD, l);
            && At(r, A, 1.0, B, [Fired(0.0, B), RadioLinkFailure(1.0)], MeasReportUplink, CacheAt(1.0))
            && r.queue == [Timed(1.0 + DELAY, OwnJob(HopJob(ReportArrived, A, NO_CELL))), Timed(2.0, OwnTick), Later(p)]
  {
    hide PreparedUe, Protocol.CheckHandover, CacheAt;
    Prepares(l.ue, 1.0);
    Loses(PreparedUe(WORLD, l.ue, 1.0));
    DelayIsShort();
    var hop := HopJob(ReportArrived, A, NO_CELL);
    assert l.queue[1..] == [Later(p)];
    ScheduleOwnOne([Later(p)], Timed(1.0 + DELAY, hop));
    InsertFirst([Later(p)], Timed(1.0 + DELAY, OwnJob(hop)));
    var q := [Timed(1.0 + DELAY, OwnJob(hop)), Later(p)];
    assert q[1..] == [Later(p)];
    InsertFirst([Later(p)], Timed(2.0, OwnTick));
    assert Insert(q, Timed(2.0, OwnTick)) == [q[0]] + Insert(q[1..], Timed(2.0, OwnTick));
    assert [Fired(0.0, B)] + [RadioLinkFailure(1.0)] == [Fired(0.0, B), RadioLinkFailure(1.0)];
  }

  /** One hop of the targetless procedure. */
  lemma Hops(l: Local, p: Prediction, t: real, hop: Hop, next: Hop, phase: Phase, delay: real)
    requires At(l, A, 1.0, B, [Fired(0.0, B), RadioLinkFailure(1.0)], Expects(hop), CacheAt(1.0))
    requires l.queue == [Timed(t, OwnJob(HopJob(hop, A, NO_CELL))), Timed(2.0, OwnTick), Later(p)]
    requires (hop == ReportArrived && next == SendXnRequest && phase == GnbDecision && delay == DECISION_DELAY)
          || (hop == SendXnRequest && next == Hop.XnResponse && phase == Phase.XnRequest && delay == XN_REQUEST_PROCESSING)
          || (hop == Hop.XnResponse && next == SendRrcReconfig && phase == Phase.XnResponse && delay == XN_RESPONSE_PROCESSING)
          || (hop == SendRrcReconfig && next == UeStoresConfig && phase == RrcReconfigDownlink && delay == DELAY)
    requires t + delay < 2.0
    ensures var r := StepOwn(WORLD, l);
            && At(r, A, 1.0, B, [Fired(0.0, B), RadioLinkFailure(1.0)], phase, CacheAt(1.0))
            && r.queue == [Timed(t + delay, OwnJob(HopJob(next, A, NO_CELL))), Timed(2.0, OwnTick), Later(p)]
  {
    hide CacheAt, Count;
    var rest := [Timed(2.0, OwnTick), Later(p)];
    assert l.queue[1..] == rest;
    ScheduleOwnOne(rest, Timed(t + delay, HopJob(next, A, NO_CELL)));
    InsertFirst(rest, Timed(t + delay, OwnJob(HopJob(next, A, NO_CELL))));
  }

  lemma Stores(l: Local, p: Prediction, t: real)
    requires At(l, A, 1.0, B, [Fired(0.0, B), RadioLinkFailure(1.0)], RrcReconfigDownlink, CacheAt(1.0)) && t < 1.4
    requires l.queue == [Timed(t, OwnJob(HopJob(UeStoresConfig, A, NO_CELL))), Timed(2.0, OwnTick), Later(p)]
    ensures var r := StepOwn(WORLD, l);
            && At(r, A, 1.0, B, [Fired(0.0, B), RadioLinkFailure(1.0)], Evaluating, CacheAt(1.0))
            && r.ue.proc.configExpiry < 2.0 && r.queue == [Timed(2.0, OwnTick), Later(p)]
  {
    hide CacheAt, Count;
    assert l.queue[1..] == [Timed(2.0, OwnTick), Later(p)];
  }

  lemma ThirdTick(l: Local, p: Prediction)
    requires At(l, A, 1.0, B, [Fired(0.0, B), RadioLinkFailure(1.0)], Evaluating, CacheAt(1.0))
    requires l.ue.proc.configExpiry < 2.0 && l.queue == [Timed(2.0, OwnTick), Later(p)]
    ensures var r := StepOwn(WORLD, l);
            && At(r, A, 1.0, B, [Fired(0.0, B), RadioLinkFailure(1.0)], Idle, CacheAt(2.0))
            && r.queue == [Timed(3.0, OwnTick), Later(p)]
  {
    hide PreparedUe, CacheAt, Count;
    Prepares(l.ue, 2.0);
    assert l.queue[1..] == [Later(p)];
    InsertFirst([Later(p)], Timed(3.0, OwnTick));
  }

  lemma FourthTick(l: Local, p: Prediction)
    requires At(l, A, 1.0, B, [Fired(0.0, B), RadioLinkFailure(1.0)], Idle, CacheAt(2.0))
    requires l.queue == [Timed(3.0, OwnTick), Later(p)]
    ensures var r := StepOwn(WORLD, l).ue;
            && r.proc.phase == MeasReportUplink && r.proc.target == B && r.proc.startTime == 3.0
            && r.occasions == [Fired(0.0, B), RadioLinkFailure(1.0), Fired(3.0, B)]
  {
    hide PreparedUe, Protocol.CheckHandover, CacheAt, ScheduleOwn, Insert;
    Prepares(l.ue, 3.0);
    Reports(PreparedUe(WORLD, l.ue, 3.0));
    assert [Fired(0.0, B), RadioLinkFailure(1.0)] + [Fired(3.0, B)] == [Fired(0.0, B), RadioLinkFailure(1.0), Fired(3.0, B)];
  }

  lemma WorldIsValid()
    ensures ValidEnv(WORLD)
  {
  }

  /** A reachable report for cell b that is older than it looks: a time-to-trigger of two seconds has
      passed since the event first fired, but one second ago the serving cell was gone altogether. */
  lemma ReportOverARadioLinkFailure(ue: Ue, run: nat -> Sys)
    requires Initial(ue) && IsRun(WORLD, [ue], run)
    ensures ValidEnv(WORLD) && |run(9).ues| == 1
    ensures var r := run(9).ues[0];
            && r.proc.phase == MeasReportUplink && r.proc.target == B && r.proc.startTime == 3.0
            && r.occasions == [Fired(0.0, B), RadioLinkFailure(1.0), Fired(3.0, B)]
            && WORLD.cfg.timeToTrigger == 2.0
  {
    hide StepOwn, At, CacheAt;
    var s := StartOwn(ue);
    DelayIsShort();
    var p := FirstTick(ue);
    SecondTick(RunOwn(WORLD, s, 1), p);
    var t := 1.0 + DELAY;
    Hops(RunOwn(WORLD, s, 2), p, t, ReportArrived, SendXnRequest, GnbDecision, DECISION_DELAY);
    Hops(RunOwn(WORLD, s, 3), p, t + 0.001, SendXnRequest, Hop.XnResponse, Phase.XnRequest, XN_REQUEST_PROCESSING);
    Hops(RunOwn(WORLD, s, 4), p, t + 0.003, Hop.XnResponse, SendRrcReconfig, Phase.XnResponse, XN_RESPONSE_PROCESSING);
    Hops(RunOwn(WORLD, s, 5), p, t + 0.004, SendRrcReconfig, UeStoresConfig, RrcReconfigDownlink, DELAY);
    Stores(RunOwn(WORLD, s, 6), p, t + 0.004 + DELAY);
    ThirdTick(RunOwn(WORLD, s, 7), p);
    FourthTick(RunOwn(WORLD, s, 8), p);
    WorldIsValid();
    AloneInTheWorld(ue, run);
  }

  lemma AloneInTheWorld(ue: Ue, run: nat -> Sys)
    requires Initial(ue) && IsRun(WORLD, [ue], run)
    ensures |run(9).ues| == 1 && run(9).ues[0] == RunOwn(WORLD, StartOwn(ue), 9).ue
  {
    hide RunOwn, Initial;
    WorldIsValid();
    SoloRun(WORLD, ue, run, 9);
  }
}
