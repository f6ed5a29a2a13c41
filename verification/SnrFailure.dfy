/** A run of the SNR strategy in which a handover fails and the next one succeeds: the analysis of its log
    reports the success at the time of the failure. */
module SnrFailure {
  import opened ChoTypes
  import opened Agenda
  import opened Channel
  import opened Protocol
  import opened SystemModel
  import opened Independence
  import Aftermath
  import HandoverLog
  import HandoverPath
  import LogByUe
  import LogRoundTrip
  import SnrLog
  import Timing

  const A: Cell := "a"
  const B: Cell := "b"

  /** Cell b is out of reach until six seconds. */
  function Away(cell: Cell, t: real): real {
    if cell == B && t < 6.0 then 3000000.0 else 1000000.0
  }

  function Strength(cell: Cell): real {
    if cell == B then 9.0 else 10.0
  }

  /** A target is viable within 2500 kilometres; the SNR parameters add up. */
  const SETTINGS: Config :=
    Config(Snr, 0.0, 0.0, 10.0, 0.0, 2500.0, 2.0, 3.0, 3000.0, -2.0, 1.0, 0.0, 0.0, 0, 100.0)

  const WORLD: Env :=
    Env(SETTINGS, [A, B], (_: Cell) => 0.0, (_: Cell) => 1000.0, (_: nat, cell: Cell, t: real) => Away(cell, t),
        (_: nat, _: Cell, _: real) => 90.0, (_: nat, cell: Cell, _: real, _: nat) => Strength(cell),
        (_: Cell, _: Cell, _: real) => 0.0, (_: real) => 0.0, (x: real) => x)

  predicate TickAt(t: real) {
    t == 0.0 || t == 1.0 || t == 2.0 || t == 3.0 || t == 4.0 || t == 5.0 || t == 6.0 || t == 7.0
  }

  function Seen(cell: Cell, t: real): CacheEntry {
    CacheEntry(t, Metrics(90.0, Away(cell, t), Strength(cell)))
  }

  /** The cache after a tick at `t`. */
  function CacheAt(t: real): Cache {
    map[A := Seen(A, t), B := Seen(B, t)]
  }

  // ----- a tick -----

  lemma Samples(ue: Ue, cell: Cell, t: real)
    requires TickAt(t) && (cell == A || cell == B) && (cell in ue.cache ==> ue.cache[cell].time != t)
    ensures SampleCell(WORLD, ue, cell, t).0 == ue.(cache := ue.cache[cell := Seen(cell, t)], draws := ue.draws + 1)
  {
    hide Away;
    assert (t + 0.000001).Floor as real == t;
    AtLeastAMetre(t);
  }

  lemma TickRefreshes(ue: Ue, t: real)
    requires TickAt(t) && (ue.cache == map[] || ue.cache == CacheAt(t - 1.0))
    ensures var r := Refresh(WORLD, ue, t, 2); r.cache == CacheAt(t) && r == ue.(cache := r.cache, draws := r.draws)
  {
    hide Away, Strength, SampleCell, TickAt;
    Samples(ue, A, t);
    var one := ue.(cache := ue.cache[A := Seen(A, t)], draws := ue.draws + 1);
    Samples(one, B, t);
    assert Refresh(WORLD, ue, t, 1) == SampleCell(WORLD, Refresh(WORLD, ue, t, 0), A, t).0 == one;
    assert Refresh(WORLD, ue, t, 2) == SampleCell(WORLD, one, B, t).0;
    assert ue.cache[A := Seen(A, t)][B := Seen(B, t)] == CacheAt(t);
  }

  lemma AtLeastAMetre(t: real)
    ensures Away(A, t) == 1000000.0 && Away(B, t) >= 1.0
  {
  }

  lemma Connects(t: real)
    requires t == 0.0
    ensures FirstServing(WORLD, CacheAt(t), t) == A
  {
    assert BestEligible(WORLD, CacheAt(t), t, 0) == None;
    assert BestEligible(WORLD, CacheAt(t), t, 1) == Some(A);
    assert BestEligible(WORLD, CacheAt(t), t, 2) == Some(A);
  }

  lemma Prepares(ue: Ue, t: real)
    requires TickAt(t)
    requires (t == 0.0 && ue.cache == map[] && ue.serving == NO_CELL)
          || (ue.cache == CacheAt(t - 1.0) && ue.serving == A == ue.meas.serving)
    ensures var p := PreparedUe(WORLD, ue, t);
            p == ue.(cache := CacheAt(t), draws := p.draws, serving := A, meas := ue.meas.(serving := A), errorRate := p.errorRate)
  {
    hide Refresh, FirstServing, CacheAt;
    TickRefreshes(ue, t);
    if ue.serving == NO_CELL {
      Connects(t);
    }
  }

  /** At every tick the event fires with b as the best neighbour. */
  lemma Fires(ue: Ue, t: real)
    requires TickAt(t) && ue.meas.serving == A && ue.cache == CacheAt(t)
    ensures var ms := Detected(WORLD, ue.cache, t, 2);
            && FindCell(ms, A) == Some(Measurement(A, Seen(A, t).metrics))
            && TakeSurvey(WORLD, ue, t, ms, Measurement(A, Seen(A, t).metrics)) ==
               Survey(ue, Some(Measurement(B, Seen(B, t).metrics)), true, [], [])
  {
    hide Away;
    assert Detected(WORLD, CacheAt(t), t, 0) == [];
    assert Detected(WORLD, CacheAt(t), t, 1) == [Measurement(A, Seen(A, t).metrics)];
    var ms := Detected(WORLD, ue.cache, t, 2);
    assert ms == [Measurement(A, Seen(A, t).metrics), Measurement(B, Seen(B, t).metrics)];
    assert BestNeighbour(SETTINGS, ms, A, 0) == None;
    assert BestNeighbour(SETTINGS, ms, A, 1) == None;
    assert BestNeighbour(SETTINGS, ms, A, 2) == Some(Measurement(B, Seen(B, t).metrics));
  }

  const DELAY: real := 1000000.0 / SPEED_OF_LIGHT + RRC_PROCESSING

  lemma DelayIsShort(t: real)
    ensures 0.0 < DELAY < 0.02 && UplinkDelay(CacheAt(t), A) + RRC_PROCESSING == DELAY
  {
  }

  function Switch(t: real): real {
    ExecutionTime(CacheAt(t), A, B)
  }

  lemma SwitchIsShort(t: real)
    ensures 0.0 < Switch(t) < 0.1
  {
  }

  /** The first tick of an attempt starts the trigger. */
  lemma FiresFirst(ue: Ue, t: real)
    requires TickAt(t) && ue.proc.phase == Idle && ue.serving == A == ue.meas.serving && ue.cache == CacheAt(t)
    requires ue.meas.lastTime <= t - 1.0 && !ue.meas.triggerActive
    ensures var o := Protocol.CheckHandover(WORLD, ue, t);
            && o.jobs == [Timed(t + 100.0, PredictJob(Prediction(A, B, t, t + 100.0)))] && o.rows == []
            && o.ue == ue.(meas := ue.meas.(lastTime := t, triggerActive := true, triggerStart := t, candidate := B),
                           occasions := o.ue.occasions, context := o.ue.context)
  {
    hide TakeSurvey, Detected, FindCell, CacheAt, ContextAfter;
    Fires(ue.(meas := ue.meas.(lastTime := t)), t);
  }

  /** The second tick reports. */
  lemma Reports(ue: Ue, t: real)
    requires TickAt(t) && ue.proc.phase == Idle && ue.serving == A == ue.meas.serving && ue.cache == CacheAt(t)
    requires ue.meas.lastTime <= t - 1.0 && ue.meas.triggerActive && ue.meas.triggerStart == t - 1.0 && ue.meas.candidate == B
    ensures var o := Protocol.CheckHandover(WORLD, ue, t);
            && o.jobs == [Timed(t + 100.0, PredictJob(Prediction(A, B, t, t + 100.0))), Timed(t + DELAY, HopJob(ReportArrived, A, B))]
            && o.rows == [] && o.ue.serving == A == o.ue.meas.serving && o.ue.cache == ue.cache
            && o.ue.meas.lastTime == t && !o.ue.meas.triggerActive
            && o.ue.proc.phase == MeasReportUplink && o.ue.proc.source == A && o.ue.proc.target == B && o.ue.proc.downlinkDelay == DELAY
  {
    hide TakeSurvey, Detected, FindCell, CacheAt, UplinkDelay, Count, ContextAfter;
    Fires(ue.(meas := ue.meas.(lastTime := t)), t);
    DelayIsShort(t);
  }

  // ----- the queue -----

  /** The predictions of this world are due after everything that matters here. */
  ghost predicate Far(rest: seq<Timed<OwnAct>>) {
    forall k :: 0 <= k < |rest| ==> rest[k].time >= 100.0
  }

  lemma TwoJobs(q: seq<Timed<OwnAct>>, t: real, job: Job, u: real, other: Job)
    ensures ScheduleOwn(q, [Timed(t, job), Timed(u, other)]) == Insert(Insert(q, Timed(t, OwnJob(job))), Timed(u, OwnJob(other)))
  {
    assert [Timed(t, job), Timed(u, other)][1..] == [Timed(u, other)];
    ScheduleOwnOne(Insert(q, Timed(t, OwnJob(job))), Timed(u, other));
  }

  lemma InFront(rest: seq<Timed<OwnAct>>, e: Timed<OwnAct>)
    requires Far(rest) && e.time < 100.0
    ensures Insert(rest, e) == [e] + rest
  {
  }

  lemma {:induction false} StaysFar(rest: seq<Timed<OwnAct>>, e: Timed<OwnAct>)
    requires Far(rest) && e.time >= 100.0
    ensures Far(Insert(rest, e))
  {
    if rest != [] && rest[0].time <= e.time {
      StaysFar(rest[1..], e);
    }
  }

  lemma BehindOne(rest: seq<Timed<OwnAct>>, first: Timed<OwnAct>, e: Timed<OwnAct>)
    requires Far(rest) && first.time <= e.time < 100.0
    ensures Insert([first] + rest, e) == [first, e] + rest
  {
    InFront(rest, e);
    assert ([first] + rest)[1..] == rest;
    assert [first] + ([e] + rest) == [first, e] + rest;
  }

  lemma Rest(e: Timed<OwnAct>, rest: seq<Timed<OwnAct>>)
    ensures ([e] + rest)[1..] == rest
  {
  }

  // ----- the stages of an attempt -----

  /** After the tick at `t`: connected to a, with these outcomes so far. */
  ghost predicate Base(l: Local, t: real, rows: seq<Row>) {
    l.ue.serving == A == l.ue.meas.serving && l.ue.cache == CacheAt(t) && l.rows == rows && l.ue.meas.lastTime <= t
  }

  ghost predicate TickIn(l: Local, t: real, rest: seq<Timed<OwnAct>>) {
    l.queue == [Timed(t + 1.0, OwnTick)] + rest && Far(rest)
  }

  ghost predicate Resting(l: Local, t: real, rows: seq<Row>, rest: seq<Timed<OwnAct>>) {
    Base(l, t, rows) && TickIn(l, t, rest) && l.ue.proc.phase == Idle && !l.ue.meas.triggerActive
  }

  ghost predicate Triggered(l: Local, t: real, rows: seq<Row>, rest: seq<Timed<OwnAct>>) {
    && Base(l, t, rows) && TickIn(l, t, rest) && l.ue.proc.phase == Idle
    && l.ue.meas.triggerActive && l.ue.meas.triggerStart == t && l.ue.meas.candidate == B
  }

  /** A procedure towards b. */
  ghost predicate Towards(l: Local, t: real, rows: seq<Row>, phase: Phase) {
    && Base(l, t, rows) && !l.ue.meas.triggerActive
    && l.ue.proc.phase == phase && l.ue.proc.source == A && l.ue.proc.target == B && l.ue.proc.downlinkDelay == DELAY
  }

  ghost predicate Hopping(l: Local, t: real, rows: seq<Row>, phase: Phase, x: real, hop: Hop, rest: seq<Timed<OwnAct>>) {
    && Towards(l, t, rows, phase) && Far(rest)
    && l.queue == [Timed(x, OwnJob(HopJob(hop, A, B))), Timed(t + 1.0, OwnTick)] + rest
  }

  ghost predicate Evaluates(l: Local, t: real, rows: seq<Row>, since: Option<real>, rest: seq<Timed<OwnAct>>) {
    && Towards(l, t, rows, Evaluating) && TickIn(l, t, rest)
    && l.ue.proc.timeToTrigger == 0.0 && l.ue.proc.configExpiry >= t + 2.0
    && (since.None? ==> !l.ue.proc.tttActive && l.ue.proc.configExpiry >= t + 3.0)
    && (since.Some? ==> l.ue.proc.tttActive && l.ue.proc.tttStart == since.value)
  }

  lemma Ticks(l: Local, t: real, rest: seq<Timed<OwnAct>>)
    requires TickIn(l, t, rest)
    ensures Pop(l) == l.(now := t + 1.0, queue := rest) && StepOwn(WORLD, l) == TickOwn(WORLD, Pop(l))
  {
    hide TickOwn;
    Rest(Timed(t + 1.0, OwnTick), rest);
  }

  lemma TriggerTick(l: Local, t: real, rows: seq<Row>, rest: seq<Timed<OwnAct>>) returns (rest': seq<Timed<OwnAct>>)
    requires TickAt(t + 1.0) && Resting(l, t, rows, rest)
    ensures Triggered(StepOwn(WORLD, l), t + 1.0, rows, rest')
  {
    hide PreparedUe, Protocol.CheckHandover, CacheAt, StepOwn, Insert, ScheduleOwn;
    var now := t + 1.0;
    Ticks(l, t, rest);
    Prepares(l.ue, now);
    FiresFirst(PreparedUe(WORLD, l.ue, now), now);
    rest' := AfterPrediction(rest, now);
    assert rows + [] == rows;
  }

  /** Where a prediction and the next tick go. */
  lemma AfterPrediction(rest: seq<Timed<OwnAct>>, t: real) returns (rest': seq<Timed<OwnAct>>)
    requires Far(rest) && 0.0 <= t < 50.0
    ensures Far(rest')
    ensures Insert(ScheduleOwn(rest, [Timed(t + 100.0, PredictJob(Prediction(A, B, t, t + 100.0)))]), Timed(t + 1.0, OwnTick)) ==
            [Timed(t + 1.0, OwnTick)] + rest'
  {
    hide Insert, ScheduleOwn;
    var p := PredictJob(Prediction(A, B, t, t + 100.0));
    ScheduleOwnOne(rest, Timed(t + 100.0, p));
    StaysFar(rest, Timed(t + 100.0, OwnJob(p)));
    rest' := Insert(rest, Timed(t + 100.0, OwnJob(p)));
    InFront(rest', Timed(t + 1.0, OwnTick));
  }

  lemma ReportTick(l: Local, t: real, rows: seq<Row>, rest: seq<Timed<OwnAct>>) returns (rest': seq<Timed<OwnAct>>)
    requires TickAt(t + 1.0) && Triggered(l, t, rows, rest)
    ensures Hopping(StepOwn(WORLD, l), t + 1.0, rows, MeasReportUplink, t + 1.0 + DELAY, ReportArrived, rest')
  {
    hide PreparedUe, Protocol.CheckHandover, CacheAt, StepOwn, Insert, ScheduleOwn;
    var now, hop := t + 1.0, HopJob(ReportArrived, A, B);
    Ticks(l, t, rest);
    Prepares(l.ue, now);
    Reports(PreparedUe(WORLD, l.ue, now), now);
    DelayIsShort(now);
    var p := PredictJob(Prediction(A, B, now, now + 100.0));
    TwoJobs(rest, now + 100.0, p, now + DELAY, hop);
    StaysFar(rest, Timed(now + 100.0, OwnJob(p)));
    rest' := Insert(rest, Timed(now + 100.0, OwnJob(p)));
    InFront(rest', Timed(now + DELAY, OwnJob(hop)));
    BehindOne(rest', Timed(now + DELAY, OwnJob(hop)), Timed(now + 1.0, OwnTick));
    assert rows + [] == rows;
  }

  /** The first four hops: what follows which, in what phase and after how long. */
  predicate Leads(hop: Hop, next: Hop, phase: Phase, delay: real) {
    || (hop == ReportArrived && next == SendXnRequest && phase == GnbDecision && delay == DECISION_DELAY)
    || (hop == SendXnRequest && next == Hop.XnResponse && phase == Phase.XnRequest && delay == XN_REQUEST_PROCESSING)
    || (hop == Hop.XnResponse && next == SendRrcReconfig && phase == Phase.XnResponse && delay == XN_RESPONSE_PROCESSING)
    || (hop == SendRrcReconfig && next == UeStoresConfig && phase == RrcReconfigDownlink && delay == DELAY)
  }

  lemma HopDoes(ue: Ue, t: real, hop: Hop, next: Hop, phase: Phase, delay: real)
    requires ue.proc.phase == Expects(hop) && ue.proc.downlinkDelay == DELAY && Leads(hop, next, phase, delay)
    ensures var o := HandleHop(WORLD, ue, t, hop, A, B);
            && o.jobs == [Timed(t + delay, HopJob(next, A, B))] && o.rows == []
            && o.ue == ue.(stats := o.ue.stats, proc := ue.proc.(phase := phase, phaseStart := t))
  {
    hide Count, LinkViable, Complete, Fail;
  }

  lemma NextHop(l: Local, t: real, rows: seq<Row>, x: real, hop: Hop, next: Hop, phase: Phase, delay: real, rest: seq<Timed<OwnAct>>)
    requires Hopping(l, t, rows, Expects(hop), x, hop, rest)
    requires Leads(hop, next, phase, delay)
    requires x + delay < t + 1.0 < 100.0
    ensures Hopping(StepOwn(WORLD, l), t, rows, phase, x + delay, next, rest)
  {
    hide CacheAt, HandleHop, Leads, ScheduleOwn, Insert;
    var tail, e := [Timed(t + 1.0, OwnTick)] + rest, Timed(x + delay, OwnJob(HopJob(next, A, B)));
    Rest(l.queue[0], tail);
    assert l.queue == [l.queue[0]] + tail;
    HopDoes(l.ue, x, hop, next, phase, delay);
    ScheduleOwnOne(tail, Timed(x + delay, HopJob(next, A, B)));
    InsertFirst(tail, e);
    assert [e] + tail == [e, Timed(t + 1.0, OwnTick)] + rest;
    assert rows + [] == rows;
  }

  lemma Stores(l: Local, t: real, rows: seq<Row>, x: real, rest: seq<Timed<OwnAct>>)
    requires Hopping(l, t, rows, RrcReconfigDownlink, x, UeStoresConfig, rest) && t <= x
    ensures Evaluates(StepOwn(WORLD, l), t, rows, None, rest)
  {
    hide CacheAt, Count;
    assert l.queue == [l.queue[0]] + ([Timed(t + 1.0, OwnTick)] + rest);
    Rest(l.queue[0], [Timed(t + 1.0, OwnTick)] + rest);
    assert rows + [] == rows;
  }

  /** From the report to the stored configuration: five events. */
  lemma Preparation(s: Local, k: nat, t: real, rows: seq<Row>, rest: seq<Timed<OwnAct>>)
    requires TickAt(t) && Hopping(RunOwn(WORLD, s, k), t, rows, MeasReportUplink, t + DELAY, ReportArrived, rest)
    ensures Evaluates(RunOwn(WORLD, s, k + 5), t, rows, None, rest)
  {
    hide StepOwn, Hopping, Evaluates;
    DelayIsShort(t);
    var x := t + DELAY;
    NextHop(RunOwn(WORLD, s, k), t, rows, x, ReportArrived, SendXnRequest, GnbDecision, DECISION_DELAY, rest);
    NextHop(RunOwn(WORLD, s, k + 1), t, rows, x + 0.001, SendXnRequest, Hop.XnResponse, Phase.XnRequest, XN_REQUEST_PROCESSING, rest);
    NextHop(RunOwn(WORLD, s, k + 2), t, rows, x + 0.003, Hop.XnResponse, SendRrcReconfig, Phase.XnResponse, XN_RESPONSE_PROCESSING, rest);
    NextHop(RunOwn(WORLD, s, k + 3), t, rows, x + 0.004, SendRrcReconfig, UeStoresConfig, RrcReconfigDownlink, DELAY, rest);
    Stores(RunOwn(WORLD, s, k + 4), t, rows, x + 0.004 + DELAY, rest);
  }

  lemma MetAlways(t: real)
    ensures ConditionMet(SETTINGS, CacheAt(t), A, B)
  {
  }

  lemma TimerTick(l: Local, t: real, rows: seq<Row>, rest: seq<Timed<OwnAct>>)
    requires TickAt(t + 1.0) && Evaluates(l, t, rows, None, rest)
    ensures Evaluates(StepOwn(WORLD, l), t + 1.0, rows, Some(t + 1.0), rest)
  {
    hide PreparedUe, CacheAt, ConditionMet, StepOwn, Insert;
    var now := t + 1.0;
    Ticks(l, t, rest);
    Prepares(l.ue, now);
    InCache(now);
    MetAlways(now);
    InFront(rest, Timed(now + 1.0, OwnTick));
    assert rows + [] == rows;
  }

  lemma InCache(t: real)
    ensures A in CacheAt(t) && B in CacheAt(t)
  {
  }

  lemma ExecuteTick(l: Local, t: real, rows: seq<Row>, rest: seq<Timed<OwnAct>>)
    requires TickAt(t + 1.0) && Evaluates(l, t, rows, Some(t), rest)
    ensures Hopping(StepOwn(WORLD, l), t + 1.0, rows, Executing, t + 1.0 + Switch(t + 1.0), ExecutionComplete, rest)
  {
    hide PreparedUe, CacheAt, ConditionMet, StepOwn, Insert, ScheduleOwn, AppliedRate, Count, ExecutionTime;
    var now, hop := t + 1.0, HopJob(ExecutionComplete, A, B);
    Ticks(l, t, rest);
    Prepares(l.ue, now);
    InCache(now);
    MetAlways(now);
    SwitchIsShort(now);
    ScheduleOwnOne(rest, Timed(now + Switch(now), hop));
    InFront(rest, Timed(now + Switch(now), OwnJob(hop)));
    BehindOne(rest, Timed(now + Switch(now), OwnJob(hop)), Timed(now + 1.0, OwnTick));
    assert rows + [] == rows;
  }

  /** Whether b is within reach. */
  lemma ViableFromSix(t: real)
    ensures LinkViable(SETTINGS, CacheAt(t), B) <==> t >= 6.0
  {
  }

  lemma Ends(l: Local, t: real, rows: seq<Row>, x: real, rest: seq<Timed<OwnAct>>)
    requires Hopping(l, t, rows, Executing, x, ExecutionComplete, rest)
    ensures var r := StepOwn(WORLD, l);
            && r.rows == rows + [Row(x, A, B, t >= 6.0)]
            && (t < 6.0 ==> Resting(r, t, rows + [Row(x, A, B, false)], rest))
  {
    hide CacheAt, Count, LinkViable, AppliedRate, ExecutionLines;
    ViableFromSix(t);
    assert l.queue == [l.queue[0]] + ([Timed(t + 1.0, OwnTick)] + rest);
    Rest(l.queue[0], [Timed(t + 1.0, OwnTick)] + rest);
    EndJobs(l.ue, x);
  }

  lemma EndJobs(ue: Ue, t: real)
    ensures Fail(WORLD, ue, t).jobs == [] && Complete(WORLD, ue, t, A, B).jobs == []
  {
    hide Count, AppliedRate;
  }

  /** An attempt: from the trigger at tick `t` to its execution, eight events and three ticks later. */
  lemma Attempt(s: Local, k: nat, t: real, rows: seq<Row>, rest: seq<Timed<OwnAct>>) returns (rest': seq<Timed<OwnAct>>)
    requires TickAt(t) && TickAt(t + 3.0) && Triggered(RunOwn(WORLD, s, k), t, rows, rest)
    ensures Hopping(RunOwn(WORLD, s, k + 8), t + 3.0, rows, Executing, t + 3.0 + Switch(t + 3.0), ExecutionComplete, rest')
  {
    hide StepOwn, Hopping, Evaluates, Triggered;
    rest' := ReportTick(RunOwn(WORLD, s, k), t, rows, rest);
    Preparation(s, k + 1, t + 1.0, rows, rest');
    TimerTick(RunOwn(WORLD, s, k + 6), t + 1.0, rows, rest');
    ExecuteTick(RunOwn(WORLD, s, k + 7), t + 2.0, rows, rest');
  }

  lemma FirstTick(ue: Ue) returns (rest: seq<Timed<OwnAct>>)
    requires Initial(ue)
    ensures Triggered(RunOwn(WORLD, StartOwn(ue), 1), 0.0, [], rest)
  {
    hide PreparedUe, Protocol.CheckHandover, CacheAt, Insert, ScheduleOwn;
    Prepares(ue, 0.0);
    FiresFirst(PreparedUe(WORLD, ue, 0.0), 0.0);
    var start := StartOwn(ue);
    assert RunOwn(WORLD, start, 1) == StepOwn(WORLD, RunOwn(WORLD, start, 0));
    assert start.queue[1..] == [];
    rest := AfterPrediction([], 0.0);
  }

  // ----- the run -----

  const FAILED_AT: real := 3.0 + Switch(3.0)
  const DONE_AT: real := 7.0 + Switch(7.0)

  const FAILURE: Row := Row(FAILED_AT, A, B, false)
  const SUCCESS: Row := Row(DONE_AT, A, B, true)

  lemma WorldIsValid()
    ensures ValidEnv(WORLD)
  {
  }

  lemma Fails(ue: Ue) returns (rest: seq<Timed<OwnAct>>)
    requires Initial(ue)
    ensures Hopping(RunOwn(WORLD, StartOwn(ue), 9), 3.0, [], Executing, FAILED_AT, ExecutionComplete, rest)
    ensures Resting(RunOwn(WORLD, StartOwn(ue), 10), 3.0, [FAILURE], rest)
  {
    hide StepOwn, Hopping, Triggered, Switch;
    var first := FirstTick(ue);
    rest := Attempt(StartOwn(ue), 1, 0.0, [], first);
    Ends(RunOwn(WORLD, StartOwn(ue), 9), 3.0, [], FAILED_AT, rest);
    assert [] + [FAILURE] == [FAILURE];
  }

  lemma Succeeds(ue: Ue)
    requires Initial(ue)
    ensures RunOwn(WORLD, StartOwn(ue), 20).rows == [FAILURE, SUCCESS]
  {
    hide StepOwn, Hopping, Triggered, Resting, Switch;
    var s := StartOwn(ue);
    var rest := Fails(ue);
    rest := TriggerTick(RunOwn(WORLD, s, 10), 3.0, [FAILURE], rest);
    rest := Attempt(s, 11, 4.0, [FAILURE], rest);
    Ends(RunOwn(WORLD, s, 19), 7.0, [FAILURE], DONE_AT, rest);
    assert [FAILURE] + [SUCCESS] == [FAILURE, SUCCESS];
  }

  // ----- what the theorems say of it -----

  /** An event at the head of the UE's own queue is at the head of the shared one. */
  lemma HeadOfTheRun(q: seq<Timed<Act>>, own: seq<Timed<OwnAct>>, job: Job)
    requires AllMine(q) && Sift(q, Mine(0)) == own && own != [] && own[0].act == OwnJob(job)
    ensures q != [] && q[0].act == Own(0, job)
  {
    assert Mine(0)(q[0].act).Some?;
  }

  lemma {:induction false} SomeFailed(rows: seq<Tagged<Row>>, i: nat, k: nat)
    requires k < |Of(rows, i)| && !Of(rows, i)[k].success
    ensures !LogRoundTrip.AllSucceeded(rows)
  {
    if rows[0].ue == i && k == 0 {
      assert !rows[0].rec.success;
    } else {
      SomeFailed(rows[1..], i, if rows[0].ue == i then k - 1 else k);
      var j :| 0 <= j < |rows[1..]| && !rows[1..][j].rec.success;
      assert !rows[j + 1].rec.success;
    }
  }

  /** Executions are fast here, and the condition's parameters guarantee a viable SNR: what is left to
      fail on is the distance, which the condition does not compare. */
  lemma ParametersAddUp()
    ensures Timing.Near(WORLD, 0.02) && Timing.SwitchingTime(0.02) < TICK_PERIOD
    ensures SETTINGS.minSnr + SETTINGS.executionOffset >= SETTINGS.minViableSinr
  {
  }

  /** The tenth event of every run in this world is a liveness check that fails. The UE is left with its
      link down, and its log no longer reads back as its handovers. */
  lemma AHandoverFails(ue: Ue, run: nat -> Sys)
    requires Initial(ue) && IsRun(WORLD, [ue], run)
    ensures Starting(WORLD, [ue]) && |run(9).ues| == 1 && Aftermath.FailsNext(WORLD, run(9), 0, A, B)
    ensures Of(run(10).rows, 0) == [FAILURE] && !LogRoundTrip.AllSucceeded(run(10).rows)
    ensures |run(10).ues| == 1 && Aftermath.LinkDown(run(10).ues[0], A)
    ensures HandoverLog.Parsed(LogRoundTrip.Print(run(10).lines)) != LogRoundTrip.Completed(SETTINGS, run(10).rows)
  {
    hide RunOwn, Initial, CacheAt, LinkViable, AllMine, Aftermath.LinkDown, LogRoundTrip.AllSucceeded, HandoverLog.Parsed, Sift, Of;
    WorldIsValid();
    var rest := Fails(ue);
    SoloRun(WORLD, ue, run, 9);
    SoloRun(WORLD, ue, run, 10);
    HeadOfTheRun(run(9).queue, RunOwn(WORLD, StartOwn(ue), 9).queue, HopJob(ExecutionComplete, A, B));
    ViableFromSix(3.0);
    Aftermath.FailureLeavesTheLinkDown(WORLD, [ue], run, 9, 10, 0, A, B);
    SomeFailed(run(10).rows, 0, 0);
    LogRoundTrip.SnrLogReadsBack(WORLD, [ue], run, 10);
  }

  /** It fails on what its execution condition did not compare. */
  lemma TheSnrIsNotToBlame(ue: Ue, run: nat -> Sys)
    requires Initial(ue) && IsRun(WORLD, [ue], run)
    ensures |run(9).ues| == 1 && B in run(9).ues[0].cache
    ensures var m := run(9).ues[0].cache[B].metrics;
            m.snr >= SETTINGS.minViableSinr && (m.distance / 1000.0 > SETTINGS.maxViableDistance || m.elevation < 0.0)
  {
    hide Initial, LinkViable, Timing.Near, Timing.SwitchingTime, HandoverLog.Parsed, LogRoundTrip.Completed;
    AHandoverFails(ue, run);
    ParametersAddUp();
    Timing.FailureCauses(WORLD, [ue], run, 9, 0, 0.02, A, B);
  }

  /** Ten events later the second attempt has succeeded, and the analysis reports it more than three
      seconds too early, at the time of the failure and without a trigger. */
  lemma SuccessIsReadAtTheTimeOfTheFailure(ue: Ue, run: nat -> Sys)
    requires Initial(ue) && IsRun(WORLD, [ue], run)
    ensures Starting(WORLD, [ue]) && Of(run(20).rows, 0) == [FAILURE, SUCCESS] && FAILED_AT < 4.0 < 7.0 < DONE_AT
    ensures var read := LogByUe.EventsOf(HandoverLog.Parsed(LogRoundTrip.Print(run(20).lines)), 0);
            |read| == 2 && read[0] == HandoverLog.Event(FAILED_AT, Some(0), Some(A), Some(B), None)
  {
    hide RunOwn, Initial, CacheAt, HandoverLog.Parsed, LogByUe.EventsOf, Of, Switch;
    WorldIsValid();
    Succeeds(ue);
    SoloRun(WORLD, ue, run, 20);
    SwitchIsShort(3.0);
    SwitchIsShort(7.0);
    SnrLog.CompletionsTakeTheOldestResult(WORLD, [ue], run, 20, 0);
    OneSuccess();
  }

  lemma OneSuccess()
    ensures HandoverPath.Successes([FAILURE, SUCCESS]) == [SUCCESS]
  {
    hide Switch;
    HandoverPath.OneRow([FAILURE], SUCCESS);
    HandoverPath.OneRow([], FAILURE);
    assert [] + [FAILURE] == [FAILURE] && [FAILURE] + [SUCCESS] == [FAILURE, SUCCESS];
  }
}
