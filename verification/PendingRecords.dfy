/** The shared lists of records that wait for their time: predictions, validations and follow-ups. */
module PendingRecords {
  import opened ChoTypes
  import opened Agenda
  import opened Channel
  import opened Protocol
  import opened SystemModel
  import opened Independence
  import opened Lockstep
  import opened StepCases
  import opened Reachable
  import opened Moments
  import Liveness
  import Reporting

  // ----- predictions -----

  function JobPrediction(): Job -> Option<Prediction> {
    (j: Job) => if j.PredictJob? then Some(j.prediction) else None
  }

  function ActPrediction(): OwnAct -> Option<Prediction> {
    (a: OwnAct) => if a.OwnJob? then JobPrediction()(a.job) else None
  }

  /** When a prediction is looked at again: a configured delay after the decision, or at once if that is
      negative. */
  function EvaluationOf(cfg: Config, p: Prediction): Timed<Prediction> {
    Timed(p.decisionTime + (if cfg.predictionDelay < 0.0 then 0.0 else cfg.predictionDelay), p)
  }

  function Evaluations(cfg: Config, ps: seq<Prediction>): (r: seq<Timed<Prediction>>)
    ensures |r| == |ps| && forall k :: 0 <= k < |ps| ==> r[k] == EvaluationOf(cfg, ps[k])
  {
    seq(|ps|, k requires 0 <= k < |ps| => EvaluationOf(cfg, ps[k]))
  }

  function Scheduled(l: Local): seq<Timed<Prediction>> {
    Sift(l.queue, ActPrediction())
  }

  /** Decided at ticks, so a period apart. */
  ghost predicate Apart(ps: seq<Prediction>, tick: real) {
    && (forall j, k :: 0 <= j < k < |ps| ==> ps[j].decisionTime + TICK_PERIOD <= ps[k].decisionTime)
    && forall k :: 0 <= k < |ps| ==> ps[k].decisionTime + TICK_PERIOD <= tick
  }

  ghost predicate PredictionsOk(env: Env, l: Local) {
    |Ticks(l)| == 1 && Scheduled(l) == Evaluations(env.cfg, l.predictions) && Apart(l.predictions, Ticks(l)[0].time)
  }

  /** What a handler announces, it schedules. */
  ghost predicate Announces(cfg: Config, o: Outcome, t: real) {
    && |o.predictions| <= 1 && (forall k :: 0 <= k < |o.predictions| ==> o.predictions[k].decisionTime == t)
    && Sift(o.jobs, JobPrediction()) == Evaluations(cfg, o.predictions)
  }

  lemma NoJobs(cfg: Config, o: Outcome, t: real)
    requires o.jobs == [] && o.predictions == []
    ensures Announces(cfg, o, t)
  {
  }

  lemma OneHopJob(cfg: Config, o: Outcome, t: real)
    requires |o.jobs| == 1 && o.jobs[0].act.HopJob? && o.predictions == []
    ensures Announces(cfg, o, t)
  {
    SiftHead(o.jobs, JobPrediction());
    SiftNone<Job, Prediction>(JobPrediction());
  }

  lemma HopAnnounces(env: Env, ue: Ue, t: real, hop: Hop, source: Cell, target: Cell)
    ensures Announces(env.cfg, HandleHop(env, ue, t, hop, source, target), t)
  {
    hide HandleHop;
    Liveness.HopWeight(env, ue, t, hop, source, target);
    HopIsHop(env, ue, t, hop, source, target);
    var o := HandleHop(env, ue, t, hop, source, target);
    if o.jobs == [] {
      NoJobs(env.cfg, o, t);
    } else {
      OneHopJob(env.cfg, o, t);
    }
  }

  lemma HopIsHop(env: Env, ue: Ue, t: real, hop: Hop, source: Cell, target: Cell)
    ensures var o := HandleHop(env, ue, t, hop, source, target);
            o.predictions == [] && forall k :: 0 <= k < |o.jobs| ==> o.jobs[k].act.HopJob?
  {
    hide Count, AppliedRate, LinkViable;
  }

  lemma TriggerAnnounces(env: Env, ue: Ue, t: real, r: Report)
    ensures Announces(env.cfg, Trigger(ue, t, r), t) && Trigger(ue, t, r).predictions == []
  {
    hide Count, UplinkDelay;
    var o := Trigger(ue, t, r);
    if o.jobs == [] {
      NoJobs(env.cfg, o, t);
    } else {
      OneHopJob(env.cfg, o, t);
    }
  }

  lemma AnnounceAnnounces(env: Env, t: real, s: Measurement, best: Option<Measurement>, fired: bool, o: Outcome)
    requires Announces(env.cfg, o, t) && o.predictions == []
    ensures Announces(env.cfg, Announce(env, t, s, best, fired, o), t)
  {
    var a := Announce(env, t, s, best, fired, o);
    if a != o {
      SiftHead(a.jobs, JobPrediction());
      assert a.jobs[1..] == o.jobs;
    }
  }

  lemma CheckAnnounces(env: Env, ue: Ue, t: real)
    ensures Announces(env.cfg, Protocol.CheckHandover(env, ue, t), t)
  {
    hide Measure, CheckExecution, Announces;
    MeasureAnnounces(env, ue.(meas := Resync(ue, t).(lastTime := t)), t);
    EvaluationAnnounces(env, ue, t);
    NoJobs(env.cfg, Only(ue), t);
    NoJobs(env.cfg, Only(ue.(meas := Resync(ue, t))), t);
  }

  lemma EvaluationAnnounces(env: Env, ue: Ue, t: real)
    ensures Announces(env.cfg, CheckExecution(env, ue, t), t)
  {
    hide CheckExecution, Announces;
    EvaluationFrame(env, ue, t);
    var o := CheckExecution(env, ue, t);
    if o.jobs == [] {
      NoJobs(env.cfg, o, t);
    } else {
      OneHopJob(env.cfg, o, t);
    }
  }

  lemma MeasureAnnounces(env: Env, ue: Ue, t: real)
    ensures Announces(env.cfg, Measure(env, ue, t), t)
  {
    hide MeasureServing, Detected, FindCell, Trigger, Announces;
    match FindCell(Detected(env, ue.cache, t, |env.satellites|), ue.meas.serving) {
      case None =>
        var lost := ue.(context := ClearContext(env.cfg, ue), occasions := ue.occasions + [RadioLinkFailure(t)]);
        TriggerAnnounces(env, lost, t, Report(ue.meas.serving, NO_SNR, NO_CELL, NO_SNR));
        NoJobs(env.cfg, Only(lost.(serving := NO_CELL, meas := ue.meas.(serving := NO_CELL, triggerActive := false))), t);
      case Some(s) =>
        ServingAnnounces(env, ue, t, Detected(env, ue.cache, t, |env.satellites|), s);
    }
    NoJobs(env.cfg, Only(ue.(context := ClearContext(env.cfg, ue))), t);
  }

  lemma ServingAnnounces(env: Env, ue: Ue, t: real, ms: seq<Measurement>, s: Measurement)
    ensures Announces(env.cfg, MeasureServing(env, ue, t, ms, s), t)
  {
    hide TakeSurvey, Decide, ContextAfter, Trigger, Announce;
    var v := TakeSurvey(env, ue, t, ms, s);
    var bestCell := if v.best.Some? then v.best.value.cell else NO_CELL;
    var (meas, due) := Decide(env.cfg, v.ue.meas, t, v.fired, bestCell);
    var decided := Decided(env, v, t, s);
    NoJobs(env.cfg, Only(decided), t);
    var o := Only(decided);
    if due && v.best.Some? {
      var r := Report(s.cell, s.metrics.snr, bestCell, v.best.value.metrics.snr);
      TriggerAnnounces(env, decided, t, r);
      o := Trigger(decided, t, r);
    }
    AnnounceAnnounces(env, t, s, v.best, v.fired, o);
  }

  // ----- a step -----

  lemma AppendsLast<A>(q: seq<Timed<A>>, e: Timed<A>)
    requires forall k :: 0 <= k < |q| ==> q[k].time <= e.time
    ensures Insert(q, e) == q + [e]
  {
    InsertPosition(q, e, |q|);
    assert q[..|q|] == q && q[|q|..] == [];
    assert q + [e] + [] == q + [e];
  }

  lemma CommitPredictions(env: Env, l: Local, o: Outcome, t: real, tick: real)
    requires Sorted(l.queue) && AllFrom(l.queue, t) && AllFrom(o.jobs, t) && Announces(env.cfg, o, t)
    requires Scheduled(l) == Evaluations(env.cfg, l.predictions) && Apart(l.predictions, tick)
    requires o.predictions != [] ==> tick == t
    ensures var c := CommitOwn(l, o);
            && Scheduled(c) == Evaluations(env.cfg, c.predictions)
            && Apart(c.predictions, if o.predictions == [] then tick else tick + TICK_PERIOD)
  {
    hide Sift, ScheduleOwn, Sorted;
    SiftScheduledBy(l.queue, o.jobs, ActPrediction(), JobPrediction(), t);
    var before, more := Evaluations(env.cfg, l.predictions), Evaluations(env.cfg, o.predictions);
    if o.predictions == [] {
      assert more == [];
      InsertAllNone(before);
      assert l.predictions + [] == l.predictions;
    } else {
      assert more == [more[0]];
      assert InsertAll(before, more) == InsertAll(Insert(before, more[0]), more[1..]) == Insert(before, more[0]);
      AppendsLast(before, more[0]);
      assert Evaluations(env.cfg, l.predictions + o.predictions) == before + more;
    }
  }

  /** A look at the first prediction removes that one and leaves the others. */
  lemma LookRemoves(env: Env, ps: seq<Prediction>, tick: real)
    requires ps != [] && Apart(ps, tick)
    ensures Keep(ps, NotSame(ps[0])) == ps[1..] && Apart(ps[1..], tick)
  {
    hide Apart, Keep, NotSame;
    RestApart(ps, tick);
    OthersStay(ps[1..], ps[0]);
    FirstGoes(ps);
  }

  lemma RestApart(ps: seq<Prediction>, tick: real)
    requires ps != [] && Apart(ps, tick)
    ensures Apart(ps[1..], tick)
    ensures forall k :: 0 <= k < |ps| - 1 ==> ps[0].decisionTime + TICK_PERIOD <= ps[1..][k].decisionTime
  {
  }

  lemma FirstGoes(ps: seq<Prediction>)
    requires ps != []
    ensures Keep(ps, NotSame(ps[0])) == Keep(ps[1..], NotSame(ps[0]))
  {
  }

  lemma {:induction false} OthersStay(ps: seq<Prediction>, p: Prediction)
    requires forall k :: 0 <= k < |ps| ==> p.decisionTime + TICK_PERIOD <= ps[k].decisionTime
    ensures Keep(ps, NotSame(p)) == ps
  {
    if ps != [] {
      OthersStay(ps[1..], p);
      assert NotSame(p)(ps[0]);
      assert ps == [ps[0]] + ps[1..];
    }
  }

  lemma TickPredictions(env: Env, l: Local)
    requires ValidEnv(env) && Sorted(l.queue) && AllFrom(l.queue, l.now) && UeOk(env, l.ue)
    requires Scheduled(l) == Evaluations(env.cfg, l.predictions) && Apart(l.predictions, l.now)
    ensures var r := TickOwn(env, l);
            Scheduled(r) == Evaluations(env.cfg, r.predictions) && Apart(r.predictions, l.now + TICK_PERIOD)
  {
    hide Sift, ScheduleOwn, Sorted, Insert, UeOk, PreparedUe, Protocol.CheckHandover, Announces, Keep;
    PreparedOk(env, l.ue, l.now);
    var p := PreparedOwn(env, l);
    var o := Protocol.CheckHandover(env, p.ue, l.now);
    CheckAnnounces(env, p.ue, l.now);
    CheckIsLater(env, p.ue, l.now);
    CommitPredictions(env, p, o, l.now, l.now);
    var c := CommitOwn(p, o);
    SiftScheduledBy(p.queue, o.jobs, ActPrediction(), JobPrediction(), l.now);
    SiftInsert(c.queue, Timed(l.now + TICK_PERIOD, OwnTick), ActPrediction());
  }

  lemma CheckIsLater(env: Env, ue: Ue, t: real)
    requires UeOk(env, ue)
    ensures AllFrom(Protocol.CheckHandover(env, ue, t).jobs, t)
  {
    hide Protocol.CheckHandover;
    CheckTimes(env, ue, t);
  }

  lemma HopPredictions(env: Env, l: Local, hop: Hop, source: Cell, target: Cell, tick: real)
    requires ValidEnv(env) && Sorted(l.queue) && AllFrom(l.queue, l.now) && UeOk(env, l.ue)
    requires Scheduled(l) == Evaluations(env.cfg, l.predictions) && Apart(l.predictions, tick)
    ensures var r := CommitOwn(l, HandleHop(env, l.ue, l.now, hop, source, target));
            Scheduled(r) == Evaluations(env.cfg, r.predictions) && Apart(r.predictions, tick)
  {
    hide Sift, ScheduleOwn, Sorted, HandleHop, Announces;
    HopAnnounces(env, l.ue, l.now, hop, source, target);
    HopIsHop(env, l.ue, l.now, hop, source, target);
    HopTimes(env, l.ue, l.now, hop, source, target);
    CommitPredictions(env, l, HandleHop(env, l.ue, l.now, hop, source, target), l.now, tick);
  }

  lemma PoppedPrediction(l: Local)
    requires l.queue != []
    ensures match l.queue[0].act
            case OwnJob(PredictJob(p)) => Scheduled(l) == [Timed(l.queue[0].time, p)] + Scheduled(Pop(l))
            case _ => Scheduled(Pop(l)) == Scheduled(l)
  {
    hide Sift;
    SiftHead(l.queue, ActPrediction());
    if l.queue[0].act.OwnJob? {
      assert ActPrediction()(l.queue[0].act) == JobPrediction()(l.queue[0].act.job);
    }
  }

  lemma PoppedTick(env: Env, l: Local)
    requires Coherent(env, l) && l.queue != []
    ensures Sorted(Pop(l).queue) && AllFrom(Pop(l).queue, Pop(l).now)
  {
    hide UeOk, Sift;
    PopFacts(env, l);
  }

  lemma StepPredictions(env: Env, l: Local)
    requires ValidEnv(env) && Coherent(env, l) && PredictionsOk(env, l)
    ensures PredictionsOk(env, StepOwn(env, l))
  {
    hide StepOwn, UeOk, Protocol.CheckHandover, HandleHop, PreparedUe, Sift, Apart;
    if l.queue == [] {
      EmptyStep(env, l);
    } else {
      StepCase(env, l);
      PoppedPrediction(l);
      PoppedTick(env, l);
      StepIs(env, l);
      var tick := Ticks(l)[0].time;
      match l.queue[0].act {
        case OwnTick =>
          TickPredictions(env, Pop(l));
        case OwnJob(HopJob(hop, source, target)) =>
          HopPredictions(env, Pop(l), hop, source, target, tick);
        case OwnJob(PredictJob(p)) =>
          var ps := l.predictions;
          assert Scheduled(l)[0] == Evaluations(env.cfg, ps)[0];
          LookRemoves(env, ps, tick);
          assert Evaluations(env.cfg, ps)[1..] == Evaluations(env.cfg, ps[1..]);
          assert Scheduled(Pop(l)) == Scheduled(l)[1..];
      }
    }
  }

  lemma StepIs(env: Env, l: Local)
    requires l.queue != []
    ensures match l.queue[0].act
            case OwnTick => StepOwn(env, l) == TickOwn(env, Pop(l))
            case OwnJob(HopJob(hop, source, target)) =>
              StepOwn(env, l) == CommitOwn(Pop(l), HandleHop(env, l.ue, Pop(l).now, hop, source, target))
            case OwnJob(PredictJob(p)) => StepOwn(env, l) == Pop(l).(predictions := Keep(l.predictions, NotSame(p)))
  {
    hide TickOwn, HandleHop, CommitOwn;
  }

  lemma StartPredictions(env: Env, ue: Ue)
    ensures PredictionsOk(env, StartOwn(ue))
  {
    assert StartOwn(ue).queue[1..] == [];
  }

  lemma {:induction false} RunPredictions(env: Env, ue: Ue, m: nat)
    requires ValidEnv(env) && Initial(ue)
    ensures PredictionsOk(env, RunOwn(env, StartOwn(ue), m))
  {
    hide Coherent, StepOwn, PredictionsOk;
    StartPredictions(env, ue);
    if m > 0 {
      RunPredictions(env, ue, m - 1);
      RunCoherent(env, ue, m - 1);
      StepPredictions(env, RunOwn(env, StartOwn(ue), m - 1));
    }
  }

  /** In every reachable state the predictions a UE has pending are exactly those the queue holds a look
      for, in the same order and each at the configured delay after its decision: none is evaluated twice,
      dropped or forgotten. */
  lemma PredictionsAreScheduledOnce(env: Env, ues: seq<Ue>, run: nat -> Sys, n: nat, i: nat)
    requires Starting(env, ues) && IsRun(env, ues, run) && i < |ues|
    ensures |run(n).ues| == |ues|
    ensures Sift(Sift(run(n).queue, Mine(i)), ActPrediction()) == Evaluations(env.cfg, Of(run(n).predictions, i))
  {
    hide RunOwn, Sift, Apart;
    var m, l := OwnMoment(env, ues, run, i, n);
    RunPredictions(env, ues[i], m);
  }

  // ----- validations and follow-ups -----

  /** A neighbour's record, to be verified five seconds later. */
  predicate Validates(v: Validation, m: Measurement, t: real) {
    v.recordTime == t && v.cell == m.cell && v.sinr == m.metrics.snr && v.verificationTime == t + 5.0
  }

  function IsRecorded(ms: seq<Measurement>, serving: Cell): nat -> bool {
    (j: nat) => j < |ms| && ms[j].cell != serving && ms[j].metrics.snr >= 3.0
  }

  lemma ScanNext(env: Env, ue: Ue, t: real, ms: seq<Measurement>, k: nat)
    requires k < |ms|
    ensures var before, after := TrendScan(env, ue, t, ms, k).validations, TrendScan(env, ue, t, ms, k + 1).validations;
            if IsRecorded(ms, ue.meas.serving)(k)
            then |after| == |before| + 1 && after[..|before|] == before && Validates(after[|before|], ms[k], t)
            else after == before
  {
    hide DistanceTrend;
  }

  lemma NothingScanned(env: Env, ue: Ue, t: real, ms: seq<Measurement>)
    ensures TrendScan(env, ue, t, ms, 0).validations == []
  {
  }

  /** The scan records every neighbour of at least three decibel, in the order of the measurements. */
  lemma {:induction false} ScanValidates(env: Env, ue: Ue, t: real, ms: seq<Measurement>, k: nat) returns (at: seq<nat>)
    requires k <= |ms|
    ensures Selects(at, k, IsRecorded(ms, ue.meas.serving))
    ensures var vs := TrendScan(env, ue, t, ms, k).validations;
            |at| == |vs| && forall x :: 0 <= x < |at| ==> at[x] < k && Validates(vs[x], ms[at[x]], t)
  {
    hide Selects, TrendScan, IsRecorded, Validates;
    var p := IsRecorded(ms, ue.meas.serving);
    at := [];
    if k == 0 {
      SelectsNothing(p);
      NothingScanned(env, ue, t, ms);
    } else {
      var before := ScanValidates(env, ue, t, ms, k - 1);
      SelectsNext(before, k - 1, p);
      ScanNext(env, ue, t, ms, k - 1);
      var past, vs := TrendScan(env, ue, t, ms, k - 1).validations, TrendScan(env, ue, t, ms, k).validations;
      at := if p(k - 1) then before + [k - 1] else before;
      assert forall x :: 0 <= x < |past| ==> vs[x] == vs[..|past|][x] == past[x];
    }
  }

  /** The three looks at a falling serving cell: one, three and five seconds later. */
  ghost predicate FollowsUp(fs: seq<Followup>, cell: Cell, snr: real, trend: real, t: real) {
    && |fs| == 3 && fs[0].horizon == 1.0 && fs[1].horizon == 3.0 && fs[2].horizon == 5.0
    && forall k :: 0 <= k < 3 ==>
         && fs[k].recordTime == t && fs[k].serving == cell && fs[k].sinr == snr && fs[k].snrTrend == trend
         && fs[k].verificationTime == t + fs[k].horizon
  }

  /** What a tick notes for later. */
  ghost predicate NotesOf(env: Env, ue: Ue, t: real, o: Outcome) {
    if ue.proc.phase == Idle && ue.serving != NO_CELL && t - ue.meas.lastTime >= MEASUREMENT_PERIOD
       && Measurable(env, ue.cache, ue.serving, t) then
      var a, ms := Occasioned(ue, t), Detected(env, ue.cache, t, |env.satellites|);
      var scan, trend := TrendScan(env, a, t, ms, |ms|), SnrTrend(env, o.ue, ue.serving);
      && o.validations == scan.validations
      && if scan.best.Some? && trend < -env.cfg.servingTrendThreshold
         then FollowsUp(o.followups, ue.serving, ue.cache[ue.serving].metrics.snr, trend, t)
         else o.followups == []
    else o.validations == [] && o.followups == []
  }

  lemma ServingNotes(env: Env, ue: Ue, t: real, ms: seq<Measurement>, s: Measurement)
    requires env.cfg.strategy == TdCho && ue.meas.serving == s.cell
    ensures var o, scan := MeasureServing(env, ue, t, ms, s), TrendScan(env, ue, t, ms, |ms|);
            && o.validations == scan.validations
            && var trend := SnrTrend(env, o.ue, s.cell);
               if scan.best.Some? && trend < -env.cfg.servingTrendThreshold
               then FollowsUp(o.followups, s.cell, s.metrics.snr, trend, t) else o.followups == []
  {
    hide TrendScan, DistanceTrend, SnrTrend, Decide, ContextAfter, UplinkDelay, Count;
    var v, o := TakeSurvey(env, ue, t, ms, s), MeasureServing(env, ue, t, ms, s);
    Reporting.SameTrend(env, v.ue, o.ue, s.cell);
  }

  lemma CheckNotes(env: Env, ue: Ue, t: real)
    requires UeOk(env, ue) && env.cfg.strategy == TdCho
    ensures NotesOf(env, ue, t, Protocol.CheckHandover(env, ue, t))
  {
    hide Detected, FindCell, MeasureServing, CheckExecution, UeOk, TrendScan, SnrTrend, FollowsUp, UplinkDelay, Count, Measurable;
    UeServing(env, ue);
    Reporting.UeCache(env, ue);
    Reporting.FoundServing(env, ue, t);
    EvaluationNotes(env, ue, t);
    var a, ms := Occasioned(ue, t), Detected(env, ue.cache, t, |env.satellites|);
    if Measurable(env, ue.cache, ue.serving, t) {
      Reporting.InCache(env, ue.cache, ue.serving, t);
      ServingNotes(env, a, t, ms, Measurement(ue.serving, ue.cache[ue.serving].metrics));
    }
  }

  lemma EvaluationNotes(env: Env, ue: Ue, t: real)
    ensures var o := CheckExecution(env, ue, t); o.validations == [] && o.followups == []
  {
    hide CheckExecution;
    EvaluationFrame(env, ue, t);
  }

  /** At every tick of the trend-aware strategy exactly the records whose time has come leave a UE's lists,
      and the notes of the tick join them. */
  lemma TicksVerifyAndNote(env: Env, ues: seq<Ue>, run: nat -> Sys, n: nat, i: nat) returns (o: Outcome)
    requires Starting(env, ues) && IsRun(env, ues, run) && i < |ues| && TickNext(run(n)) && |run(n).ues| == |ues|
    requires env.cfg.strategy == TdCho
    ensures |run(n + 1).ues| == |ues|
    ensures var s, s' := run(n), run(n + 1);
            && NotesOf(env, AtTick(env, s, i), s'.now, o) && o.ue == s'.ues[i]
            && Of(s'.validations, i) == Keep(Of(s.validations, i), (v: Validation) => s'.now < v.verificationTime) + o.validations
            && Of(s'.followups, i) == Keep(Of(s.followups, i), (f: Followup) => s'.now < f.verificationTime) + o.followups
  {
    hide Step, StepOwn, RunOwn, Initial, Sift, UeOk, PreparedUe, Protocol.CheckHandover, NotesOf, Keep;
    var m, l := OwnStep(env, ues, run, n, i);
    TickStep(env, ues, run, n, i);
    var t := run(n).queue[0].time;
    o := Protocol.CheckHandover(env, AtTick(env, run(n), i), t);
    CheckNotes(env, AtTick(env, run(n), i), t);
    StepIs(env, l);
    TickLists(env, l);
    SameKeep(l.validations, ValidationPending(t), (v: Validation) => t < v.verificationTime);
    SameKeep(l.followups, FollowupPending(t), (f: Followup) => t < f.verificationTime);
  }

  lemma {:induction false} SameKeep<T>(s: seq<T>, p: T -> bool, q: T -> bool)
    requires forall x :: x in s ==> p(x) == q(x)
    ensures Keep(s, p) == Keep(s, q)
  {
    if s != [] {
      SameKeep(s[1..], p, q);
    }
  }

  lemma TickLists(env: Env, l: Local)
    requires l.queue != [] && env.cfg.strategy == TdCho
    ensures var r, t := TickOwn(env, Pop(l)), l.queue[0].time;
            var o := Protocol.CheckHandover(env, PreparedUe(env, l.ue, t), t);
            && r.validations == Keep(l.validations, ValidationPending(t)) + o.validations
            && r.followups == Keep(l.followups, FollowupPending(t)) + o.followups
  {
    hide Keep, PreparedUe, Protocol.CheckHandover, ScheduleOwn, Insert;
  }
}
