/** UE independence: what a UE does in a run with any number of UEs is what it does alone. */
module Independence {
  import opened ChoTypes
  import opened Agenda
  import opened Channel
  import opened Protocol
  import opened ProtocolFacts
  import opened SystemModel

  // ----- the part of the shared state that belongs to one UE -----

  function Mine(i: nat): Act -> Option<OwnAct> {
    (a: Act) => match a
      case Tick => Some(OwnTick)
      case Own(ue, job) => if ue == i then Some(OwnJob(job)) else None
  }

  function Of<T>(s: seq<Tagged<T>>, i: nat): seq<T> {
    if s == [] then [] else (if s[0].ue == i then [s[0].rec] else []) + Of(s[1..], i)
  }

  /** UE `i`'s state, its events and the ticks, and its entries in every shared list. */
  function View(s: Sys, i: nat, now: real): Local
    requires i < |s.ues|
  {
    Local(now, s.ues[i], Sift(s.queue, Mine(i)), Of(s.predictions, i), Of(s.validations, i),
          Of(s.followups, i), Of(s.lines, i), Of(s.rows, i))
  }

  // ----- selecting commutes with everything the system does to a list -----

  lemma {:induction false} OfAppend<T>(a: seq<Tagged<T>>, b: seq<Tagged<T>>, i: nat)
    ensures Of(a + b, i) == Of(a, i) + Of(b, i)
  {
    hide Of;
    if a == [] {
      OfNone<T>(i);
      assert a + b == b;
    } else {
      OfAppend(a[1..], b, i);
      OfCons(a[0], a[1..] + b, i);
      OfCons(a[0], a[1..], i);
      assert a + b == [a[0]] + (a[1..] + b) && a == [a[0]] + a[1..];
    }
  }

  lemma OfNone<T>(i: nat)
    ensures Of<T>([], i) == []
  {
  }

  lemma OfCons<T>(x: Tagged<T>, s: seq<Tagged<T>>, i: nat)
    ensures Of([x] + s, i) == (if x.ue == i then [x.rec] else []) + Of(s, i)
  {
    assert ([x] + s)[1..] == s;
  }

  lemma {:induction false} OfTag<T>(ue: nat, recs: seq<T>, i: nat)
    ensures Of(Tag(ue, recs), i) == if ue == i then recs else []
  {
    if recs != [] {
      assert Tag(ue, recs)[1..] == Tag(ue, recs[1..]);
      OfTag(ue, recs[1..], i);
    }
  }

  lemma OfExtended<T>(s: seq<Tagged<T>>, ue: nat, recs: seq<T>, i: nat)
    ensures Of(s + Tag(ue, recs), i) == if ue == i then Of(s, i) + recs else Of(s, i)
  {
    OfAppend(s, Tag(ue, recs), i);
    OfTag(ue, recs, i);
  }

  lemma KeepSplits<T>(head: seq<T>, rest: seq<T>, p: T -> bool)
    requires |head| <= 1
    ensures Keep(head + rest, p) == Keep(head, p) + Keep(rest, p)
  {
    if head == [] {
      assert head + rest == rest;
    } else {
      assert (head + rest)[1..] == rest;
      assert Keep(head, p) == if p(head[0]) then [head[0]] else [];
    }
  }

  lemma {:induction false} OfKeepFor<T>(s: seq<Tagged<T>>, who: Option<nat>, p: T -> bool, i: nat)
    ensures Of(KeepFor(s, who, p), i) == if Concerns(who, i) then Keep(Of(s, i), p) else Of(s, i)
  {
    if s != [] {
      OfKeepFor(s[1..], who, p, i);
      var head := if Concerns(who, s[0].ue) && !p(s[0].rec) then [] else [s[0]];
      OfAppend(head, KeepFor(s[1..], who, p), i);
      KeepSplits(if s[0].ue == i then [s[0].rec] else [], Of(s[1..], i), p);
    }
  }

  lemma {:induction false} SiftSchedule(q: seq<Timed<Act>>, ue: nat, jobs: seq<Timed<Job>>, i: nat, t: real)
    requires Sorted(q) && AllFrom(q, t) && AllFrom(jobs, t)
    ensures Sorted(Schedule(q, ue, jobs)) && AllFrom(Schedule(q, ue, jobs), t)
    ensures Sift(Schedule(q, ue, jobs), Mine(i)) ==
            if ue == i then ScheduleOwn(Sift(q, Mine(i)), jobs) else Sift(q, Mine(i))
    decreases jobs
  {
    if jobs != [] {
      var e := Timed(jobs[0].time, Own(ue, jobs[0].act));
      SiftInsert(q, e, Mine(i));
      InsertKeepsOrder(q, e, t);
      SiftSchedule(Insert(q, e), ue, jobs[1..], i, t);
    }
  }

  /** Every delay is nonnegative, so nothing is scheduled in the past. */
  ghost predicate DelaysOk(ue: Ue) {
    ue.proc.downlinkDelay >= 0.0
  }

  ghost predicate TimesOk(env: Env, s: Sys) {
    && Sorted(s.queue) && AllFrom(s.queue, s.now)
    && forall i :: 0 <= i < |s.ues| ==> DelaysOk(s.ues[i]) && CacheOk(env, s.ues[i].cache)
  }

  lemma DelayIsPositive(env: Env, cache: Cache, cell: Cell)
    requires CacheOk(env, cache)
    ensures UplinkDelay(cache, cell) >= 0.0
  {
  }

  lemma TriggerTimes(env: Env, ue: Ue, t: real, r: Report)
    requires DelaysOk(ue) && CacheOk(env, ue.cache)
    ensures var o := Trigger(ue, t, r); AllFrom(o.jobs, t) && DelaysOk(o.ue) && CacheOk(env, o.ue.cache)
  {
    hide UplinkDelay, Count, CacheOk;
    DelayIsPositive(env, ue.cache, r.serving);
  }

  lemma AnnounceTimes(env: Env, t: real, s: Measurement, best: Option<Measurement>, fired: bool, o: Outcome)
    requires AllFrom(o.jobs, t)
    ensures AllFrom(Announce(env, t, s, best, fired, o).jobs, t) && Announce(env, t, s, best, fired, o).ue == o.ue
  {
  }

  lemma MeasureTimes(env: Env, ue: Ue, t: real)
    requires DelaysOk(ue) && CacheOk(env, ue.cache)
    ensures var o := Measure(env, ue, t);
            AllFrom(o.jobs, t) && DelaysOk(o.ue) && CacheOk(env, o.ue.cache)
  {
    hide Detected, FindCell, MeasureServing, Trigger, CacheOk;
    var ms := Detected(env, ue.cache, t, |env.satellites|);
    match FindCell(ms, ue.meas.serving) {
      case None =>
        var lost := ue.(context := ClearContext(env.cfg, ue), occasions := ue.occasions + [RadioLinkFailure(t)]);
        TriggerTimes(env, lost, t, Report(ue.meas.serving, NO_SNR, NO_CELL, NO_SNR));
      case Some(s) =>
        ServingTimes(env, ue, t, ms, s);
    }
  }

  lemma ServingTimes(env: Env, ue: Ue, t: real, ms: seq<Measurement>, s: Measurement)
    requires DelaysOk(ue) && CacheOk(env, ue.cache)
    ensures var o := MeasureServing(env, ue, t, ms, s);
            AllFrom(o.jobs, t) && DelaysOk(o.ue) && CacheOk(env, o.ue.cache)
  {
    hide TakeSurvey, Decide, ContextAfter, Trigger, Announce, CacheOk;
    SurveyFrame(env, ue, t, ms, s);
    var v := TakeSurvey(env, ue, t, ms, s);
    var bestCell := if v.best.Some? then v.best.value.cell else NO_CELL;
    var (meas, due) := Decide(env.cfg, v.ue.meas, t, v.fired, bestCell);
    var decided := v.ue.(
      meas := meas,
      context := ContextAfter(env.cfg, v.ue, t, s, v.best, v.fired),
      occasions := v.ue.occasions + [if v.fired then Fired(t, bestCell) else NotFired(t)]);
    var o := Only(decided);
    if due && v.best.Some? {
      var r := Report(s.cell, s.metrics.snr, bestCell, v.best.value.metrics.snr);
      TriggerTimes(env, decided, t, r);
      o := Trigger(decided, t, r);
    }
    AnnounceTimes(env, t, s, v.best, v.fired, o);
  }

  lemma CheckTimes(env: Env, ue: Ue, t: real)
    requires DelaysOk(ue) && CacheOk(env, ue.cache)
    ensures var o := Protocol.CheckHandover(env, ue, t);
            AllFrom(o.jobs, t) && DelaysOk(o.ue) && CacheOk(env, o.ue.cache)
  {
    hide Measure, ConditionMet, AppliedRate, Count, UplinkDelay, CacheOk;
    DelayIsPositive(env, ue.cache, ue.proc.source);
    DelayIsPositive(env, ue.cache, ue.proc.target);
    if ue.proc.phase == Idle {
      var meas := Resync(ue, t);
      MeasureTimes(env, ue.(meas := meas.(lastTime := t)), t);
    }
  }

  lemma HopTimes(env: Env, ue: Ue, t: real, hop: Hop, source: Cell, target: Cell)
    requires ValidEnv(env) && DelaysOk(ue) && CacheOk(env, ue.cache)
    ensures var o := HandleHop(env, ue, t, hop, source, target);
            AllFrom(o.jobs, t) && DelaysOk(o.ue) && CacheOk(env, o.ue.cache)
  {
    assert env.islDelay(source, target, t) >= 0.0 && env.islDelay(target, source, t) >= 0.0;
  }

  // ----- one step -----

  lemma CommitView(s: Sys, j: nat, o: Outcome, i: nat, now: real)
    requires i < |s.ues| && j < |s.ues|
    requires Sorted(s.queue) && AllFrom(s.queue, s.now) && AllFrom(o.jobs, s.now)
    ensures View(Commit(s, j, o), i, now) == if i == j then CommitOwn(View(s, i, now), o) else View(s, i, now)
    ensures Sorted(Commit(s, j, o).queue) && AllFrom(Commit(s, j, o).queue, s.now)
  {
    hide Of, Tag, Sift, Schedule, Count;
    SiftSchedule(s.queue, j, o.jobs, i, s.now);
    OfExtended(s.predictions, j, o.predictions, i);
    OfExtended(s.validations, j, o.validations, i);
    OfExtended(s.followups, j, o.followups, i);
    OfExtended(s.lines, j, o.lines, i);
    OfExtended(s.rows, j, o.rows, i);
  }

  lemma CommitFrame(s: Sys, j: nat, o: Outcome)
    requires j < |s.ues|
    ensures Commit(s, j, o).ues == s.ues[j := o.ue] && Commit(s, j, o).now == s.now
  {
  }

  lemma {:induction false} ChecksView(env: Env, s: Sys, k: nat, i: nat, now: real)
    requires TimesOk(env, s) && k <= |s.ues| && i < |s.ues|
    ensures var v, r := View(s, i, now), CheckHandovers(env, s, k);
            && TimesOk(env, r)
            && View(r, i, now) == if i < k then CommitOwn(v, Protocol.CheckHandover(env, v.ue, s.now)) else v
  {
    hide Of, Sift, Commit, CommitOwn, Protocol.CheckHandover;
    if k > 0 {
      ChecksView(env, s, k - 1, i, now);
      var s' := CheckHandovers(env, s, k - 1);
      var o := Protocol.CheckHandover(env, s'.ues[k - 1], s'.now);
      CheckTimes(env, s'.ues[k - 1], s'.now);
      CommitView(s', k - 1, o, i, now);
      CommitFrame(s', k - 1, o);
    }
  }

  lemma PreparedView(env: Env, s: Sys, i: nat)
    requires TimesOk(env, s) && i < |s.ues|
    ensures View(Prepared(env, s), i, s.now) == PreparedOwn(env, View(s, i, s.now))
    ensures TimesOk(env, Prepared(env, s))
  {
    OfKeepFor(s.validations, None, ValidationPending(s.now), i);
    OfKeepFor(s.followups, None, FollowupPending(s.now), i);
    forall j | 0 <= j < |s.ues|
      ensures DelaysOk(Prepared(env, s).ues[j]) && CacheOk(env, Prepared(env, s).ues[j].cache)
    {
      RefreshFrame(env, s.ues[j], s.now, |env.satellites|);
    }
  }

  lemma TickView(env: Env, s: Sys, i: nat)
    requires TimesOk(env, s) && i < |s.ues|
    ensures View(HandleTick(env, s), i, s.now) == TickOwn(env, View(s, i, s.now))
    ensures TimesOk(env, HandleTick(env, s))
  {
    hide Commit, CheckHandovers, Protocol.CheckHandover, Sift, Insert, Of;
    PreparedView(env, s, i);
    var p := Prepared(env, s);
    ChecksView(env, p, |s.ues|, i, s.now);
    var checked := CheckHandovers(env, p, |s.ues|);
    SiftInsert(checked.queue, Timed(s.now + TICK_PERIOD, Tick), Mine(i));
    InsertKeepsOrder(checked.queue, Timed(s.now + TICK_PERIOD, Tick), s.now);
  }

  lemma TickUes(env: Env, s: Sys)
    ensures |HandleTick(env, s).ues| == |s.ues|
  {
    hide Protocol.CheckHandover, Commit;
  }

  lemma JobUes(env: Env, s: Sys, i: nat, job: Job)
    requires i < |s.ues|
    ensures |HandleJob(env, s, i, job).ues| == |s.ues|
  {
    hide HandleHop, Schedule, Count, Tag, KeepFor;
  }

  lemma JobView(env: Env, s: Sys, j: nat, job: Job, i: nat, now: real)
    requires ValidEnv(env) && TimesOk(env, s) && i < |s.ues| && j < |s.ues|
    ensures i == j ==> View(HandleJob(env, s, j, job), i, s.now) == JobOwn(env, View(s, i, s.now), job)
    ensures i != j ==> View(HandleJob(env, s, j, job), i, now) == View(s, i, now)
    ensures TimesOk(env, HandleJob(env, s, j, job))
  {
    match job
    case HopJob(hop, source, target) =>
      var o := HandleHop(env, s.ues[j], s.now, hop, source, target);
      HopTimes(env, s.ues[j], s.now, hop, source, target);
      CommitView(s, j, o, i, s.now);
      CommitView(s, j, o, i, now);
    case PredictJob(p) =>
      OfKeepFor(s.predictions, Some(j), NotSame(p), i);
  }

  /** An event of another UE is invisible; a tick, or an event of its own, is a step of the UE alone. */
  lemma StepView(env: Env, s: Sys, i: nat, now: real)
    requires ValidEnv(env) && TimesOk(env, s) && i < |s.ues| && s.queue != []
    ensures TimesOk(env, Step(env, s)) && |Step(env, s).ues| == |s.ues|
    ensures var mine := Mine(i)(s.queue[0].act).Some?;
            && (mine ==> View(Step(env, s), i, s.queue[0].time) == StepOwn(env, View(s, i, now)))
            && (!mine ==> View(Step(env, s), i, now) == View(s, i, now))
  {
    hide HandleTick, HandleJob, JobOwn, TickOwn, Of;
    var e := s.queue[0];
    var popped := s.(now := e.time, queue := s.queue[1..]);
    assert TimesOk(env, popped);
    var l := View(s, i, now);
    assert Mine(i)(e.act).Some? ==> l.queue[1..] == Sift(s.queue[1..], Mine(i));
    match e.act
    case Tick =>
      TickView(env, popped, i);
      TickUes(env, popped);
    case Own(j, job) =>
      if j < |s.ues| {
        JobUes(env, popped, j, job);
        JobView(env, popped, j, job, i, now);
      }
  }

  // ----- whole runs -----

  lemma StepTimes(env: Env, s: Sys)
    requires ValidEnv(env) && TimesOk(env, s) && |s.ues| > 0
    ensures TimesOk(env, Step(env, s)) && |Step(env, s).ues| == |s.ues| && s.now <= Step(env, s).now
  {
    hide View;
    if s.queue != [] {
      StepView(env, s, 0, 0.0);
    }
  }

  lemma StartIsOrdered(env: Env, ues: seq<Ue>)
    requires forall i :: 0 <= i < |ues| ==> Initial(ues[i])
    ensures TimesOk(env, Start(ues))
    ensures forall i :: 0 <= i < |ues| ==> View(Start(ues), i, 0.0) == StartOwn(ues[i])
  {
  }

  /** Nothing is ever scheduled in the past: the queue stays in order and the clock never goes back. */
  lemma {:induction false} RunIsOrdered(env: Env, ues: seq<Ue>, run: nat -> Sys, n: nat)
    requires Starting(env, ues) && IsRun(env, ues, run) && |ues| > 0
    ensures TimesOk(env, run(n)) && |run(n).ues| == |ues|
    ensures n > 0 ==> run(n - 1).now <= run(n).now
  {
    hide Step, TimesOk, Initial;
    if n == 0 {
      StartIsOrdered(env, ues);
    } else {
      RunIsOrdered(env, ues, run, n - 1);
      StepTimes(env, run(n - 1));
      assert run(n) == Step(env, run(n - 1));
    }
  }

  /** Whether the next event is a tick or one of the UE's own. */
  predicate NextIsOwn(s: Sys, i: nat) {
    s.queue != [] && Mine(i)(s.queue[0].act).Some?
  }

  /** How many of the first `n` events of a run concern UE `i`. */
  function OwnEvents(run: nat -> Sys, i: nat, n: nat): nat {
    if n == 0 then 0 else OwnEvents(run, i, n - 1) + if NextIsOwn(run(n - 1), i) then 1 else 0
  }

  /** After any number of events of the whole system, from any state, UE `i` is where as many steps of
      its own take it as it had events. */
  lemma {:induction false} ViewAfter(env: Env, run: nat -> Sys, i: nat, n: nat) returns (l: Local)
    requires ValidEnv(env) && Follows(env, run) && TimesOk(env, run(0)) && i < |run(0).ues|
    ensures |run(n).ues| == |run(0).ues| && TimesOk(env, run(n))
    ensures l == RunOwn(env, View(run(0), i, run(0).now), OwnEvents(run, i, n))
    ensures l == View(run(n), i, l.now) && l.now <= run(n).now
  {
    hide Step, StepOwn, TimesOk, Of, Sift, NextIsOwn;
    if n == 0 {
      l := View(run(0), i, run(0).now);
    } else {
      var alone := ViewAfter(env, run, i, n - 1);
      var before := run(n - 1);
      StepTimes(env, before);
      OneStep(env, before, i, alone);
      assert run(n) == Step(env, before);
      l := if NextIsOwn(before, i) then StepOwn(env, alone) else alone;
    }
  }

  lemma OwnMoment(env: Env, ues: seq<Ue>, run: nat -> Sys, i: nat, n: nat) returns (m: nat, l: Local)
    requires Starting(env, ues) && IsRun(env, ues, run) && i < |ues|
    ensures |run(n).ues| == |ues| && TimesOk(env, run(n))
    ensures m == OwnEvents(run, i, n) && l == RunOwn(env, StartOwn(ues[i]), m)
    ensures l == View(run(n), i, l.now) && l.now <= run(n).now
  {
    hide Step, RunOwn, TimesOk, Initial;
    StartIsOrdered(env, ues);
    m := OwnEvents(run, i, n);
    l := ViewAfter(env, run, i, n);
  }

  lemma OneStep(env: Env, s: Sys, i: nat, alone: Local)
    requires ValidEnv(env) && TimesOk(env, s) && i < |s.ues| && |Step(env, s).ues| == |s.ues|
    requires View(s, i, alone.now) == alone && alone.now <= s.now <= Step(env, s).now
    ensures var after := if NextIsOwn(s, i) then StepOwn(env, alone) else alone;
            View(Step(env, s), i, after.now) == after && after.now <= Step(env, s).now
  {
    if s.queue != [] {
      StepView(env, s, i, alone.now);
    }
  }

  // ----- a system that has one UE only -----

  ghost predicate AllMine(q: seq<Timed<Act>>) {
    forall k :: 0 <= k < |q| ==> Mine(0)(q[k].act).Some?
  }

  lemma {:induction false} InsertMine(q: seq<Timed<Act>>, e: Timed<Act>)
    requires AllMine(q) && Mine(0)(e.act).Some?
    ensures AllMine(Insert(q, e))
  {
    if q != [] && q[0].time <= e.time {
      InsertMine(q[1..], e);
    }
  }

  lemma {:induction false} ScheduleMine(q: seq<Timed<Act>>, jobs: seq<Timed<Job>>)
    requires AllMine(q)
    ensures AllMine(Schedule(q, 0, jobs))
    decreases jobs
  {
    if jobs != [] {
      var e := Timed(jobs[0].time, Own(0, jobs[0].act));
      InsertMine(q, e);
      ScheduleMine(Insert(q, e), jobs[1..]);
    }
  }

  lemma StepMine(env: Env, s: Sys)
    requires |s.ues| == 1 && AllMine(s.queue)
    ensures |Step(env, s).ues| == 1 && AllMine(Step(env, s).queue)
  {
    hide Schedule, Insert, HandleHop, HandleTick, AllMine, Count, Tag, KeepFor;
    if s.queue != [] {
      var e, popped := s.queue[0], s.(now := s.queue[0].time, queue := s.queue[1..]);
      RestMine(s.queue);
      match e.act
      case Tick => TickMine(env, popped);
      case Own(_, HopJob(hop, source, target)) =>
        ScheduleMine(popped.queue, HandleHop(env, s.ues[0], popped.now, hop, source, target).jobs);
      case Own(_, PredictJob(_)) =>
    }
  }

  lemma RestMine(q: seq<Timed<Act>>)
    requires AllMine(q) && q != []
    ensures AllMine(q[1..]) && (q[0].act.Own? ==> q[0].act.ue == 0)
  {
    assert Mine(0)(q[0].act).Some?;
  }

  lemma TickMine(env: Env, s: Sys)
    requires |s.ues| == 1 && AllMine(s.queue)
    ensures |HandleTick(env, s).ues| == 1 && AllMine(HandleTick(env, s).queue)
  {
    hide Schedule, Insert, Protocol.CheckHandover, AllMine, Count, Tag, KeepFor;
    var p := Prepared(env, s);
    var o := Protocol.CheckHandover(env, p.ues[0], p.now);
    assert CheckHandovers(env, p, 1) == Commit(CheckHandovers(env, p, 0), 0, o);
    ScheduleMine(p.queue, o.jobs);
    InsertMine(Schedule(p.queue, 0, o.jobs), Timed(s.now + TICK_PERIOD, Tick));
  }

  lemma SoloStep(env: Env, s: Sys)
    requires ValidEnv(env) && TimesOk(env, s) && |s.ues| == 1 && AllMine(s.queue)
    ensures TimesOk(env, Step(env, s)) && |Step(env, s).ues| == 1 && AllMine(Step(env, s).queue)
    ensures View(Step(env, s), 0, Step(env, s).now) == StepOwn(env, View(s, 0, s.now))
  {
    hide Step, StepOwn, Of, Sift, TimesOk;
    if s.queue == [] {
      NothingHappens(env, s);
    } else {
      StepView(env, s, 0, s.now);
      StepMine(env, s);
      StepNow(env, s);
    }
  }

  lemma NothingHappens(env: Env, s: Sys)
    requires s.queue == [] && |s.ues| > 0
    ensures Step(env, s) == s && StepOwn(env, View(s, 0, s.now)) == View(s, 0, s.now)
  {
  }

  /** A run with one UE is exactly a run of that UE's own steps, clock included. */
  lemma {:induction false} SoloRun(env: Env, ue: Ue, solo: nat -> Sys, n: nat)
    requires Starting(env, [ue]) && IsRun(env, [ue], solo)
    ensures TimesOk(env, solo(n)) && |solo(n).ues| == 1 && AllMine(solo(n).queue)
    ensures View(solo(n), 0, solo(n).now) == RunOwn(env, StartOwn(ue), n)
  {
    hide Step, StepOwn, TimesOk, Initial;
    if n == 0 {
      StartIsOrdered(env, [ue]);
    } else {
      SoloRun(env, ue, solo, n - 1);
      SoloStep(env, solo(n - 1));
      assert solo(n) == Step(env, solo(n - 1));
    }
  }

  lemma StepNow(env: Env, s: Sys)
    requires s.queue != []
    ensures Step(env, s).now == s.queue[0].time
  {
  }

  /** UE independence over whole runs: at every moment of every run with any UEs, the state of UE
      `i`, its events and its entries in every shared list are those of the run in which that UE is
      the only one, after as many events as the UE had. */
  lemma UesAreIndependent(env: Env, ues: seq<Ue>, run: nat -> Sys, i: nat, solo: nat -> Sys, n: nat)
    requires Starting(env, ues) && i < |ues| && IsRun(env, ues, run) && IsRun(env, [ues[i]], solo)
    ensures var m := OwnEvents(run, i, n);
            && |run(n).ues| == |ues| && |solo(m).ues| == 1
            && View(run(n), i, solo(m).now) == View(solo(m), 0, solo(m).now) && solo(m).now <= run(n).now
  {
    hide RunOwn, TimesOk, Initial, OwnEvents;
    var m, l := OwnMoment(env, ues, run, i, n);
    SoloRun(env, ues[i], solo, m);
  }

  // ----- the order of simultaneous events of different UEs -----

  lemma SwapSift(a: Timed<Act>, b: Timed<Act>, i: nat)
    requires a.act.Own? && b.act.Own? && a.act.ue != b.act.ue
    ensures Sift([a], Mine(i)) == [] || Sift([b], Mine(i)) == []
  {
  }

  lemma SwapIsOrdered(q: seq<Timed<Act>>, r: seq<Timed<Act>>, rest: seq<Timed<Act>>, t: real, now: real)
    requires |q| == |r| == |rest| + 2 && q[2..] == rest == r[2..]
    requires q[0].time == q[1].time == r[0].time == r[1].time == t
    requires Sorted(q) && AllFrom(q, now)
    ensures Sorted(r) && AllFrom(r, now)
  {
    assert forall x :: 0 <= x < |q| ==> r[x].time == q[x].time by {
      forall x | 2 <= x < |q| ensures r[x] == q[x] {
        assert r[x] == r[2..][x - 2] && q[x] == q[2..][x - 2];
      }
    }
  }

  lemma SiftPair(a: Timed<Act>, b: Timed<Act>, rest: seq<Timed<Act>>, i: nat)
    ensures Sift([a, b] + rest, Mine(i)) == Sift([a], Mine(i)) + (Sift([b], Mine(i)) + Sift(rest, Mine(i)))
  {
    assert ([a, b] + rest)[1..] == [b] + rest;
    assert ([b] + rest)[1..] == rest;
  }
}
