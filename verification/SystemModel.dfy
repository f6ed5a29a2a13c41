/** Whole runs: the simulator with any number of UEs sharing one event queue, and the same engine
    with a single UE. */
module SystemModel {
  import opened ChoTypes
  import opened Agenda
  import opened Channel
  import opened Protocol

  const TICK_PERIOD := 1.0

  lemma NextWhole(t: real)
    requires Whole(t)
    ensures Whole(t + TICK_PERIOD)
  {
    var n := t.Floor + 1;
    assert t + TICK_PERIOD == n as real;
  }

  datatype Act = Tick | Own(ue: nat, job: Job)

  /** A record in a list all UEs share. */
  datatype Tagged<+T> = Tagged(ue: nat, rec: T)

  datatype Sys = Sys(
    now: real,
    ues: seq<Ue>,
    queue: seq<Timed<Act>>,
    stats: Statistics,
    handovers: nat,
    cancels: nat,
    predictions: seq<Tagged<Prediction>>,
    validations: seq<Tagged<Validation>>,
    followups: seq<Tagged<Followup>>,
    lines: seq<Tagged<Line>>,
    rows: seq<Tagged<Row>>)

  // ----- list operations -----

  function Tag<T>(ue: nat, recs: seq<T>): seq<Tagged<T>> {
    if recs == [] then [] else [Tagged(ue, recs[0])] + Tag(ue, recs[1..])
  }

  function Keep<T>(s: seq<T>, p: T -> bool): seq<T> {
    if s == [] then [] else (if p(s[0]) then [s[0]] else []) + Keep(s[1..], p)
  }

  predicate Concerns(who: Option<nat>, ue: nat) {
    who.None? || who.value == ue
  }

  /** Drop the records of `who` (or of everyone) that fail `p`. */
  function KeepFor<T>(s: seq<Tagged<T>>, who: Option<nat>, p: T -> bool): seq<Tagged<T>> {
    if s == [] then []
    else (if Concerns(who, s[0].ue) && !p(s[0].rec) then [] else [s[0]]) + KeepFor(s[1..], who, p)
  }

  function NotSame(p: Prediction): Prediction -> bool {
    (q: Prediction) => !(q.serving == p.serving && q.neighbor == p.neighbor
                         && -0.000000001 < q.decisionTime - p.decisionTime < 0.000000001)
  }

  function ValidationPending(t: real): Validation -> bool {
    (v: Validation) => t < v.verificationTime
  }

  function FollowupPending(t: real): Followup -> bool {
    (f: Followup) => t < f.verificationTime
  }

  /** The events `jobs` of a UE enter the shared queue one by one. */
  function Schedule(queue: seq<Timed<Act>>, ue: nat, jobs: seq<Timed<Job>>): seq<Timed<Act>>
    decreases jobs
  {
    if jobs == [] then queue
    else Schedule(Insert(queue, Timed(jobs[0].time, Own(ue, jobs[0].act))), ue, jobs[1..])
  }

  lemma ScheduleOne(q: seq<Timed<Act>>, i: nat, job: Timed<Job>)
    ensures Schedule(q, i, [job]) == Insert(q, Timed(job.time, Own(i, job.act)))
  {
    assert Schedule(q, i, [job]) == Schedule(Insert(q, Timed(job.time, Own(i, job.act))), i, [job][1..]);
  }

  // ----- a step of the whole system -----

  /** What a handler of UE `i` did, recorded in the shared state. */
  function Commit(s: Sys, i: nat, o: Outcome): Sys
    requires i < |s.ues|
  {
    s.(ues := s.ues[i := o.ue],
       queue := Schedule(s.queue, i, o.jobs),
       stats := Count(s.stats, o.bump),
       handovers := s.handovers + if o.bump.HandoverDone? then 1 else 0,
       cancels := s.cancels + o.cancels,
       predictions := s.predictions + Tag(i, o.predictions),
       validations := s.validations + Tag(i, o.validations),
       followups := s.followups + Tag(i, o.followups),
       lines := s.lines + Tag(i, o.lines),
       rows := s.rows + Tag(i, o.rows))
  }

  function RefreshAll(env: Env, ues: seq<Ue>, t: real): (r: seq<Ue>)
    ensures |r| == |ues| && forall i :: 0 <= i < |ues| ==> r[i] == Refresh(env, ues[i], t, |env.satellites|)
  {
    seq(|ues|, i requires 0 <= i < |ues| => Refresh(env, ues[i], t, |env.satellites|))
  }

  function ApplyChannels(env: Env, ues: seq<Ue>, t: real): (r: seq<Ue>)
    ensures |r| == |ues| && forall i :: 0 <= i < |ues| ==> r[i] == ApplyChannel(env, ues[i], t)
  {
    seq(|ues|, i requires 0 <= i < |ues| => ApplyChannel(env, ues[i], t))
  }

  /** The trend records are kept by the trend-aware strategy alone. */
  function VerifyPending(env: Env, s: Sys): Sys {
    if env.cfg.strategy != TdCho then s
    else s.(validations := KeepFor(s.validations, None, ValidationPending(s.now)),
            followups := KeepFor(s.followups, None, FollowupPending(s.now)))
  }

  function CheckHandovers(env: Env, s: Sys, k: nat): (r: Sys)
    requires k <= |s.ues|
    ensures |r.ues| == |s.ues| && r.now == s.now
    ensures forall i :: k <= i < |s.ues| ==> r.ues[i] == s.ues[i]
  {
    if k == 0 then s
    else
      var s' := CheckHandovers(env, s, k - 1);
      Commit(s', k - 1, Protocol.CheckHandover(env, s'.ues[k - 1], s'.now))
  }

  /** Up to the per-UE decisions. */
  function Prepared(env: Env, s: Sys): Sys {
    VerifyPending(env, s.(ues := ApplyChannels(env, RefreshAll(env, s.ues, s.now), s.now)))
  }

  /** CheckHandoverConditions */
  function HandleTick(env: Env, s: Sys): Sys {
    var checked := CheckHandovers(env, Prepared(env, s), |s.ues|);
    checked.(queue := Insert(checked.queue, Timed(s.now + TICK_PERIOD, Tick)))
  }

  function HandleJob(env: Env, s: Sys, i: nat, job: Job): Sys
    requires i < |s.ues|
  {
    match job
    case HopJob(hop, source, target) => Commit(s, i, HandleHop(env, s.ues[i], s.now, hop, source, target))
    case PredictJob(p) => s.(predictions := KeepFor(s.predictions, Some(i), NotSame(p)))
  }

  /** Take the next event off the queue and handle it. */
  function Step(env: Env, s: Sys): Sys {
    if s.queue == [] then s
    else
      var e, popped := s.queue[0], s.(now := s.queue[0].time, queue := s.queue[1..]);
      match e.act
      case Tick => HandleTick(env, popped)
      case Own(i, job) => if i < |s.ues| then HandleJob(env, popped, i, job) else popped
  }

  predicate TickNext(s: Sys) {
    s.queue != [] && s.queue[0].act == Tick
  }

  function Run(env: Env, s: Sys, n: nat): Sys {
    if n == 0 then s else Step(env, Run(env, s, n - 1))
  }

  function Start(ues: seq<Ue>): Sys {
    Sys(0.0, ues, [Timed(0.0, Tick)], NO_STATISTICS, 0, 0, [], [], [], [], [])
  }

  /** What every theorem assumes of the world and of the UEs at the start. */
  ghost predicate Starting(env: Env, ues: seq<Ue>) {
    ValidEnv(env) && forall i :: 0 <= i < |ues| ==> Initial(ues[i])
  }

  /** One event after the other, from whatever state. */
  ghost predicate Follows(env: Env, run: nat -> Sys) {
    forall n: nat {:trigger Step(env, run(n))} :: run(n + 1) == Step(env, run(n))
  }

  /** A run of the simulator: from the start, one event after the other. */
  ghost predicate IsRun(env: Env, ues: seq<Ue>, run: nat -> Sys) {
    run(0) == Start(ues) && Follows(env, run)
  }

  /** Every population has a run, and `RunIs` says it has only one. */
  lemma RunExists(env: Env, ues: seq<Ue>)
    ensures IsRun(env, ues, (n: nat) => Run(env, Start(ues), n))
  {
    hide Step, Start;
    forall n: nat ensures Run(env, Start(ues), n + 1) == Step(env, Run(env, Start(ues), n)) {
    }
  }

  lemma {:induction false} RunIs(env: Env, ues: seq<Ue>, run: nat -> Sys, n: nat)
    requires IsRun(env, ues, run)
    ensures run(n) == Run(env, Start(ues), n)
  {
    hide Step, Start;
    if n > 0 {
      RunIs(env, ues, run, n - 1);
      assert run(n) == Step(env, run(n - 1));
    }
  }

  // ----- the engine with one UE -----

  datatype OwnAct = OwnTick | OwnJob(job: Job)

  datatype Local = Local(
    now: real,
    ue: Ue,
    queue: seq<Timed<OwnAct>>,
    predictions: seq<Prediction>,
    validations: seq<Validation>,
    followups: seq<Followup>,
    lines: seq<Line>,
    rows: seq<Row>)

  function ScheduleOwn(queue: seq<Timed<OwnAct>>, jobs: seq<Timed<Job>>): seq<Timed<OwnAct>>
    decreases jobs
  {
    if jobs == [] then queue
    else ScheduleOwn(Insert(queue, Timed(jobs[0].time, OwnJob(jobs[0].act))), jobs[1..])
  }

  lemma ScheduleOwnOne(q: seq<Timed<OwnAct>>, job: Timed<Job>)
    ensures ScheduleOwn(q, [job]) == Insert(q, Timed(job.time, OwnJob(job.act)))
  {
    assert ScheduleOwn(q, [job]) == ScheduleOwn(Insert(q, Timed(job.time, OwnJob(job.act))), [job][1..]);
  }

  function CommitOwn(l: Local, o: Outcome): Local {
    l.(ue := o.ue,
       queue := ScheduleOwn(l.queue, o.jobs),
       predictions := l.predictions + o.predictions,
       validations := l.validations + o.validations,
       followups := l.followups + o.followups,
       lines := l.lines + o.lines,
       rows := l.rows + o.rows)
  }

  function PreparedUe(env: Env, ue: Ue, t: real): Ue {
    ApplyChannel(env, Refresh(env, ue, t, |env.satellites|), t)
  }

  function VerifyOwn(env: Env, l: Local): Local {
    if env.cfg.strategy != TdCho then l
    else l.(validations := Keep(l.validations, ValidationPending(l.now)),
            followups := Keep(l.followups, FollowupPending(l.now)))
  }

  function PreparedOwn(env: Env, l: Local): Local {
    VerifyOwn(env, l.(ue := PreparedUe(env, l.ue, l.now)))
  }

  function TickOwn(env: Env, l: Local): Local {
    var p := PreparedOwn(env, l);
    var checked := CommitOwn(p, Protocol.CheckHandover(env, p.ue, l.now));
    checked.(queue := Insert(checked.queue, Timed(l.now + TICK_PERIOD, OwnTick)))
  }

  function JobOwn(env: Env, l: Local, job: Job): Local {
    match job
    case HopJob(hop, source, target) => CommitOwn(l, HandleHop(env, l.ue, l.now, hop, source, target))
    case PredictJob(p) => l.(predictions := Keep(l.predictions, NotSame(p)))
  }

  function Pop(l: Local): Local
    requires l.queue != []
  {
    l.(now := l.queue[0].time, queue := l.queue[1..])
  }

  function StepOwn(env: Env, l: Local): Local {
    if l.queue == [] then l
    else
      match l.queue[0].act
      case OwnTick => TickOwn(env, Pop(l))
      case OwnJob(job) => JobOwn(env, Pop(l), job)
  }

  function RunOwn(env: Env, l: Local, n: nat): Local {
    if n == 0 then l else StepOwn(env, RunOwn(env, l, n - 1))
  }

  function StartOwn(ue: Ue): Local {
    Local(0.0, ue, [Timed(0.0, OwnTick)], [], [], [], [], [])
  }
}
