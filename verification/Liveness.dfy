/** Time never stops, and every procedure ends before its deadline. */
module Liveness {
  import opened ChoTypes
  import opened Agenda
  import opened Channel
  import opened Protocol
  import opened SystemModel
  import opened Independence
  import opened Lockstep
  import opened StepCases
  import opened Reachable
  import opened Timing

  // ----- only finitely many events lie between two ticks -----

  /** How many events can still follow from one, itself included, without a tick. */
  function Weight(act: Act): nat {
    match act
    case Tick => 0
    case Own(_, job) => JobWeight(job)
  }

  function JobWeight(job: Job): nat {
    match job
    case PredictJob(_) => 1
    case HopJob(hop, _, _) =>
      match hop
      case ReportArrived => 5
      case SendXnRequest => 4
      case XnResponse => 3
      case SendRrcReconfig => 2
      case UeStoresConfig => 1
      case ExecutionComplete => 1
  }

  function QueueWeight(q: seq<Timed<Act>>): nat {
    if q == [] then 0 else Weight(q[0].act) + QueueWeight(q[1..])
  }

  lemma {:induction false} InsertWeight(q: seq<Timed<Act>>, e: Timed<Act>)
    ensures QueueWeight(Insert(q, e)) == QueueWeight(q) + Weight(e.act)
  {
    hide Weight;
    if q == [] || e.time < q[0].time {
      assert ([e] + q)[1..] == q;
    } else {
      InsertWeight(q[1..], e);
      assert Insert(q, e)[1..] == Insert(q[1..], e);
    }
  }

  /** A hop schedules at most one event, and a lighter one. */
  lemma HopWeight(env: Env, ue: Ue, t: real, hop: Hop, source: Cell, target: Cell)
    ensures var jobs := HandleHop(env, ue, t, hop, source, target).jobs;
            jobs == [] || (|jobs| == 1 && JobWeight(jobs[0].act) < JobWeight(HopJob(hop, source, target)))
  {
    hide Count, AppliedRate, LinkViable, Complete, Fail;
    EndsIdle(env, ue, t, source, target);
    NoJobsAtEnd(env, ue, t, source, target);
  }

  lemma NoJobsAtEnd(env: Env, ue: Ue, t: real, source: Cell, target: Cell)
    ensures Complete(env, ue, t, source, target).jobs == [] && Fail(env, ue, t).jobs == []
  {
    hide Count, AppliedRate;
  }

  lemma StepIsLighter(env: Env, s: Sys)
    requires s.queue != [] && s.queue[0].act.Own?
    ensures QueueWeight(Step(env, s).queue) < QueueWeight(s.queue)
  {
    hide HandleHop, Count, Tag, KeepFor, Insert;
    var i, job, popped := s.queue[0].act.ue, s.queue[0].act.job, s.(now := s.queue[0].time, queue := s.queue[1..]);
    if i < |s.ues| && job.HopJob? {
      HopWeight(env, s.ues[i], popped.now, job.hop, job.source, job.target);
      var jobs := HandleHop(env, s.ues[i], popped.now, job.hop, job.source, job.target).jobs;
      if jobs != [] {
        assert jobs == [jobs[0]];
        ScheduleOne(popped.queue, i, jobs[0]);
        InsertWeight(popped.queue, Timed(jobs[0].time, Own(i, jobs[0].act)));
      }
    }
  }

  // ----- the tick in the shared queue -----

  /** The UE's own view of a reachable state. */
  lemma Viewed(env: Env, ues: seq<Ue>, run: nat -> Sys, n: nat, i: nat) returns (l: Local)
    requires Starting(env, ues) && IsRun(env, ues, run) && i < |ues|
    ensures |run(n).ues| == |ues| && TimesOk(env, run(n))
    ensures l == View(run(n), i, l.now) && Coherent(env, l) && l.now <= run(n).now
    ensures forall u, d :: Bounded(env, u, d) ==> OnTime(env, u, d, l)
  {
    hide RunOwn, Coherent, OnTime, TimesOk, View, Initial, Bounded;
    var m;
    m, l := OwnMoment(env, ues, run, i, n);
    RunCoherent(env, ues[i], m);
    forall u, d | Bounded(env, u, d) ensures OnTime(env, u, d, l) {
      RunOnTime(env, u, d, ues[i], m);
    }
  }

  /** When the next tick is due. */
  function TickTime(s: Sys): real
    requires |s.ues| > 0 && |Ticks(View(s, 0, 0.0))| == 1
  {
    Ticks(View(s, 0, 0.0))[0].time
  }

  ghost predicate OneTick(s: Sys) {
    |s.ues| > 0 && |Ticks(View(s, 0, 0.0))| == 1 && s.now <= TickTime(s)
  }

  lemma ReachableTick(env: Env, ues: seq<Ue>, run: nat -> Sys, n: nat)
    requires Starting(env, ues) && IsRun(env, ues, run) && |ues| > 0
    ensures OneTick(run(n))
  {
    hide Sift;
    var l := Viewed(env, ues, run, n, 0);
    var s := run(n);
    SiftKeepsOrder(s.queue, Mine(0), s.now);
    SiftKeepsOrder(Sift(s.queue, Mine(0)), IsTick(), s.now);
  }

  /** A tick moves the next one a period ahead; every other event leaves it where it is. */
  lemma StepTick(env: Env, ues: seq<Ue>, run: nat -> Sys, n: nat)
    requires Starting(env, ues) && IsRun(env, ues, run) && |ues| > 0
    ensures OneTick(run(n)) && OneTick(run(n + 1))
    ensures var s, s' := run(n), run(n + 1);
            && s.queue != [] && s' == Step(env, s)
            && if s.queue[0].act == Tick then s'.now == TickTime(s) && TickTime(s') == TickTime(s) + TICK_PERIOD
               else TickTime(s') == TickTime(s)
  {
    hide Step, Sift, Handled, StepOwn, UeOk, TimesOk;
    ReachableTick(env, ues, run, n);
    ReachableTick(env, ues, run, n + 1);
    var s := run(n);
    var l := Viewed(env, ues, run, n, 0);
    NotEmpty(s, l);
    StepView(env, s, 0, l.now);
    StepNow(env, s);
    if Mine(0)(s.queue[0].act).Some? {
      StepCase(env, l);
      SiftHead(s.queue, Mine(0));
    }
  }

  lemma NotEmpty(s: Sys, l: Local)
    requires |s.ues| > 0 && l == View(s, 0, l.now) && |Ticks(l)| == 1
    ensures s.queue != [] && l.queue != []
  {
  }

  /** From every reachable state the next tick comes after finitely many events. */
  lemma {:induction false} TickComes(env: Env, ues: seq<Ue>, run: nat -> Sys, n: nat) returns (m: nat)
    requires Starting(env, ues) && IsRun(env, ues, run) && |ues| > 0
    ensures m > n && OneTick(run(n)) && OneTick(run(m))
    ensures TickTime(run(m)) == TickTime(run(n)) + TICK_PERIOD
    decreases QueueWeight(run(n).queue)
  {
    hide Step, TickTime, QueueWeight, OneTick;
    StepTick(env, ues, run, n);
    var s := run(n);
    if s.queue[0].act == Tick {
      m := n + 1;
    } else {
      StepIsLighter(env, s);
      m := TickComes(env, ues, run, n + 1);
    }
  }

  lemma {:induction false} TimePasses(env: Env, ues: seq<Ue>, run: nat -> Sys, n: nat, k: nat) returns (m: nat)
    requires Starting(env, ues) && IsRun(env, ues, run) && |ues| > 0
    ensures m >= n && OneTick(run(n)) && OneTick(run(m))
    ensures TickTime(run(m)) == TickTime(run(n)) + k as real
  {
    hide TickTime, OneTick;
    ReachableTick(env, ues, run, n);
    m := n;
    if k > 0 {
      m := TimePasses(env, ues, run, n, k - 1);
      m := TickComes(env, ues, run, m);
    }
  }

  // ----- a run shows every moment of a UE's own run -----

  /** A tick or an event of its own reaches every UE after finitely many events of others. */
  lemma {:induction false} OwnEventComes(env: Env, ues: seq<Ue>, run: nat -> Sys, i: nat, n: nat) returns (m: nat)
    requires Starting(env, ues) && IsRun(env, ues, run) && i < |ues|
    ensures OwnEvents(run, i, m) == OwnEvents(run, i, n) + 1
    decreases QueueWeight(run(n).queue)
  {
    hide Step, TickTime, QueueWeight, OneTick, Start;
    StepTick(env, ues, run, n);
    var s := run(n);
    m := n + 1;
    if !NextIsOwn(s, i) {
      OthersComeFirst(env, s, i);
      m := OwnEventComes(env, ues, run, i, n + 1);
    }
  }

  lemma OthersComeFirst(env: Env, s: Sys, i: nat)
    requires s.queue != [] && !NextIsOwn(s, i)
    ensures s.queue[0].act.Own? && QueueWeight(Step(env, s).queue) < QueueWeight(s.queue)
  {
    hide Step, QueueWeight;
    StepIsLighter(env, s);
  }

  lemma {:induction false} OwnEventsReach(env: Env, ues: seq<Ue>, run: nat -> Sys, i: nat, m: nat) returns (n: nat)
    requires Starting(env, ues) && IsRun(env, ues, run) && i < |ues|
    ensures OwnEvents(run, i, n) == m
  {
    hide NextIsOwn;
    n := 0;
    if m > 0 {
      n := OwnEventsReach(env, ues, run, i, m - 1);
      n := OwnEventComes(env, ues, run, i, n);
    }
  }

  /** The other half of UE independence: every moment of the run in which the UE is alone is shown by
      the run with the others, so the two runs are the same but for waiting. */
  lemma EverySoloMomentIsShown(env: Env, ues: seq<Ue>, run: nat -> Sys, i: nat, solo: nat -> Sys, m: nat) returns (n: nat)
    requires Starting(env, ues) && i < |ues| && IsRun(env, ues, run) && IsRun(env, [ues[i]], solo)
    ensures |run(n).ues| == |ues| && |solo(m).ues| == 1 && OwnEvents(run, i, n) == m
    ensures View(run(n), i, solo(m).now) == View(solo(m), 0, solo(m).now) && solo(m).now <= run(n).now
  {
    hide OwnEvents, View;
    n := OwnEventsReach(env, ues, run, i, m);
    UesAreIndependent(env, ues, run, i, solo, n);
  }

  // ----- deadlines -----

  /** When the event a procedure waits for comes, at the latest. */
  lemma DueBeforeDeadline(env: Env, u: real, d: real, l: Local)
    requires Coherent(env, l) && OnTime(env, u, d, l) && l.ue.proc.phase != Idle && 0.0 <= u && 0.0 <= d
    ensures var p := l.ue.proc;
            if p.phase == Evaluating then Ticks(l)[0].time <= p.startTime + Budget(env, u, d)
            else |Hops(l)| == 1 && Hops(l)[0].time <= p.startTime + Budget(env, u, d)
  {
    hide Sift, CacheNear;
  }

  /** A step of a UE with a procedure under way keeps the procedure or ends it before its deadline. */
  lemma ProcedureStep(env: Env, u: real, d: real, l: Local)
    requires ValidEnv(env) && Coherent(env, l) && OnTime(env, u, d, l) && 0.0 <= u && 0.0 <= d
    requires l.ue.proc.phase != Idle && l.queue != []
    ensures var l' := StepOwn(env, l);
            && l'.ue.proc.startTime == l.ue.proc.startTime
            && (l'.ue.proc.phase == Idle ==> l'.now <= l.ue.proc.startTime + Budget(env, u, d))
  {
    hide StepOwn, OnTime, UeOk, Protocol.CheckHandover, HandleHop, PreparedUe, Sift, Budget;
    DueBeforeDeadline(env, u, d, l);
    StepCase(env, l);
    var t := l.queue[0].time;
    match l.queue[0].act {
      case OwnTick =>
        PreparedOk(env, l.ue, t);
        TickKeepsStart(env, PreparedUe(env, l.ue, t), t);
      case OwnJob(HopJob(hop, _, _)) =>
        HopKeepsStart(env, l.ue, t, hop);
      case OwnJob(PredictJob(_)) =>
    }
  }

  lemma TickKeepsStart(env: Env, ue: Ue, t: real)
    requires ue.proc.phase != Idle
    ensures var p := Protocol.CheckHandover(env, ue, t).ue.proc;
            p.startTime == ue.proc.startTime && (p.phase == Idle ==> ue.proc.phase == Evaluating)
  {
    hide ConditionMet, AppliedRate, Count, UplinkDelay, Measure;
  }

  lemma HopKeepsStart(env: Env, ue: Ue, t: real, hop: Hop)
    ensures HandleHop(env, ue, t, hop, ue.proc.source, ue.proc.target).ue.proc.startTime == ue.proc.startTime
  {
    hide AppliedRate, Count, LinkViable;
  }

  /** No procedure outlives its deadline. */
  lemma NoProcedureIsOverdue(env: Env, ues: seq<Ue>, run: nat -> Sys, n: nat, i: nat, u: real, d: real)
    requires Starting(env, ues) && IsRun(env, ues, run) && i < |ues| && Bounded(env, u, d)
    ensures |run(n).ues| == |ues|
    ensures var s := run(n);
            s.ues[i].proc.phase != Idle ==> s.now <= s.ues[i].proc.startTime + Budget(env, u, d)
  {
    hide Sift, OnTime, UeOk, Budget, HopsMatch, Bounded;
    var l := Viewed(env, ues, run, n, i);
    var s := run(n);
    BoundsFacts(env, u, d);
    if s.ues[i].proc.phase != Idle {
      DueBeforeDeadline(env, u, d, l);
      SiftKeepsOrder(s.queue, Mine(i), s.now);
      SiftKeepsOrder(l.queue, ActHop(), s.now);
      SiftKeepsOrder(l.queue, IsTick(), s.now);
    }
  }

  /** A step of the whole system keeps a UE's procedure or ends it before its deadline. */
  lemma SystemStep(env: Env, ues: seq<Ue>, run: nat -> Sys, n: nat, i: nat, u: real, d: real)
    requires Starting(env, ues) && IsRun(env, ues, run) && i < |ues| && Bounded(env, u, d)
    ensures |run(n).ues| == |ues| == |run(n + 1).ues|
    ensures var s, s' := run(n), run(n + 1);
            s.ues[i].proc.phase != Idle ==>
              && s'.ues[i].proc.startTime == s.ues[i].proc.startTime
              && (s'.ues[i].proc.phase == Idle ==> s'.now <= s.ues[i].proc.startTime + Budget(env, u, d))
  {
    hide Step, Sift, StepOwn, OnTime, UeOk, Budget, HopsMatch, Bounded;
    var l := Viewed(env, ues, run, n, i);
    var s := run(n);
    UesStay(env, ues, run, n + 1);
    BoundsFacts(env, u, d);
    if s.queue == [] {
      NothingLeft(env, s);
    } else if s.ues[i].proc.phase != Idle {
      StepView(env, s, i, l.now);
      if Mine(i)(s.queue[0].act).Some? {
        SiftHead(s.queue, Mine(i));
        ProcedureStep(env, u, d, l);
        StepTime(env, l);
        StepNow(env, s);
      }
    }
  }

  lemma NothingLeft(env: Env, s: Sys)
    requires s.queue == []
    ensures Step(env, s) == s
  {
  }

  lemma StepTime(env: Env, l: Local)
    requires l.queue != []
    ensures StepOwn(env, l).now == l.queue[0].time
  {
  }

  lemma {:induction false} FindsEnd(env: Env, ues: seq<Ue>, run: nat -> Sys, n: nat, late: nat, i: nat, u: real, d: real) returns (end: nat)
    requires Starting(env, ues) && IsRun(env, ues, run) && i < |ues| && Bounded(env, u, d) && n <= late
    requires |run(n).ues| == |ues| && run(n).ues[i].proc.phase != Idle
    requires run(late).now > run(n).ues[i].proc.startTime + Budget(env, u, d)
    ensures n < end <= late && |run(end).ues| == |ues|
    ensures run(end).ues[i].proc.phase == Idle
    ensures run(end).now <= run(n).ues[i].proc.startTime + Budget(env, u, d)
    decreases late - n
  {
    hide Step, Budget, Bounded;
    NoProcedureIsOverdue(env, ues, run, n, i, u, d);
    SystemStep(env, ues, run, n, i, u, d);
    end := n + 1;
    if run(n + 1).ues[i].proc.phase != Idle {
      end := FindsEnd(env, ues, run, n + 1, late, i, u, d);
    }
  }

  /** Bounded liveness: every procedure of every UE, with or without a target, is over after finitely
      many events and no later than preparation, validity and one tick or the execution after its
      report. */
  lemma EveryProcedureEnds(env: Env, ues: seq<Ue>, run: nat -> Sys, n: nat, i: nat, u: real, d: real) returns (end: nat)
    requires Starting(env, ues) && IsRun(env, ues, run) && i < |ues| && Bounded(env, u, d)
    requires |run(n).ues| == |ues| && run(n).ues[i].proc.phase != Idle
    ensures end > n && |run(end).ues| == |ues| && run(end).ues[i].proc.phase == Idle
    ensures run(end).now <= run(n).ues[i].proc.startTime + Budget(env, u, d)
  {
    hide Step, Budget, Bounded, TickTime;
    ReachableTick(env, ues, run, n);
    var s := run(n);
    var wait := s.ues[i].proc.startTime + Budget(env, u, d) - TickTime(s);
    var k := if wait < 0.0 then 1 else wait.Floor + 2;
    var late := TimePasses(env, ues, run, n, k);
    var past := ClockPasses(env, ues, run, late);
    end := FindsEnd(env, ues, run, n, past, i, u, d);
  }

  /** The clock passes every bound: no run is stuck, and none piles up events before some moment. */
  lemma TheClockPassesEveryBound(env: Env, ues: seq<Ue>, run: nat -> Sys, k: nat) returns (m: nat)
    requires Starting(env, ues) && IsRun(env, ues, run) && |ues| > 0
    ensures run(m).now >= k as real
  {
    hide Step, TickTime;
    ReachableTick(env, ues, run, 0);
    var late := TimePasses(env, ues, run, 0, k);
    StartsAtZero(env, ues, run);
    m := ClockPasses(env, ues, run, late);
  }

  lemma StartsAtZero(env: Env, ues: seq<Ue>, run: nat -> Sys)
    requires Starting(env, ues) && IsRun(env, ues, run) && |ues| > 0
    ensures OneTick(run(0)) && TickTime(run(0)) >= 0.0
  {
    ReachableTick(env, ues, run, 0);
  }

  /** The next tick is handled at its time. */
  lemma ClockPasses(env: Env, ues: seq<Ue>, run: nat -> Sys, n: nat) returns (m: nat)
    requires Starting(env, ues) && IsRun(env, ues, run) && |ues| > 0
    ensures m > n && OneTick(run(n)) && run(m).now >= TickTime(run(n))
    decreases QueueWeight(run(n).queue)
  {
    hide Step, TickTime, QueueWeight, OneTick;
    StepTick(env, ues, run, n);
    var s := run(n);
    if s.queue[0].act == Tick {
      m := n + 1;
    } else {
      StepIsLighter(env, s);
      m := ClockPasses(env, ues, run, n + 1);
    }
  }
}
