/** Simultaneous events of different UEs can change places: no UE ever notices. */
module Reordering {
  import opened ChoTypes
  import opened Agenda
  import opened Channel
  import opened Protocol
  import opened SystemModel
  import opened Independence
  import opened Liveness

  /** Two runs that start alike but for the order of the two events at the head of the queue, which
      are due at the same time and concern different UEs. */
  ghost predicate Swapped(env: Env, run: nat -> Sys, other: nat -> Sys) {
    var s := run(0);
    && Follows(env, run) && Follows(env, other) && TimesOk(env, s)
    && |s.queue| >= 2 && s.queue[0].act.Own? && s.queue[1].act.Own?
    && s.queue[0].act.ue != s.queue[1].act.ue && s.queue[0].time == s.queue[1].time
    && other(0) == s.(queue := [s.queue[1], s.queue[0]] + s.queue[2..])
  }

  lemma SwapsBack(env: Env, run: nat -> Sys, other: nat -> Sys)
    requires Swapped(env, run, other)
    ensures Swapped(env, other, run)
  {
    hide Step;
    var s, r := run(0), other(0);
    SwapIsOrdered(s.queue, r.queue, s.queue[2..], s.queue[0].time, s.now);
    assert r.queue[2..] == s.queue[2..];
    assert s.queue == [s.queue[0], s.queue[1]] + s.queue[2..];
  }

  lemma StartsAlike(env: Env, run: nat -> Sys, other: nat -> Sys, i: nat, now: real)
    requires Swapped(env, run, other) && i < |run(0).ues|
    ensures |other(0).ues| == |run(0).ues| && View(run(0), i, now) == View(other(0), i, now)
  {
    hide Step, Of, Sift;
    var s, r := run(0), other(0);
    assert s.queue == [s.queue[0], s.queue[1]] + s.queue[2..];
    SwapSift(s.queue[0], s.queue[1], i);
    SiftPair(s.queue[0], s.queue[1], s.queue[2..], i);
    SiftPair(r.queue[0], r.queue[1], s.queue[2..], i);
  }

  /** A UE that has had as many events in both runs is in the same state in both. */
  lemma SameCountSameView(env: Env, run: nat -> Sys, other: nat -> Sys, i: nat, n: nat, m: nat, now: real)
    requires ValidEnv(env) && Swapped(env, run, other) && i < |run(0).ues| && OwnEvents(run, i, n) == OwnEvents(other, i, m)
    ensures |run(n).ues| == |other(m).ues| == |run(0).ues|
    ensures View(run(n), i, now) == View(other(m), i, now)
  {
    hide Step, RunOwn, TimesOk, OwnEvents, Of, Sift;
    SwapsBack(env, run, other);
    OrderedStart(env, run, other);
    OrderedStart(env, other, run);
    StartsAlike(env, run, other, i, run(0).now);
    var l := ViewAfter(env, run, i, n);
    var r := ViewAfter(env, other, i, m);
  }

  lemma OrderedStart(env: Env, run: nat -> Sys, other: nat -> Sys)
    requires Swapped(env, run, other)
    ensures TimesOk(env, run(0)) && Follows(env, run) && other(0).now == run(0).now
  {
  }

  // ----- right after both events -----

  lemma {:induction false} ScheduleKeepsHead(q: seq<Timed<Act>>, ue: nat, jobs: seq<Timed<Job>>)
    requires q != [] && AllFrom(jobs, q[0].time)
    ensures Schedule(q, ue, jobs) != [] && Schedule(q, ue, jobs)[0] == q[0]
    decreases jobs
  {
    if jobs != [] {
      ScheduleKeepsHead(Insert(q, Timed(jobs[0].time, Own(ue, jobs[0].act))), ue, jobs[1..]);
    }
  }

  /** Handling an event leaves a simultaneous one next in line. */
  lemma JobKeepsHead(env: Env, s: Sys)
    requires ValidEnv(env) && TimesOk(env, s)
    requires |s.queue| >= 2 && s.queue[0].act.Own? && s.queue[0].time == s.queue[1].time
    ensures Step(env, s).queue != [] && Step(env, s).queue[0] == s.queue[1]
  {
    hide HandleHop, Count, Tag, KeepFor, Schedule;
    var e, popped := s.queue[0], s.(now := s.queue[0].time, queue := s.queue[1..]);
    if e.act.ue < |s.ues| && e.act.job.HopJob? {
      var o := HandleHop(env, s.ues[e.act.ue], popped.now, e.act.job.hop, e.act.job.source, e.act.job.target);
      HopTimes(env, s.ues[e.act.ue], popped.now, e.act.job.hop, e.act.job.source, e.act.job.target);
      ScheduleKeepsHead(popped.queue, e.act.ue, o.jobs);
    }
  }

  lemma CountAfterBoth(env: Env, run: nat -> Sys, other: nat -> Sys, i: nat)
    requires ValidEnv(env) && Swapped(env, run, other)
    ensures OwnEvents(run, i, 2) == (if run(0).queue[0].act.ue == i || run(0).queue[1].act.ue == i then 1 else 0)
  {
    hide Step, TimesOk;
    OrderedStart(env, run, other);
    JobKeepsHead(env, run(0));
    assert run(1) == Step(env, run(0));
    assert OwnEvents(run, i, 1) == OwnEvents(run, i, 0) + if NextIsOwn(run(0), i) then 1 else 0;
    assert OwnEvents(run, i, 2) == OwnEvents(run, i, 1) + if NextIsOwn(run(1), i) then 1 else 0;
  }

  /** Two events at the head of the queue that concern different UEs can change places: once both are
      handled, every UE is in the same state, with the same events and records. */
  lemma SimultaneousEventsCommute(env: Env, run: nat -> Sys, other: nat -> Sys, i: nat, now: real)
    requires ValidEnv(env) && Swapped(env, run, other) && i < |run(0).ues|
    ensures |run(2).ues| == |other(2).ues| == |run(0).ues|
    ensures View(run(2), i, now) == View(other(2), i, now)
  {
    hide View, OwnEvents, Step;
    SwapsBack(env, run, other);
    CountAfterBoth(env, run, other, i);
    CountAfterBoth(env, other, run, i);
    SameHeads(env, run, other);
    SameCountSameView(env, run, other, i, 2, 2, now);
  }

  lemma SameHeads(env: Env, run: nat -> Sys, other: nat -> Sys)
    requires Swapped(env, run, other)
    ensures other(0).queue[0] == run(0).queue[1] && other(0).queue[1] == run(0).queue[0]
  {
  }

  // ----- for ever after -----

  lemma {:induction false} SomethingOfItsOwn(q: seq<Timed<Act>>, i: nat)
    requires Sift(q, Mine(i)) != []
    ensures q != []
  {
  }

  /** An event of another UE leaves the UE's part of the queue as it is. */
  lemma OthersLeaveTheView(env: Env, s: Sys, i: nat)
    requires ValidEnv(env) && TimesOk(env, s) && i < |s.ues| && s.queue != [] && !NextIsOwn(s, i)
    ensures |Step(env, s).ues| == |s.ues| && Sift(Step(env, s).queue, Mine(i)) == Sift(s.queue, Mine(i))
  {
    hide Step, Sift, TimesOk, Of;
    StepView(env, s, i, 0.0);
  }

  lemma CountAfter(run: nat -> Sys, i: nat, n: nat)
    ensures OwnEvents(run, i, n + 1) == OwnEvents(run, i, n) + if NextIsOwn(run(n), i) then 1 else 0
  {
  }

  /** While a UE's view of the queue is not empty, its next event comes after finitely many of others. */
  lemma {:induction false} NextOwnEvent(env: Env, run: nat -> Sys, i: nat, n: nat, c: nat) returns (m: nat)
    requires ValidEnv(env) && Follows(env, run) && TimesOk(env, run(0)) && i < |run(0).ues|
    requires Sift(run(n).queue, Mine(i)) != [] && OwnEvents(run, i, n) == c
    ensures OwnEvents(run, i, m) == c + 1
    decreases QueueWeight(run(n).queue)
  {
    hide Step, Sift, TimesOk, QueueWeight, NextIsOwn, OwnEvents, View, RunOwn;
    SomethingOfItsOwn(run(n).queue, i);
    CountAfter(run, i, n);
    m := n + 1;
    if !NextIsOwn(run(n), i) {
      OthersComeFirst(env, run(n), i);
      var l := ViewAfter(env, run, i, n);
      OthersLeaveTheView(env, run(n), i);
      assert run(n + 1) == Step(env, run(n));
      m := NextOwnEvent(env, run, i, n + 1, c);
    }
  }

  /** An own event was in the UE's view of the queue before it came. */
  lemma OwnEventWaited(s: Sys, i: nat)
    requires NextIsOwn(s, i)
    ensures Sift(s.queue, Mine(i)) != []
  {
  }

  /** Every count of own events that one run reaches, the other reaches. */
  lemma {:induction false} SameCounts(env: Env, run: nat -> Sys, other: nat -> Sys, i: nat, n: nat) returns (m: nat)
    requires ValidEnv(env) && Swapped(env, run, other) && i < |run(0).ues|
    ensures OwnEvents(other, i, m) == OwnEvents(run, i, n)
  {
    hide Step, TimesOk, Sift, Of, NextIsOwn;
    m := 0;
    if n > 0 {
      m := SameCounts(env, run, other, i, n - 1);
      if NextIsOwn(run(n - 1), i) {
        SameCountSameView(env, run, other, i, n - 1, m, 0.0);
        OwnEventWaited(run(n - 1), i);
        SwapsBack(env, run, other);
        OrderedStart(env, run, other);
        OrderedStart(env, other, run);
        StartsAlike(env, run, other, i, 0.0);
        m := NextOwnEvent(env, other, i, m, OwnEvents(run, i, n - 1));
      }
    }
  }

  /** And for ever after: every view a UE has in one of the two runs, it has in the other, after the
      same number of events of its own. */
  lemma SwapIsNeverNoticed(env: Env, run: nat -> Sys, other: nat -> Sys, i: nat, n: nat, now: real) returns (m: nat)
    requires ValidEnv(env) && Swapped(env, run, other) && i < |run(0).ues|
    ensures OwnEvents(other, i, m) == OwnEvents(run, i, n) && |run(n).ues| == |other(m).ues| == |run(0).ues|
    ensures View(run(n), i, now) == View(other(m), i, now)
  {
    hide View, OwnEvents, Step;
    m := SameCounts(env, run, other, i, n);
    SameCountSameView(env, run, other, i, n, m, now);
  }
}
