/** What one event of a run does to one UE. */
module Moments {
  import opened ChoTypes
  import opened Agenda
  import opened Channel
  import opened Protocol
  import opened SystemModel
  import opened Independence
  import opened Lockstep
  import opened StepCases
  import opened Reachable

  /** The UE at a tick, once its channel is refreshed and applied. */
  function AtTick(env: Env, s: Sys, i: nat): Ue
    requires TickNext(s) && i < |s.ues|
  {
    PreparedUe(env, s.ues[i], s.queue[0].time)
  }

  /** A step that is a step of the UE's own. */
  lemma OwnStep(env: Env, ues: seq<Ue>, run: nat -> Sys, n: nat, i: nat) returns (m: nat, l: Local)
    requires Starting(env, ues) && IsRun(env, ues, run) && i < |ues|
    ensures |run(n).ues| == |ues| == |run(n + 1).ues|
    ensures l == RunOwn(env, StartOwn(ues[i]), m) && l == View(run(n), i, l.now)
    ensures NextIsOwn(run(n), i) ==>
              && l.queue != [] && l.queue[0] == Timed(run(n).queue[0].time, Mine(i)(run(n).queue[0].act).value)
              && View(run(n + 1), i, run(n + 1).now) == StepOwn(env, l) && run(n + 1).now == run(n).queue[0].time
  {
    hide Step, StepOwn, RunOwn, TimesOk, Initial, Of, Sift, OwnEvents;
    m, l := OwnMoment(env, ues, run, i, n);
    UesStay(env, ues, run, n + 1);
    var s := run(n);
    assert run(n + 1) == Step(env, s);
    if NextIsOwn(s, i) {
      StepView(env, s, i, l.now);
      SiftHead(s.queue, Mine(i));
      StepNow(env, s);
    }
  }

  /** At a tick every UE is checked, each on its refreshed channel. */
  lemma TickStep(env: Env, ues: seq<Ue>, run: nat -> Sys, n: nat, i: nat)
    requires Starting(env, ues) && IsRun(env, ues, run) && i < |ues| && TickNext(run(n))
    ensures |run(n).ues| == |ues| == |run(n + 1).ues|
    ensures UeOk(env, run(n).ues[i]) && UeOk(env, AtTick(env, run(n), i))
    ensures run(n + 1).now == run(n).queue[0].time
    ensures var o := Protocol.CheckHandover(env, AtTick(env, run(n), i), run(n + 1).now);
            && run(n + 1).ues[i] == o.ue
            && Of(run(n + 1).lines, i) == Of(run(n).lines, i) + o.lines
            && Of(run(n + 1).predictions, i) == Of(run(n).predictions, i) + o.predictions
  {
    hide Step, StepOwn, RunOwn, Initial, UeOk, Protocol.CheckHandover, PreparedUe, Sift, HandleHop;
    var m, l := OwnStep(env, ues, run, n, i);
    RunCoherent(env, ues[i], m);
    StepCase(env, l);
    PreparedOk(env, l.ue, l.queue[0].time);
    TickPredicts(env, l);
  }

  lemma TickPredicts(env: Env, l: Local)
    requires l.queue != [] && l.queue[0].act == OwnTick
    ensures var t := l.queue[0].time;
            StepOwn(env, l).predictions == l.predictions + Protocol.CheckHandover(env, PreparedUe(env, l.ue, t), t).predictions
  {
    hide Protocol.CheckHandover, PreparedUe, ScheduleOwn, Insert, Keep;
  }
}
