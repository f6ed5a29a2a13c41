/** Reports: each is backed by measurements, one at every tick of the whole time-to-trigger, that all
    found the same best neighbour, except that without the distance strategy a radio-link failure may
    lie between. */
module MeasurementTrigger {
  import opened ChoTypes
  import opened Agenda
  import opened Channel
  import opened Protocol
  import opened ProtocolFacts
  import opened SystemModel
  import opened Independence
  import opened Lockstep
  import opened StepCases
  import opened Reachable

  /** An occasion that does not speak against `best`. */
  predicate Supports(cfg: Config, o: Occasion, best: Cell) {
    (o.Fired? && o.best == best) || (cfg.strategy != Distance && o.RadioLinkFailure?)
  }

  /** Nothing is left out between the two, unless the procedure a lost link starts. */
  predicate Adjacent(a: Occasion, b: Occasion) {
    b.time == a.time + TICK_PERIOD || a.RadioLinkFailure?
  }

  ghost predicate Unbroken(occasions: seq<Occasion>, k: nat) {
    forall j :: k < j < |occasions| ==> Adjacent(occasions[j - 1], occasions[j])
  }

  /** The window from `since` to the last occasion: it begins with a fired event, all supports, and no
      tick is left out. */
  ghost predicate Sustained(cfg: Config, occasions: seq<Occasion>, since: real, best: Cell) {
    exists k :: 0 <= k < |occasions| && occasions[k] == Fired(since, best)
                && SupportedFrom(cfg, occasions, k, best) && Unbroken(occasions, k)
  }

  ghost predicate SupportedFrom(cfg: Config, occasions: seq<Occasion>, k: nat, best: Cell) {
    forall j :: k <= j < |occasions| ==> Supports(cfg, occasions[j], best)
  }

  /** A report at `t`: the window reaches from a time-to-trigger ago to the report itself. */
  ghost predicate Reported(cfg: Config, occasions: seq<Occasion>, t: real, best: Cell) {
    && occasions != [] && occasions[|occasions| - 1] == Fired(t, best)
    && exists since :: Sustained(cfg, occasions, since, best) && t - since >= cfg.timeToTrigger
  }

  function Last(occasions: seq<Occasion>): Occasion
    requires occasions != []
  {
    occasions[|occasions| - 1]
  }

  /** With the trigger running, the UE measured at the last tick and will at the next, or it lost its
      link at the last occasion. */
  ghost predicate Measuring(ue: Ue, tick: real) {
    ue.meas.triggerActive ==>
      && ue.occasions != []
      && var last := Last(ue.occasions);
         || last.RadioLinkFailure?
         || (ue.proc.phase == Idle && ue.serving != NO_CELL && ue.meas.lastTime == last.time == tick - TICK_PERIOD)
  }

  ghost predicate TriggerBacked(env: Env, ue: Ue, tick: real) {
    && Measuring(ue, tick)
    && (ue.meas.triggerActive ==> Sustained(env.cfg, ue.occasions, ue.meas.triggerStart, ue.meas.candidate))
    && (ue.proc.phase != Idle && ue.proc.target != NO_CELL ==>
          Reported(env.cfg, ue.occasions, ue.proc.startTime, ue.proc.target))
  }

  ghost predicate ReportsOk(env: Env, l: Local) {
    |Ticks(l)| == 1 && TriggerBacked(env, l.ue, Ticks(l)[0].time)
  }

  lemma SustainedOn(cfg: Config, occasions: seq<Occasion>, since: real, best: Cell, o: Occasion)
    requires Sustained(cfg, occasions, since, best) && Supports(cfg, o, best)
    requires occasions != [] && Adjacent(Last(occasions), o)
    ensures Sustained(cfg, occasions + [o], since, best)
  {
    hide Supports, Adjacent;
    var k :| 0 <= k < |occasions| && occasions[k] == Fired(since, best)
             && SupportedFrom(cfg, occasions, k, best) && Unbroken(occasions, k);
    assert (occasions + [o])[k] == Fired(since, best);
    assert SupportedFrom(cfg, occasions + [o], k, best);
    assert Unbroken(occasions + [o], k);
  }

  lemma SustainedNow(cfg: Config, occasions: seq<Occasion>, t: real, best: Cell)
    ensures Sustained(cfg, occasions + [Fired(t, best)], t, best)
  {
    assert SupportedFrom(cfg, occasions + [Fired(t, best)], |occasions|, best);
    assert Unbroken(occasions + [Fired(t, best)], |occasions|);
  }

  // ----- every handler keeps it -----

  lemma MeasuredKeeps(env: Env, ue: Ue, o: Outcome, t: real, occasion: Occasion)
    requires Measured(env, Occasioned(ue, t), o, t, occasion) && ue.proc.phase == Idle && ue.serving != NO_CELL
    requires TriggerBacked(env, ue, t)
    ensures TriggerBacked(env, o.ue, t + TICK_PERIOD)
  {
    hide UplinkDelay, Sustained, Sift, PlainLines, Supports, Count;
    var m := ue.meas;
    assert Last(ue.occasions + [occasion]) == occasion;
    match occasion
    case NotFired(_) =>
    case RadioLinkFailure(_) =>
      if env.cfg.strategy != Distance && m.triggerActive {
        LossSupports(env.cfg, occasion, m.candidate);
        SustainedOn(env.cfg, ue.occasions, m.triggerStart, m.candidate, occasion);
      }
    case Fired(_, best) =>
      SustainedNow(env.cfg, ue.occasions, t, best);
      if m.triggerActive && best == m.candidate {
        FiredSupports(env.cfg, occasion);
        SustainedOn(env.cfg, ue.occasions, m.triggerStart, best, occasion);
      }
  }

  lemma LossSupports(cfg: Config, o: Occasion, best: Cell)
    requires o.RadioLinkFailure? && cfg.strategy != Distance
    ensures Supports(cfg, o, best)
  {
  }

  lemma FiredSupports(cfg: Config, o: Occasion)
    requires o.Fired?
    ensures Supports(cfg, o, o.best)
  {
  }

  /** The procedure goes on or ends; the trigger and its occasions are not touched. */
  lemma UntouchedKeeps(env: Env, a: Ue, b: Ue, tick: real, later: real)
    requires TriggerBacked(env, a, tick) && b.meas == a.meas && b.occasions == a.occasions && a.proc.phase != Idle
    requires b.proc.phase != Idle ==> b.proc.target == a.proc.target && b.proc.startTime == a.proc.startTime
    ensures TriggerBacked(env, b, later)
  {
    hide Sustained, Reported;
  }

  lemma ExecutionKeeps(env: Env, ue: Ue, t: real)
    requires TriggerBacked(env, ue, t) && ue.proc.phase == Evaluating
    ensures TriggerBacked(env, CheckExecution(env, ue, t).ue, t + TICK_PERIOD)
  {
    hide CheckExecution, TriggerBacked;
    EvaluationFrame(env, ue, t);
    UntouchedKeeps(env, ue, CheckExecution(env, ue, t).ue, t, t + TICK_PERIOD);
  }

  /** A tick at which the UE neither measures nor evaluates. */
  lemma RestKeeps(env: Env, ue: Ue, t: real)
    requires TriggerBacked(env, ue, t)
    requires ue.proc.phase == Idle ==> ue.serving == NO_CELL || t - ue.meas.lastTime < MEASUREMENT_PERIOD
    ensures TriggerBacked(env, ue, t + TICK_PERIOD)
  {
    hide Sustained, Reported;
  }

  lemma TickKeeps(env: Env, ue: Ue, t: real)
    requires ValidEnv(env) && UeOk(env, ue) && TriggerBacked(env, ue, t)
    ensures TriggerBacked(env, Protocol.CheckHandover(env, ue, t).ue, t + TICK_PERIOD)
  {
    hide Protocol.CheckHandover, CheckExecution, Measured, UeOk, TriggerBacked;
    var occasion := TickCase(env, ue, t);
    if ue.proc.phase == Evaluating {
      ExecutionKeeps(env, ue, t);
    } else if occasion.Some? {
      MeasuredKeeps(env, ue, Protocol.CheckHandover(env, ue, t), t, occasion.value);
    } else {
      RestKeeps(env, ue, t);
    }
  }

  lemma HopKeeps(env: Env, ue: Ue, hop: Hop, t: real, tick: real)
    requires TriggerBacked(env, ue, tick) && Awaits(ue.proc.phase) == Some(hop)
    ensures TriggerBacked(env, HandleHop(env, ue, t, hop, ue.proc.source, ue.proc.target).ue, tick)
  {
    hide AppliedRate, LinkViable, Sustained, Reported, Count;
  }

  lemma PreparedKeeps(env: Env, ue: Ue, t: real)
    requires ValidEnv(env) && UeOk(env, ue) && TriggerBacked(env, ue, t)
    ensures UeOk(env, PreparedUe(env, ue, t)) && TriggerBacked(env, PreparedUe(env, ue, t), t)
  {
    hide UeOk, PreparedUe, Sustained, Reported;
    PreparedOk(env, ue, t);
  }

  lemma StepKeeps(env: Env, l: Local)
    requires ValidEnv(env) && Coherent(env, l) && ReportsOk(env, l)
    ensures ReportsOk(env, StepOwn(env, l))
  {
    hide StepOwn, UeOk, Protocol.CheckHandover, HandleHop, PreparedUe, Sift, TriggerBacked;
    if l.queue == [] {
      EmptyStep(env, l);
    } else {
      StepCase(env, l);
      var t := l.queue[0].time;
      match l.queue[0].act {
        case OwnTick =>
          PreparedKeeps(env, l.ue, t);
          TickKeeps(env, PreparedUe(env, l.ue, t), t);
        case OwnJob(HopJob(hop, _, _)) =>
          HopKeeps(env, l.ue, hop, t, Ticks(l)[0].time);
        case OwnJob(PredictJob(_)) =>
      }
    }
  }

  lemma StartKeeps(env: Env, ue: Ue)
    requires Initial(ue)
    ensures ReportsOk(env, StartOwn(ue))
  {
  }

  lemma {:induction false} RunKeeps(env: Env, ue: Ue, m: nat)
    requires ValidEnv(env) && Initial(ue)
    ensures ReportsOk(env, RunOwn(env, StartOwn(ue), m))
  {
    hide Coherent, StepOwn, ReportsOk;
    StartKeeps(env, ue);
    if m > 0 {
      RunKeeps(env, ue, m - 1);
      RunCoherent(env, ue, m - 1);
      StepKeeps(env, RunOwn(env, StartOwn(ue), m - 1));
    }
  }

  // ----- the theorem -----

  ghost predicate AllFired(occasions: seq<Occasion>, k: nat, best: Cell) {
    forall j :: k <= j < |occasions| ==> occasions[j].Fired? && occasions[j].best == best
  }

  ghost predicate LossFree(occasions: seq<Occasion>, k: nat) {
    forall j :: k <= j < |occasions| ==> !occasions[j].RadioLinkFailure?
  }

  ghost predicate EveryTick(occasions: seq<Occasion>, k: nat) {
    forall j :: k < j < |occasions| ==> occasions[j].time == occasions[j - 1].time + TICK_PERIOD
  }

  /** The procedure with a target that is under way was reported after at least a time-to-trigger, from
      occasion `k` to the report, over which the event fired with that target as the best neighbour at
      every measurement. In the distance strategy that holds without condition; in the others it holds
      if and only if the window has no radio-link failure, and only such a failure can make the UE skip
      a tick. */
  lemma ReportsAreBacked(env: Env, ues: seq<Ue>, run: nat -> Sys, n: nat, i: nat) returns (k: nat)
    requires Starting(env, ues) && IsRun(env, ues, run) && i < |ues|
    requires |run(n).ues| == |ues|
    requires var p := run(n).ues[i].proc; p.phase != Idle && p.target != NO_CELL
    ensures var ue := run(n).ues[i];
            var p, os := ue.proc, ue.occasions;
            && k < |os| && os[k].Fired? && os[k].best == p.target && os[|os| - 1] == Fired(p.startTime, p.target)
            && p.startTime - os[k].time >= env.cfg.timeToTrigger
            && (env.cfg.strategy == Distance ==> AllFired(os, k, p.target))
            && (AllFired(os, k, p.target) <==> LossFree(os, k))
            && Unbroken(os, k) && (LossFree(os, k) ==> EveryTick(os, k))
  {
    hide RunOwn, Coherent, Sift;
    var m, l := OwnMoment(env, ues, run, i, n);
    RunKeeps(env, ues[i], m);
    var ue := l.ue;
    k := Window(env.cfg, ue.occasions, ue.proc.startTime, ue.proc.target);
  }

  lemma Window(cfg: Config, occasions: seq<Occasion>, t: real, best: Cell) returns (k: nat)
    requires Reported(cfg, occasions, t, best)
    ensures k < |occasions| && occasions[k].Fired? && occasions[k].best == best && t - occasions[k].time >= cfg.timeToTrigger
    ensures cfg.strategy == Distance ==> AllFired(occasions, k, best)
    ensures AllFired(occasions, k, best) <==> LossFree(occasions, k)
    ensures Unbroken(occasions, k) && (LossFree(occasions, k) ==> EveryTick(occasions, k))
  {
    var since :| Sustained(cfg, occasions, since, best) && t - since >= cfg.timeToTrigger;
    k :| 0 <= k < |occasions| && occasions[k] == Fired(since, best)
         && SupportedFrom(cfg, occasions, k, best) && Unbroken(occasions, k);
    forall j | k <= j < |occasions|
      ensures Supports(cfg, occasions[j], best)
    {
    }
    forall j | k < j < |occasions|
      ensures Adjacent(occasions[j - 1], occasions[j])
    {
    }
  }
}
