/** Conservation: what the counters count is never lost, per UE and over all UEs. */
module Conservation {
  import opened ChoTypes
  import opened Reals
  import opened Agenda
  import opened Channel
  import opened Protocol
  import opened ProtocolFacts
  import opened SystemModel
  import opened Independence
  import opened Reachable

  // ----- stages of a procedure and the counters between them -----

  datatype Stage = AtRest | Preparing | Downlink | Deciding | Switching

  function StageOf(phase: Phase): Stage {
    match phase
    case MeasReportUplink | GnbDecision | XnRequest | XnResponse => Preparing
    case RrcReconfigDownlink => Downlink
    case Evaluating => Deciding
    case Executing => Switching
    case _ => AtRest
  }

  function InStage(ue: Ue, stage: Stage): nat {
    if StageOf(ue.proc.phase) == stage then 1 else 0
  }

  /** Per UE: whatever entered a stage has left it or is still there. */
  ghost predicate Balanced(ue: Ue) {
    var s := ue.stats;
    && s.totalReports == s.configsSent + InStage(ue, Preparing)
    && s.configsSent == s.configsReceived + InStage(ue, Downlink)
    && s.configsReceived == s.executions + s.expired + InStage(ue, Deciding)
    && s.executions == s.successes + s.failures + InStage(ue, Switching)
    && ue.hoCount == s.successes && ue.hoFail == s.failures && ue.conf.received == s.configsReceived
  }

  /** Each average is the total over the number of successes. */
  ghost predicate AveragesOk(s: Statistics) {
    s.successes > 0 ==>
      && Times(s.avgProcedureDelay, s.successes as real) == s.totalProcedureDelay
      && Times(s.avgExecutionDelay, s.successes as real) == s.totalExecutionDelay
  }

  function Leaves(b: Bump): Stage
    requires b != NoBump
  {
    match b
    case ReportSent(_) => AtRest
    case ConfigSent => Preparing
    case ConfigReceived => Downlink
    case ExecutionStarted | ConfigExpired => Deciding
    case _ => Switching
  }

  function Enters(b: Bump): Stage {
    match b
    case ReportSent(_) => Preparing
    case ConfigSent => Downlink
    case ConfigReceived => Deciding
    case ExecutionStarted => Switching
    case _ => AtRest
  }

  /** A handler counts exactly what it does. */
  ghost predicate Counted(a: Ue, b: Ue, bump: Bump) {
    && b.stats == Count(a.stats, bump)
    && b.hoCount == a.hoCount + (if bump.HandoverDone? then 1 else 0)
    && b.hoFail == a.hoFail + (if bump == HandoverFailed then 1 else 0)
    && b.conf.received == a.conf.received + (if bump == ConfigReceived then 1 else 0)
    && if bump == NoBump then StageOf(b.proc.phase) == StageOf(a.proc.phase)
       else StageOf(a.proc.phase) == Leaves(bump) && StageOf(b.proc.phase) == Enters(bump)
  }

  lemma CountedKeepsBalance(a: Ue, b: Ue, bump: Bump)
    requires Balanced(a) && Counted(a, b, bump)
    ensures Balanced(b)
  {
  }

  lemma CountKeepsAverages(s: Statistics, bump: Bump)
    requires AveragesOk(s)
    ensures AveragesOk(Count(s, bump))
  {
    if bump.HandoverDone? {
      var n := (s.successes + 1) as real;
      OverTimes(s.totalProcedureDelay + bump.procedureDelay, n);
      OverTimes(s.totalExecutionDelay + bump.executionDelay, n);
    }
  }

  // ----- every handler counts what it does -----

  lemma TriggerCounted(ue: Ue, t: real, r: Report)
    ensures var o := Trigger(ue, t, r); Counted(ue, o.ue, o.bump)
  {
    hide Count, UplinkDelay;
    NoBumpCountsNothing(ue.stats);
  }

  lemma ServingCounted(env: Env, ue: Ue, t: real, ms: seq<Measurement>, s: Measurement)
    ensures var o := MeasureServing(env, ue, t, ms, s); Counted(ue, o.ue, o.bump)
  {
    hide Count, UplinkDelay, TakeSurvey, Trigger, ContextAfter;
    SurveyFrame(env, ue, t, ms, s);
    var v := TakeSurvey(env, ue, t, ms, s);
    var bestCell := if v.best.Some? then v.best.value.cell else NO_CELL;
    var decided := v.ue.(
      meas := Decide(env.cfg, v.ue.meas, t, v.fired, bestCell).0,
      context := ContextAfter(env.cfg, v.ue, t, s, v.best, v.fired),
      occasions := v.ue.occasions + [if v.fired then Fired(t, bestCell) else NotFired(t)]);
    assert Counted(ue, decided, NoBump) by {
      NothingCounted(ue, decided);
    }
    if v.best.Some? {
      TriggerCounted(decided, t, Report(s.cell, s.metrics.snr, bestCell, v.best.value.metrics.snr));
    }
  }

  lemma NothingCounted(a: Ue, b: Ue)
    requires b.stats == a.stats && b.hoCount == a.hoCount && b.hoFail == a.hoFail
    requires b.conf == a.conf && b.proc.phase == a.proc.phase
    ensures Counted(a, b, NoBump)
  {
  }

  lemma NoBumpCountsNothing(s: Statistics)
    ensures Count(s, NoBump) == s
  {
  }

  lemma TickCounted(env: Env, ue: Ue, t: real)
    ensures var o := Protocol.CheckHandover(env, ue, t); Counted(ue, o.ue, o.bump)
  {
    hide CheckExecution, Measure, Counted;
    CheckExecutionCounted(env, ue, t);
    MeasureCounted(env, ue, ue.(meas := Resync(ue, t).(lastTime := t)), t);
    NothingCounted(ue, ue);
    NothingCounted(ue, ue.(meas := Resync(ue, t)));
  }

  lemma MeasureCounted(env: Env, ue: Ue, a: Ue, t: real)
    requires a == ue.(meas := a.meas)
    ensures var o := Measure(env, a, t); Counted(ue, o.ue, o.bump)
  {
    hide Count, UplinkDelay, MeasureServing, Detected, FindCell, Trigger;
    NoBumpCountsNothing(ue.stats);
    var ms := Detected(env, a.cache, t, |env.satellites|);
    var found := FindCell(ms, a.meas.serving);
    if found.Some? {
      ServingCounted(env, a, t, ms, found.value);
    }
    var lost := a.(context := ClearContext(env.cfg, a), occasions := a.occasions + [RadioLinkFailure(t)]);
    TriggerCounted(lost, t, Report(a.meas.serving, NO_SNR, NO_CELL, NO_SNR));
  }

  lemma CheckExecutionCounted(env: Env, ue: Ue, t: real)
    ensures var o := CheckExecution(env, ue, t); Counted(ue, o.ue, o.bump)
  {
    hide Count, Execute, Expire, ConditionMet;
    NoBumpCountsNothing(ue.stats);
    var seen := ue.(checks := ue.checks + [Check(t, true)], proc := ue.proc.(tttActive := false));
    if ue.proc.phase == Evaluating {
      ExpireCounted(env, ue);
      ExecuteCounted(env, seen, t, ue.proc.source, ue.proc.target);
    }
  }

  lemma ExpireCounted(env: Env, ue: Ue)
    requires ue.proc.phase == Evaluating
    ensures var o := Expire(env, ue); Counted(ue, o.ue, o.bump)
  {
    hide Count;
  }

  lemma ExecuteCounted(env: Env, ue: Ue, t: real, source: Cell, target: Cell)
    requires ue.proc.phase == Evaluating
    ensures var o := Execute(env, ue, t, source, target); Counted(ue, o.ue, o.bump)
  {
    hide Count, UplinkDelay, AppliedRate;
  }

  lemma EndCounted(env: Env, ue: Ue, t: real, source: Cell, target: Cell)
    requires ue.proc.phase == Executing
    ensures var o := Complete(env, ue, t, source, target); Counted(ue, o.ue, o.bump)
    ensures var o := Fail(env, ue, t); Counted(ue, o.ue, o.bump)
  {
    hide Count, AppliedRate;
  }

  lemma HopCounted(env: Env, ue: Ue, t: real, hop: Hop, source: Cell, target: Cell)
    ensures var o := HandleHop(env, ue, t, hop, source, target); Counted(ue, o.ue, o.bump)
  {
    hide Count, LinkViable, Complete, Fail;
    NoBumpCountsNothing(ue.stats);
    if ue.proc.phase == Executing {
      EndCounted(env, ue, t, source, target);
    }
  }

  lemma PreparedCounted(env: Env, ue: Ue, t: real)
    ensures Counted(ue, PreparedUe(env, ue, t), NoBump)
  {
    hide Refresh, FirstServing, AppliedRate;
    RefreshFrame(env, ue, t, |env.satellites|);
  }

  // ----- sums over all UEs -----

  datatype Counter =
    | Reports | Sent | Received | Executions | Successes | Failures | Expiries
    | ProcedureDelay | ExecutionDelay

  function Read(s: Statistics, c: Counter): real {
    match c
    case Reports => s.totalReports as real
    case Sent => s.configsSent as real
    case Received => s.configsReceived as real
    case Executions => s.executions as real
    case Successes => s.successes as real
    case Failures => s.failures as real
    case Expiries => s.expired as real
    case ProcedureDelay => s.totalProcedureDelay
    case ExecutionDelay => s.totalExecutionDelay
  }

  function Total(ues: seq<Ue>, c: Counter): real {
    if ues == [] then 0.0 else Read(ues[0].stats, c) + Total(ues[1..], c)
  }

  function Handovers(ues: seq<Ue>): nat {
    if ues == [] then 0 else ues[0].hoCount + Handovers(ues[1..])
  }

  function Population(ues: seq<Ue>, stage: Stage): nat {
    if ues == [] then 0 else InStage(ues[0], stage) + Population(ues[1..], stage)
  }

  lemma {:induction false} TotalChanges(ues: seq<Ue>, i: nat, ue: Ue, c: Counter)
    requires i < |ues|
    ensures Total(ues[i := ue], c) == Total(ues, c) - Read(ues[i].stats, c) + Read(ue.stats, c)
    ensures Handovers(ues[i := ue]) == Handovers(ues) - ues[i].hoCount + ue.hoCount
  {
    hide Read;
    if i == 0 {
      assert ues[i := ue][1..] == ues[1..];
    } else {
      TotalChanges(ues[1..], i - 1, ue, c);
      assert ues[i := ue][1..] == ues[1..][i - 1 := ue];
    }
  }

  lemma {:induction false} TotalSame(a: seq<Ue>, b: seq<Ue>, c: Counter)
    requires |a| == |b| && forall i :: 0 <= i < |a| ==> a[i].stats == b[i].stats && a[i].hoCount == b[i].hoCount
    ensures Total(a, c) == Total(b, c) && Handovers(a) == Handovers(b)
  {
    hide Read;
    if a != [] {
      TotalSame(a[1..], b[1..], c);
    }
  }

  lemma CountAddsUp(s: Statistics, own: Statistics, b: Bump, c: Counter)
    ensures Read(Count(s, b), c) - Read(s, c) == Read(Count(own, b), c) - Read(own, c)
  {
  }

  /** Every UE is balanced, every global counter is the sum of the UEs' own, and averages are averages. */
  ghost predicate Conserved(s: Sys) {
    && (forall i :: 0 <= i < |s.ues| ==> Balanced(s.ues[i]) && AveragesOk(s.ues[i].stats))
    && (forall c :: Read(s.stats, c) == Total(s.ues, c))
    && s.handovers == Handovers(s.ues)
    && AveragesOk(s.stats)
  }

  lemma CommitConserves(s: Sys, i: nat, o: Outcome)
    requires i < |s.ues| && Conserved(s) && Counted(s.ues[i], o.ue, o.bump)
    ensures Conserved(Commit(s, i, o))
  {
    hide Count, Read, Schedule, Tag, Balanced, AveragesOk;
    forall c ensures Read(Count(s.stats, o.bump), c) == Total(s.ues[i := o.ue], c) {
      TotalChanges(s.ues, i, o.ue, c);
      CountAddsUp(s.stats, s.ues[i].stats, o.bump, c);
    }
    TotalChanges(s.ues, i, o.ue, Reports);
    CountedKeepsBalance(s.ues[i], o.ue, o.bump);
    CountKeepsAverages(s.ues[i].stats, o.bump);
    CountKeepsAverages(s.stats, o.bump);
  }

  lemma {:induction false} ChecksConserve(env: Env, s: Sys, k: nat)
    requires k <= |s.ues| && Conserved(s)
    ensures Conserved(CheckHandovers(env, s, k))
  {
    hide Conserved, Commit, Protocol.CheckHandover;
    if k > 0 {
      ChecksConserve(env, s, k - 1);
      var s' := CheckHandovers(env, s, k - 1);
      TickCounted(env, s'.ues[k - 1], s'.now);
      CommitConserves(s', k - 1, Protocol.CheckHandover(env, s'.ues[k - 1], s'.now));
    }
  }

  lemma PreparedConserves(env: Env, s: Sys)
    requires Conserved(s)
    ensures Conserved(Prepared(env, s))
  {
    hide Read, Balanced, AveragesOk, PreparedUe, KeepFor, Count;
    var p := Prepared(env, s);
    forall i | 0 <= i < |s.ues|
      ensures p.ues[i].stats == s.ues[i].stats && p.ues[i].hoCount == s.ues[i].hoCount && Balanced(p.ues[i])
    {
      PreparedUes(env, s, i);
      PreparedCounted(env, s.ues[i], s.now);
      NoBumpCountsNothing(s.ues[i].stats);
      CountedKeepsBalance(s.ues[i], p.ues[i], NoBump);
    }
    forall c ensures Total(p.ues, c) == Total(s.ues, c) {
      TotalSame(p.ues, s.ues, c);
    }
    TotalSame(p.ues, s.ues, Reports);
  }

  lemma PreparedUes(env: Env, s: Sys, i: nat)
    requires i < |s.ues|
    ensures |Prepared(env, s).ues| == |s.ues| && Prepared(env, s).ues[i] == PreparedUe(env, s.ues[i], s.now)
  {
  }

  lemma StepConserves(env: Env, s: Sys)
    requires Conserved(s)
    ensures Conserved(Step(env, s))
  {
    hide Conserved, Commit, CheckHandovers, Prepared, HandleHop, KeepFor;
    if s.queue != [] {
      var popped := s.(now := s.queue[0].time, queue := s.queue[1..]);
      QueueDoesNotCount(s, popped);
      match s.queue[0].act
      case Tick =>
        PreparedConserves(env, popped);
        ChecksConserve(env, Prepared(env, popped), |Prepared(env, popped).ues|);
        PreparedCount(env, popped);
        var checked := CheckHandovers(env, Prepared(env, popped), |popped.ues|);
        QueueDoesNotCount(checked, checked.(queue := Insert(checked.queue, Timed(popped.now + TICK_PERIOD, Tick))));
      case Own(i, HopJob(hop, source, target)) =>
        if i < |s.ues| {
          HopCounted(env, s.ues[i], popped.now, hop, source, target);
          CommitConserves(popped, i, HandleHop(env, s.ues[i], popped.now, hop, source, target));
        }
      case Own(i, PredictJob(p)) =>
        QueueDoesNotCount(popped, popped.(predictions := KeepFor(popped.predictions, Some(i), NotSame(p))));
    }
  }

  lemma PreparedCount(env: Env, s: Sys)
    ensures |Prepared(env, s).ues| == |s.ues|
  {
  }

  lemma QueueDoesNotCount(a: Sys, b: Sys)
    requires Conserved(a) && b.ues == a.ues && b.stats == a.stats && b.handovers == a.handovers
    ensures Conserved(b)
  {
  }

  lemma {:induction false} NothingTotalled(ues: seq<Ue>, c: Counter)
    requires forall i :: 0 <= i < |ues| ==> Initial(ues[i])
    ensures Total(ues, c) == 0.0 && Handovers(ues) == 0
  {
    if ues != [] {
      NothingTotalled(ues[1..], c);
    }
  }

  lemma StartConserved(ues: seq<Ue>)
    requires forall i :: 0 <= i < |ues| ==> Initial(ues[i])
    ensures Conserved(Start(ues))
  {
    forall c ensures Total(ues, c) == 0.0 == Read(NO_STATISTICS, c) {
      NothingTotalled(ues, c);
    }
    NothingTotalled(ues, Reports);
  }

  /** Conservation in every reachable state: per UE nothing is lost between report and outcome, every
      global counter is the sum of the per-UE ones, and every average times its count is its total. */
  lemma {:induction false} CountersAreConserved(env: Env, ues: seq<Ue>, run: nat -> Sys, n: nat)
    requires forall i :: 0 <= i < |ues| ==> Initial(ues[i])
    requires IsRun(env, ues, run)
    ensures Conserved(run(n))
  {
    hide Conserved, Step;
    if n == 0 {
      StartConserved(ues);
    } else {
      CountersAreConserved(env, ues, run, n - 1);
      StepConserves(env, run(n - 1));
      assert run(n) == Step(env, run(n - 1));
    }
  }

  lemma {:induction false} BalancedTotals(ues: seq<Ue>)
    requires forall i :: 0 <= i < |ues| ==> Balanced(ues[i])
    ensures Total(ues, Reports) == Total(ues, Sent) + Population(ues, Preparing) as real
    ensures Total(ues, Sent) == Total(ues, Received) + Population(ues, Downlink) as real
    ensures Total(ues, Received) == Total(ues, Executions) + Total(ues, Expiries) + Population(ues, Deciding) as real
    ensures Total(ues, Executions) == Total(ues, Successes) + Total(ues, Failures) + Population(ues, Switching) as real
    ensures Total(ues, Successes) == Handovers(ues) as real
  {
    if ues != [] {
      BalancedTotals(ues[1..]);
    }
  }

  /** The same balance for the global statistics, with the number of UEs now in each stage. */
  lemma GlobalBalance(env: Env, ues: seq<Ue>, run: nat -> Sys, n: nat)
    requires forall i :: 0 <= i < |ues| ==> Initial(ues[i])
    requires IsRun(env, ues, run)
    ensures var s := run(n);
            && s.stats.totalReports == s.stats.configsSent + Population(s.ues, Preparing)
            && s.stats.configsSent == s.stats.configsReceived + Population(s.ues, Downlink)
            && s.stats.configsReceived == s.stats.executions + s.stats.expired + Population(s.ues, Deciding)
            && s.stats.executions == s.stats.successes + s.stats.failures + Population(s.ues, Switching)
            && s.stats.successes == s.handovers
  {
    hide Balanced;
    CountersAreConserved(env, ues, run, n);
    var s := run(n);
    BalancedTotals(s.ues);
    assert Read(s.stats, Reports) == Total(s.ues, Reports);
    assert Read(s.stats, Sent) == Total(s.ues, Sent);
    assert Read(s.stats, Received) == Total(s.ues, Received);
    assert Read(s.stats, Executions) == Total(s.ues, Executions);
    assert Read(s.stats, Expiries) == Total(s.ues, Expiries);
    assert Read(s.stats, Successes) == Total(s.ues, Successes);
    assert Read(s.stats, Failures) == Total(s.ues, Failures);
  }
}
