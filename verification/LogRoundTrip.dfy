/** What the simulator prints, the log analysis reads back. */
module LogRoundTrip {
  import opened ChoTypes
  import opened Agenda
  import opened Channel
  import opened Protocol
  import opened SystemModel
  import opened Lockstep
  import opened Reachable
  import opened HandoverLog

  /** A line of a UE, as the analysis matches it. */
  function PrintOne(line: Tagged<Line>): Record {
    match line.rec
    case DebugLine(time, serving, neighbor, fired) => DebugRecord(line.ue, time, serving, neighbor, Some(if fired then 1 else 0))
    case ExecutionLine(time) => ExecutionRecord(Some(line.ue), time)
    case ResultLine(time, decisionDelay, trigger) =>
      ResultRecord(line.ue, time, Some(decisionDelay), if trigger == "" then None else Some(trigger))
    case CompleteLine(source, target) => CompletionRecord(Some(line.ue), source, target)
  }

  function Print(lines: seq<Tagged<Line>>): (r: seq<Record>)
    ensures |r| == |lines| && forall k :: 0 <= k < |lines| ==> r[k] == PrintOne(lines[k])
  {
    seq(|lines|, k requires 0 <= k < |lines| => PrintOne(lines[k]))
  }

  /** The successful handovers of the CSV, as the analysis should report them. */
  function Completed(cfg: Config, rows: seq<Tagged<Row>>): seq<Event> {
    if rows == [] then [] else Completed(cfg, rows[..|rows| - 1]) + CompletedRow(cfg, rows[|rows| - 1])
  }

  function CompletedRow(cfg: Config, row: Tagged<Row>): seq<Event> {
    if !row.rec.success then []
    else [Event(row.rec.time, Some(row.ue), Some(row.rec.source), Some(row.rec.target),
                if cfg.strategy == Topsis then None else Some(TriggerName(cfg)))]
  }

  /** No result waits for its completion. */
  ghost predicate Settled(p: Parser) {
    forall ue :: ue in p.pendingResult ==> p.pendingResult[ue] == []
  }

  ghost predicate Faithful(cfg: Config, lines: seq<Tagged<Line>>, rows: seq<Tagged<Row>>) {
    var p := FeedAll(EMPTY, Print(lines));
    Settled(p) && p.events == Completed(cfg, rows)
  }

  lemma {:induction false} SettledLeavesNothing(p: Parser, k: nat)
    requires Settled(p) && k <= |p.reporters|
    ensures Leftover(p, k) == []
  {
    if k > 0 {
      SettledLeavesNothing(p, k - 1);
    }
  }

  // ----- what one handler prints -----

  lemma Appended(lines: seq<Tagged<Line>>, i: nat, more: seq<Line>)
    ensures FeedAll(EMPTY, Print(lines + Tag(i, more))) == FeedAll(FeedAll(EMPTY, Print(lines)), Print(Tag(i, more)))
  {
    hide FeedAll, Tag;
    assert Print(lines + Tag(i, more)) == Print(lines) + Print(Tag(i, more));
    FeedAllAppend(EMPTY, Print(lines), Print(Tag(i, more)));
  }

  lemma OneLine(p: Parser, i: nat, line: Line)
    ensures FeedAll(p, Print(Tag(i, [line]))) == Feed(p, PrintOne(Tagged(i, line)))
  {
    hide Feed, FeedAll;
    assert Tag(i, [line]) == [Tagged(i, line)];
    assert Print([Tagged(i, line)]) == [PrintOne(Tagged(i, line))];
    FeedOne(p, PrintOne(Tagged(i, line)));
  }

  lemma Then(p: Parser, i: nat, line: Line, more: seq<Line>)
    ensures FeedAll(p, Print(Tag(i, [line] + more))) == FeedAll(Feed(p, PrintOne(Tagged(i, line))), Print(Tag(i, more)))
  {
    hide Feed, FeedAll;
    assert ([line] + more)[1..] == more;
    assert Tag(i, [line] + more) == [Tagged(i, line)] + Tag(i, more);
    assert Print([Tagged(i, line)] + Tag(i, more)) == [PrintOne(Tagged(i, line))] + Print(Tag(i, more));
    FeedAllAppend(p, [PrintOne(Tagged(i, line))], Print(Tag(i, more)));
    FeedOne(p, PrintOne(Tagged(i, line)));
  }

  lemma NoLines(p: Parser, i: nat)
    ensures FeedAll(p, Print(Tag<Line>(i, []))) == p
  {
    assert Print([]) == [];
  }

  lemma OneCompleted(cfg: Config, rows: seq<Tagged<Row>>, i: nat, row: Row)
    ensures Completed(cfg, rows + Tag(i, [row])) == Completed(cfg, rows) + CompletedRow(cfg, Tagged(i, row))
    ensures Completed(cfg, rows + Tag<Row>(i, [])) == Completed(cfg, rows)
  {
    assert Tag(i, [row]) == [Tagged(i, row)];
    assert (rows + [Tagged(i, row)])[..|rows|] == rows;
    assert rows + Tag<Row>(i, []) == rows;
  }

  /** Debug and execution lines start nothing and finish nothing. */
  lemma Harmless(p: Parser, i: nat, line: Line)
    requires line.DebugLine? || line.ExecutionLine?
    ensures var q := Feed(p, PrintOne(Tagged(i, line)));
            q.events == p.events && q.pendingResult == p.pendingResult && q.reporters == p.reporters
    ensures line.ExecutionLine? ==> Some(i) in Feed(p, PrintOne(Tagged(i, line))).pendingExec &&
                                    Feed(p, PrintOne(Tagged(i, line))).pendingExec[Some(i)] == line.time
  {
  }

  /** A result and its completion, back to back, are one event. */
  lemma ResultThenComplete(p: Parser, i: nat, t: real, delay: real, trigger: string, source: Cell, target: Cell)
    requires i in p.pendingResult ==> p.pendingResult[i] == []
    ensures var q := FeedAll(p, Print(Tag(i, [ResultLine(t, delay, trigger), CompleteLine(source, target)])));
            && q.events == p.events + [Event(t, Some(i), Some(source), Some(target), if trigger == "" then None else Some(trigger))]
            && (forall ue :: ue in q.pendingResult ==>
                  q.pendingResult[ue] == [] || (ue in p.pendingResult && q.pendingResult[ue] == p.pendingResult[ue]))
  {
    hide FeedAll, ResultEvent, Guess;
    var result, complete := ResultLine(t, delay, trigger), CompleteLine(source, target);
    assert [result, complete] == [result] + [complete];
    Then(p, i, result, [complete]);
    OneLine(Feed(p, PrintOne(Tagged(i, result))), i, complete);
    ResultFields(p.debug, i, t, Some(delay), if trigger == "" then None else Some(trigger));
  }

  lemma ResultFields(debug: map<nat, seq<Seen>>, ue: nat, time: real, decisionDelay: Option<real>, trigger: Option<string>)
    ensures var e := ResultEvent(debug, ue, time, decisionDelay, trigger);
            e.time == time && e.who == Some(ue) && e.trigger == trigger
  {
  }

  /** Without a result, a completion takes the time of the execution line before it. */
  lemma ExecutionThenComplete(p: Parser, i: nat, t: real, source: Cell, target: Cell)
    requires i in p.pendingResult ==> p.pendingResult[i] == []
    ensures var q := FeedAll(p, Print(Tag(i, [ExecutionLine(t), CompleteLine(source, target)])));
            && q.events == p.events + [Event(t, Some(i), Some(source), Some(target), None)]
            && q.pendingResult == p.pendingResult
  {
    hide FeedAll;
    var exec, complete := ExecutionLine(t), CompleteLine(source, target);
    assert [exec, complete] == [exec] + [complete];
    Then(p, i, exec, [complete]);
    OneLine(Feed(p, PrintOne(Tagged(i, exec))), i, complete);
  }

  /** A handler prints a line for each handover it reports, and none it does not. */
  ghost predicate PrintsItsRows(cfg: Config, t: real, o: Outcome) {
    || (o.rows == [] && (o.lines == [] || (|o.lines| == 1 && o.lines[0].DebugLine?)))
    || (|o.rows| == 1 && !o.rows[0].success && cfg.strategy != Snr && (o.lines == [] || o.lines == [ExecutionLine(t)]))
    || (|o.rows| == 1 && !o.rows[0].success && o.rows[0].time == t && cfg.strategy == Snr && |o.lines| == 1
        && o.lines[0].ResultLine? && o.lines[0].time == t && o.lines[0].trigger == "")
    || (|o.rows| == 1 && o.rows[0].success && o.rows[0].time == t &&
        var complete := CompleteLine(o.rows[0].source, o.rows[0].target);
        if cfg.strategy == Topsis then o.lines == [ExecutionLine(t), complete]
        else exists delay :: var result := ResultLine(t, delay, TriggerName(cfg));
             o.lines == (if cfg.strategy == Distance then [ExecutionLine(t)] else []) + [result, complete])
  }

  lemma CommitFaithful(env: Env, s: Sys, i: nat, o: Outcome)
    requires i < |s.ues| && Faithful(env.cfg, s.lines, s.rows) && PrintsItsRows(env.cfg, s.now, o)
    requires env.cfg.strategy == Snr ==> o.rows == [] || o.rows[0].success
    ensures Faithful(env.cfg, Commit(s, i, o).lines, Commit(s, i, o).rows)
  {
    hide FeedAll, Feed, Schedule, Count, Tag, Completed;
    Appended(s.lines, i, o.lines);
    var p := FeedAll(EMPTY, Print(s.lines));
    if o.rows == [] {
      OneCompleted(env.cfg, s.rows, i, Row(0.0, NO_CELL, NO_CELL, false));
      FewLines(p, i, o.lines);
    } else {
      OneCompleted(env.cfg, s.rows, i, o.rows[0]);
      assert o.rows == [o.rows[0]];
      if !o.rows[0].success {
        FewLines(p, i, o.lines);
      } else {
        SuccessLines(env.cfg, p, i, s.now, o);
      }
    }
  }

  lemma FewLines(p: Parser, i: nat, lines: seq<Line>)
    requires lines == [] || (|lines| == 1 && (lines[0].DebugLine? || lines[0].ExecutionLine?))
    ensures var q := FeedAll(p, Print(Tag(i, lines)));
            q.events == p.events && q.pendingResult == p.pendingResult && q.reporters == p.reporters
  {
    hide FeedAll, Feed;
    NoLines(p, i);
    if lines != [] {
      assert lines == [lines[0]];
      OneLine(p, i, lines[0]);
      Harmless(p, i, lines[0]);
    }
  }

  lemma SuccessLines(cfg: Config, p: Parser, i: nat, t: real, o: Outcome)
    requires Settled(p) && |o.rows| == 1 && o.rows[0].success && PrintsItsRows(cfg, t, o)
    ensures var q := FeedAll(p, Print(Tag(i, o.lines)));
            Settled(q) && q.events == p.events + CompletedRow(cfg, Tagged(i, o.rows[0]))
  {
    hide FeedAll, Feed;
    var source, target := o.rows[0].source, o.rows[0].target;
    if cfg.strategy == Topsis {
      ExecutionThenComplete(p, i, t, source, target);
    } else {
      var delay :| o.lines == (if cfg.strategy == Distance then [ExecutionLine(t)] else [])
                   + [ResultLine(t, delay, TriggerName(cfg)), CompleteLine(source, target)];
      var tail := [ResultLine(t, delay, TriggerName(cfg)), CompleteLine(source, target)];
      if cfg.strategy == Distance {
        Then(p, i, ExecutionLine(t), tail);
        Harmless(p, i, ExecutionLine(t));
        ResultThenComplete(Feed(p, PrintOne(Tagged(i, ExecutionLine(t)))), i, t, delay, TriggerName(cfg), source, target);
      } else {
        assert o.lines == tail;
        ResultThenComplete(p, i, t, delay, TriggerName(cfg), source, target);
      }
    }
  }

  // ----- every handler prints its rows -----

  lemma TickPrints(env: Env, ue: Ue, t: real)
    ensures var o := Protocol.CheckHandover(env, ue, t);
            o.rows == [] && (o.lines == [] || (|o.lines| == 1 && o.lines[0].DebugLine?))
  {
    hide TakeSurvey, Detected, FindCell, ConditionMet, Count, UplinkDelay, AppliedRate, Decide, ContextAfter;
  }

  /** Every printed decision delay is the time since the report. */
  ghost predicate PrintsDelays(lines: seq<Line>, delay: real) {
    forall k :: 0 <= k < |lines| && lines[k].ResultLine? ==> lines[k].decisionDelay == delay
  }

  lemma HopPrints(env: Env, ue: Ue, t: real, hop: Hop)
    requires UeOk(env, ue) && Awaits(ue.proc.phase) == Some(hop)
    ensures var o := HandleHop(env, ue, t, hop, ue.proc.source, ue.proc.target);
            PrintsItsRows(env.cfg, t, o) && PrintsDelays(o.lines, t - ue.proc.startTime)
  {
    hide Count, UplinkDelay, AppliedRate, LinkViable, Complete, Fail;
    if hop == ExecutionComplete {
      EndPrints(env, ue, t);
    }
  }

  lemma EndPrints(env: Env, ue: Ue, t: real)
    requires UeOk(env, ue) && ue.proc.phase == Executing
    ensures PrintsItsRows(env.cfg, t, Fail(env, ue, t))
    ensures PrintsItsRows(env.cfg, t, Complete(env, ue, t, ue.proc.source, ue.proc.target))
    ensures PrintsDelays(Fail(env, ue, t).lines, t - ue.proc.startTime)
    ensures PrintsDelays(Complete(env, ue, t, ue.proc.source, ue.proc.target).lines, t - ue.proc.startTime)
  {
    hide Count, AppliedRate;
    var o := Complete(env, ue, t, ue.proc.source, ue.proc.target);
    if env.cfg.strategy != Topsis {
      var result := ResultLine(t, t - ue.context.decisionTime, TriggerName(env.cfg));
      assert o.lines == ExecutionLines(env.cfg, t) + [result] + [CompleteLine(ue.proc.source, ue.proc.target)];
      assert o.lines == ExecutionLines(env.cfg, t) + [result, CompleteLine(ue.proc.source, ue.proc.target)];
    }
  }

  // ----- whole runs -----

  lemma {:induction false} ChecksFaithful(env: Env, s: Sys, k: nat)
    requires k <= |s.ues| && Faithful(env.cfg, s.lines, s.rows)
    ensures Faithful(env.cfg, CheckHandovers(env, s, k).lines, CheckHandovers(env, s, k).rows)
    ensures CheckHandovers(env, s, k).rows == s.rows
  {
    hide Protocol.CheckHandover, Commit, Faithful;
    if k > 0 {
      ChecksFaithful(env, s, k - 1);
      var s' := CheckHandovers(env, s, k - 1);
      TickPrints(env, s'.ues[k - 1], s'.now);
      var o := Protocol.CheckHandover(env, s'.ues[k - 1], s'.now);
      CommitFaithful(env, s', k - 1, o);
      CommitRows(s', k - 1, o);
    }
  }

  lemma CommitRows(s: Sys, i: nat, o: Outcome)
    requires i < |s.ues|
    ensures Commit(s, i, o).rows == s.rows + Tag(i, o.rows)
    ensures o.rows == [] ==> Commit(s, i, o).rows == s.rows
    ensures |o.rows| == 1 ==> Commit(s, i, o).rows == s.rows + [Tagged(i, o.rows[0])]
    ensures Commit(s, i, o).lines == s.lines + Tag(i, o.lines)
  {
    hide Schedule, Count;
    if |o.rows| == 1 {
      assert o.rows == [o.rows[0]];
    }
  }

  /** The records of the shared log before and after a tick. */
  lemma TickFaithful(env: Env, s: Sys)
    requires Faithful(env.cfg, s.lines, s.rows)
    ensures Faithful(env.cfg, HandleTick(env, s).lines, HandleTick(env, s).rows) && HandleTick(env, s).rows == s.rows
  {
    hide Faithful, CheckHandovers;
    PreparedLogs(env, s);
    ChecksFaithful(env, Prepared(env, s), |s.ues|);
  }

  lemma PreparedLogs(env: Env, s: Sys)
    ensures var p := Prepared(env, s); |p.ues| == |s.ues| && p.lines == s.lines && p.rows == s.rows
  {
  }

  ghost predicate AllSucceeded(rows: seq<Tagged<Row>>) {
    forall k :: 0 <= k < |rows| ==> rows[k].rec.success
  }

  /** The hop at the head of a reachable queue. */
  lemma HeadPrints(env: Env, ues: seq<Ue>, run: nat -> Sys, n: nat)
    requires Starting(env, ues) && IsRun(env, ues, run)
    ensures |run(n).ues| == |ues|
    ensures var s := run(n);
            s.queue != [] && s.queue[0].act.Own? && s.queue[0].act.job.HopJob? && s.queue[0].act.ue < |ues| ==>
              var i, job := s.queue[0].act.ue, s.queue[0].act.job;
              PrintsItsRows(env.cfg, s.queue[0].time, HandleHop(env, s.ues[i], s.queue[0].time, job.hop, job.source, job.target))
  {
    hide UeOk, HandleHop, PrintsItsRows;
    UesStay(env, ues, run, n);
    var s := run(n);
    if s.queue != [] && s.queue[0].act.Own? && s.queue[0].act.job.HopJob? && s.queue[0].act.ue < |ues| {
      HeadHop(env, ues, run, n, s.queue[0].act.ue);
      HopPrints(env, s.ues[s.queue[0].act.ue], s.queue[0].time, s.queue[0].act.job.hop);
    }
  }

  lemma StepFaithful(env: Env, ues: seq<Ue>, run: nat -> Sys, n: nat)
    requires Starting(env, ues) && IsRun(env, ues, run)
    requires Faithful(env.cfg, run(n).lines, run(n).rows)
    ensures var s, s' := run(n), run(n + 1);
            env.cfg.strategy != Snr || AllSucceeded(s'.rows) ==> Faithful(env.cfg, s'.lines, s'.rows)
  {
    hide Faithful, HandleHop, PrintsItsRows, Commit, HandleTick, KeepFor;
    UesStay(env, ues, run, n);
    var s := run(n);
    assert run(n + 1) == Step(env, s);
    if s.queue != [] {
      var popped := s.(now := s.queue[0].time, queue := s.queue[1..]);
      match s.queue[0].act
      case Tick => TickFaithful(env, popped);
      case Own(i, HopJob(hop, source, target)) =>
        if i < |ues| {
          HeadPrints(env, ues, run, n);
          var o := HandleHop(env, s.ues[i], popped.now, hop, source, target);
          CommitRows(popped, i, o);
          HopRows(env, popped.now, o);
          if o.rows != [] {
            assert Commit(popped, i, o).rows[|s.rows|] == Tagged(i, o.rows[0]);
          }
          if env.cfg.strategy != Snr || o.rows == [] || o.rows[0].success {
            CommitFaithful(env, popped, i, o);
          }
        }
      case Own(_, PredictJob(_)) =>
    }
  }

  lemma HopRows(env: Env, t: real, o: Outcome)
    requires PrintsItsRows(env.cfg, t, o)
    ensures |o.rows| <= 1
  {
  }

  lemma StartFaithful(cfg: Config)
    ensures Faithful(cfg, [], [])
  {
    assert Print([]) == [];
  }

  /** The rows of a run only grow. */
  lemma StepRows(env: Env, s: Sys)
    ensures s.rows <= Step(env, s).rows
  {
    hide HandleHop, Schedule, Count, Tag, KeepFor, CheckHandovers, Prepared;
    if s.queue != [] && s.queue[0].act == Tick {
      var popped := s.(now := s.queue[0].time, queue := s.queue[1..]);
      PreparedLogs(env, popped);
      CheckRows(env, Prepared(env, popped), |s.ues|);
    }
  }

  lemma {:induction false} CheckRows(env: Env, s: Sys, k: nat)
    requires k <= |s.ues|
    ensures CheckHandovers(env, s, k).rows == s.rows
  {
    hide Protocol.CheckHandover, Commit;
    if k > 0 {
      CheckRows(env, s, k - 1);
      var s' := CheckHandovers(env, s, k - 1);
      TickPrints(env, s'.ues[k - 1], s'.now);
      CommitRows(s', k - 1, Protocol.CheckHandover(env, s'.ues[k - 1], s'.now));
    }
  }

  lemma {:induction false} RunFaithful(env: Env, ues: seq<Ue>, run: nat -> Sys, n: nat)
    requires Starting(env, ues) && IsRun(env, ues, run)
    requires env.cfg.strategy != Snr || AllSucceeded(run(n).rows)
    ensures Faithful(env.cfg, run(n).lines, run(n).rows)
  {
    hide Faithful, Step;
    if n == 0 {
      StartFaithful(env.cfg);
    } else {
      StepRows(env, run(n - 1));
      RunFaithful(env, ues, run, n - 1);
      StepFaithful(env, ues, run, n - 1);
    }
  }

  lemma FaithfulIsParsed(cfg: Config, lines: seq<Tagged<Line>>, rows: seq<Tagged<Row>>)
    requires Faithful(cfg, lines, rows)
    ensures Parsed(Print(lines)) == Completed(cfg, rows)
  {
    hide FeedAll, Completed;
    var p := FeedAll(EMPTY, Print(lines));
    SettledLeavesNothing(p, |p.reporters|);
  }

  /** Log round trip: whatever the interleaving of the UEs, the analysis of a trend-aware, TOPSIS or
      distance log is exactly the list of successful handovers with their UEs, cells and times. */
  lemma LogReadsBack(env: Env, ues: seq<Ue>, run: nat -> Sys, n: nat)
    requires Starting(env, ues) && IsRun(env, ues, run) && env.cfg.strategy != Snr
    ensures var s := run(n); Parsed(Print(s.lines)) == Completed(env.cfg, s.rows)
  {
    hide Faithful, Parsed, Completed;
    RunFaithful(env, ues, run, n);
    var s := run(n);
    FaithfulIsParsed(env.cfg, s.lines, s.rows);
  }

  // ----- the SNR log, where a failure prints a result too -----

  ghost predicate Listed(p: Parser) {
    && (forall k :: 0 <= k < |p.reporters| ==> p.reporters[k] in p.pendingResult)
    && (forall ue :: ue in p.pendingResult ==> ue in p.reporters)
    && (forall j, k :: 0 <= j < k < |p.reporters| ==> p.reporters[j] != p.reporters[k])
  }

  function Tally(p: Parser): nat {
    |p.events| + |Leftover(p, |p.reporters|)|
  }

  lemma SamePrefix(a: seq<nat>, b: seq<nat>, k: nat)
    requires 0 < k <= |a| && k <= |b| && a[..k] == b[..k]
    ensures a[..k - 1] == b[..k - 1] && a[k - 1] == b[k - 1] && a[..k] == a[..k - 1] + [a[k - 1]]
  {
    assert a[..k - 1] == a[..k][..k - 1] && b[..k - 1] == b[..k][..k - 1];
    assert a[k - 1] == a[..k][k - 1] && b[k - 1] == b[..k][k - 1];
  }

  lemma ListedAt(p: Parser, k: nat)
    requires Listed(p) && 0 < k <= |p.reporters|
    ensures p.reporters[k - 1] in p.pendingResult && p.reporters[k - 1] !in p.reporters[..k - 1]
  {
  }

  lemma {:induction false} LeftoverChanges(p: Parser, q: Parser, ue: nat, k: nat)
    requires Listed(p) && k <= |p.reporters| && ue in p.pendingResult
    requires k <= |q.reporters| && q.reporters[..k] == p.reporters[..k]
    requires ue in q.pendingResult
    requires forall u :: u in p.pendingResult && u != ue ==> u in q.pendingResult && q.pendingResult[u] == p.pendingResult[u]
    ensures |Leftover(q, k)| == |Leftover(p, k)| + if ue in p.reporters[..k] then |q.pendingResult[ue]| - |p.pendingResult[ue]| else 0
  {
    hide Leftover, Listed;
    if k == 0 {
      LeftoverNone(p);
      LeftoverNone(q);
    } else {
      SamePrefix(p.reporters, q.reporters, k);
      ListedAt(p, k);
      LeftoverNext(p, k - 1);
      LeftoverNext(q, k - 1);
      LeftoverChanges(p, q, ue, k - 1);
    }
  }

  lemma {:induction false} LeftoverSame(p: Parser, q: Parser, k: nat)
    requires k <= |p.reporters| && k <= |q.reporters| && q.reporters[..k] == p.reporters[..k]
    requires forall j :: 0 <= j < k ==> p.reporters[j] in p.pendingResult && p.reporters[j] in q.pendingResult &&
                                        q.pendingResult[p.reporters[j]] == p.pendingResult[p.reporters[j]]
    ensures Leftover(q, k) == Leftover(p, k)
  {
    if k > 0 {
      assert q.reporters[..k - 1] == q.reporters[..k][..k - 1] == p.reporters[..k][..k - 1] == p.reporters[..k - 1];
      LeftoverSame(p, q, k - 1);
      assert q.reporters[k - 1] == q.reporters[..k][k - 1] == p.reporters[..k][k - 1];
    }
  }

  lemma DebugTally(p: Parser, r: Record)
    requires Listed(p) && r.DebugRecord?
    ensures Listed(Feed(p, r)) && Tally(Feed(p, r)) == Tally(p)
  {
    hide Leftover;
    LeftoverSame(p, Feed(p, r), |p.reporters|);
  }

  /** A result adds one entry. */
  lemma ResultTally(p: Parser, r: Record)
    requires Listed(p) && r.ResultRecord?
    ensures var q := Feed(p, r);
            Listed(q) && Tally(q) == Tally(p) + 1 && r.ue in q.pendingResult && q.pendingResult[r.ue] != []
  {
    hide ResultEvent, Leftover;
    var q, ue := Feed(p, r), r.ue;
    if ue in p.pendingResult {
      LeftoverChanges(p, q, ue, |p.reporters|);
      assert p.reporters[..|p.reporters|] == p.reporters;
    } else {
      NewReporter(p, q, ue);
    }
  }

  lemma NewReporter(p: Parser, q: Parser, ue: nat)
    requires Listed(p) && ue !in p.pendingResult && q.events == p.events
    requires ue in q.pendingResult && |q.pendingResult[ue]| == 1
    requires q.pendingResult == p.pendingResult[ue := q.pendingResult[ue]] && q.reporters == p.reporters + [ue]
    ensures Listed(q) && Tally(q) == Tally(p) + 1
  {
    hide Leftover;
    assert q.reporters[..|p.reporters|] == p.reporters == p.reporters[..|p.reporters|];
    LeftoverSame(p, q, |p.reporters|);
    LeftoverNext(q, |p.reporters|);
  }

  /** A completion moves one entry from waiting to done. */
  lemma CompletionTally(p: Parser, r: Record)
    requires Listed(p) && r.CompletionRecord? && r.who.Some?
    requires r.who.value in p.pendingResult && p.pendingResult[r.who.value] != []
    ensures Listed(Feed(p, r)) && Tally(Feed(p, r)) == Tally(p)
  {
    hide Leftover;
    LeftoverChanges(p, Feed(p, r), r.who.value, |p.reporters|);
    assert p.reporters[..|p.reporters|] == p.reporters;
  }

  ghost predicate Tallied(lines: seq<Tagged<Line>>, rows: seq<Tagged<Row>>) {
    var p := FeedAll(EMPTY, Print(lines));
    Listed(p) && Tally(p) == |rows|
  }

  lemma OutcomeTally(cfg: Config, p: Parser, i: nat, t: real, o: Outcome)
    requires Listed(p) && cfg.strategy == Snr && PrintsItsRows(cfg, t, o)
    ensures var q := FeedAll(p, Print(Tag(i, o.lines))); Listed(q) && Tally(q) == Tally(p) + |o.rows|
  {
    hide FeedAll, Feed, Tally, Listed;
    NoLines(p, i);
    if |o.lines| == 1 {
      assert o.lines == [o.lines[0]];
      OneLine(p, i, o.lines[0]);
      if o.lines[0].DebugLine? {
        DebugTally(p, PrintOne(Tagged(i, o.lines[0])));
      } else {
        ResultTally(p, PrintOne(Tagged(i, o.lines[0])));
      }
    } else if |o.rows| == 1 && o.rows[0].success {
      var result, complete := o.lines[0], CompleteLine(o.rows[0].source, o.rows[0].target);
      assert result.ResultLine? && o.lines == [result] + [complete];
      var q := Feed(p, PrintOne(Tagged(i, result)));
      Then(p, i, result, [complete]);
      OneLine(q, i, complete);
      ResultTally(p, PrintOne(Tagged(i, result)));
      CompletionTally(q, PrintOne(Tagged(i, complete)));
    }
  }

  lemma CommitTallied(env: Env, s: Sys, i: nat, o: Outcome)
    requires i < |s.ues| && env.cfg.strategy == Snr && Tallied(s.lines, s.rows) && PrintsItsRows(env.cfg, s.now, o)
    ensures Tallied(Commit(s, i, o).lines, Commit(s, i, o).rows)
  {
    hide FeedAll, Feed, Tally, Listed, Schedule, Count, Tag, PrintsItsRows;
    Appended(s.lines, i, o.lines);
    OutcomeTally(env.cfg, FeedAll(EMPTY, Print(s.lines)), i, s.now, o);
    HopRows(env, s.now, o);
    CommitRows(s, i, o);
  }

  lemma {:induction false} ChecksTallied(env: Env, s: Sys, k: nat)
    requires k <= |s.ues| && env.cfg.strategy == Snr && Tallied(s.lines, s.rows)
    ensures Tallied(CheckHandovers(env, s, k).lines, CheckHandovers(env, s, k).rows)
  {
    hide Protocol.CheckHandover, Commit, Tallied;
    if k > 0 {
      ChecksTallied(env, s, k - 1);
      var s' := CheckHandovers(env, s, k - 1);
      TickPrints(env, s'.ues[k - 1], s'.now);
      CommitTallied(env, s', k - 1, Protocol.CheckHandover(env, s'.ues[k - 1], s'.now));
    }
  }

  lemma StepTallied(env: Env, ues: seq<Ue>, run: nat -> Sys, n: nat)
    requires Starting(env, ues) && IsRun(env, ues, run) && env.cfg.strategy == Snr
    requires Tallied(run(n).lines, run(n).rows)
    ensures Tallied(run(n + 1).lines, run(n + 1).rows)
  {
    hide Tallied, HandleHop, PrintsItsRows, Commit, Prepared, CheckHandovers, KeepFor;
    UesStay(env, ues, run, n);
    var s := run(n);
    assert run(n + 1) == Step(env, s);
    if s.queue != [] {
      var popped := s.(now := s.queue[0].time, queue := s.queue[1..]);
      match s.queue[0].act
      case Tick =>
        PreparedLogs(env, popped);
        ChecksTallied(env, Prepared(env, popped), |ues|);
      case Own(i, HopJob(hop, source, target)) =>
        if i < |ues| {
          HeadPrints(env, ues, run, n);
          CommitTallied(env, popped, i, HandleHop(env, s.ues[i], popped.now, hop, source, target));
        }
      case Own(_, PredictJob(_)) =>
    }
  }

  lemma {:induction false} RunTallied(env: Env, ues: seq<Ue>, run: nat -> Sys, n: nat)
    requires Starting(env, ues) && IsRun(env, ues, run) && env.cfg.strategy == Snr
    ensures Tallied(run(n).lines, run(n).rows)
  {
    hide Step, Tallied;
    if n == 0 {
      StartTallied();
    } else {
      RunTallied(env, ues, run, n - 1);
      StepTallied(env, ues, run, n - 1);
    }
  }

  lemma StartTallied()
    ensures Tallied([], [])
  {
    assert Print([]) == [];
  }

  lemma {:induction false} CompletedSize(cfg: Config, rows: seq<Tagged<Row>>)
    ensures |Completed(cfg, rows)| <= |rows|
    ensures |Completed(cfg, rows)| == |rows| ==> AllSucceeded(rows)
  {
    if rows != [] {
      CompletedSize(cfg, rows[..|rows| - 1]);
      if |Completed(cfg, rows)| == |rows| {
        forall k | 0 <= k < |rows| ensures rows[k].rec.success {
          if k < |rows| - 1 {
            assert rows[..|rows| - 1][k] == rows[k];
          }
        }
      }
    }
  }

  /** The SNR strategy prints a result for a failure as well, and the analysis cannot tell it from a
      success whose completion is still to come: its log reads back exactly when no handover failed. */
  lemma SnrLogReadsBack(env: Env, ues: seq<Ue>, run: nat -> Sys, n: nat)
    requires Starting(env, ues) && IsRun(env, ues, run) && env.cfg.strategy == Snr
    ensures var s := run(n);
            && |Parsed(Print(s.lines))| == |s.rows|
            && (Parsed(Print(s.lines)) == Completed(env.cfg, s.rows) <==> AllSucceeded(s.rows))
  {
    hide Faithful, Completed, Leftover, FeedAll, Listed, AllSucceeded;
    var s := run(n);
    RunTallied(env, ues, run, n);
    CompletedSize(env.cfg, s.rows);
    if AllSucceeded(s.rows) {
      RunFaithful(env, ues, run, n);
      FaithfulIsParsed(env.cfg, s.lines, s.rows);
    }
  }
}
