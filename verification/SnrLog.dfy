/** What the analysis makes of the log of an SNR run with failures: the cells of the successes, at the
    times of the outcomes. */
module SnrLog {
  import opened ChoTypes
  import opened Agenda
  import opened Channel
  import opened Protocol
  import opened SystemModel
  import opened Independence
  import opened Lockstep
  import opened StepCases
  import opened Reachable
  import opened HandoverLog
  import opened LogByUe
  import opened LogRoundTrip
  import HandoverPath

  // ----- one UE's lines among all lines -----

  lemma PrintIsNamed(lines: seq<Tagged<Line>>)
    ensures Named(Print(lines))
  {
  }

  lemma NothingPrinted(i: nat)
    ensures Of<Line>([], i) == [] && Print(Tag<Line>(i, [])) == [] == Print([])
  {
  }

  lemma PrintsAboutItsUe(line: Tagged<Line>)
    ensures About(PrintOne(line)) == Some(line.ue)
  {
  }

  lemma OfFirst(lines: seq<Tagged<Line>>, i: nat)
    requires lines != []
    ensures Of(lines, i) == if lines[0].ue == i then [lines[0].rec] + Of(lines[1..], i) else Of(lines[1..], i)
  {
  }

  lemma {:induction false} OwnLines(lines: seq<Tagged<Line>>, i: nat)
    ensures OfUe(Print(lines), i) == Print(Tag(i, Of(lines, i)))
  {
    hide Of, Tag, PrintOne;
    if lines == [] {
      NothingPrinted(i);
    } else {
      var first, rest := lines[0], lines[1..];
      OwnLines(rest, i);
      assert Print(lines) == [PrintOne(first)] + Print(rest);
      assert Print(lines)[1..] == Print(rest);
      PrintsAboutItsUe(first);
      OfFirst(lines, i);
      if first.ue == i {
        TagCons(i, first.rec, Of(rest, i));
        assert OfUe(Print(lines), i) == [PrintOne(first)] + OfUe(Print(rest), i);
      } else {
        assert OfUe(Print(lines), i) == [] + OfUe(Print(rest), i) == OfUe(Print(rest), i);
      }
    }
  }

  lemma TagCons(i: nat, line: Line, more: seq<Line>)
    ensures Print(Tag(i, [line] + more)) == [PrintOne(Tagged(i, line))] + Print(Tag(i, more))
  {
    assert ([line] + more)[1..] == more;
  }

  // ----- one UE's log -----

  /** The event read for the outcome at the same place. */
  predicate ReadsOutcome(e: Event, row: Row, i: nat) {
    e.time == row.time && e.who == Some(i) && e.trigger == if row.success then Some("A3") else None
  }

  predicate ReadsCells(e: Event, row: Row) {
    e.source == Some(row.source) && e.target == Some(row.target)
  }

  /** First in, first out: the done events have the cells of the successes, and the done and the waiting
      ones together the times of the outcomes. */
  ghost predicate Shifted(done: seq<Event>, waiting: seq<Event>, rows: seq<Row>, i: nat) {
    var hs, read := HandoverPath.Successes(rows), done + waiting;
    && |done| == |hs| && |read| == |rows|
    && (forall k :: 0 <= k < |rows| ==> ReadsOutcome(read[k], rows[k], i))
    && (forall k :: 0 <= k < |hs| ==> ReadsCells(done[k], hs[k]))
  }

  /** A failure's result goes to the end of the waiting ones. */
  lemma FailureWaits(done: seq<Event>, waiting: seq<Event>, rows: seq<Row>, i: nat, e: Event, row: Row)
    requires Shifted(done, waiting, rows, i) && ReadsOutcome(e, row, i) && !row.success
    ensures Shifted(done, waiting + [e], rows + [row], i)
  {
    hide ReadsOutcome, ReadsCells, HandoverPath.Successes;
    HandoverPath.OneRow(rows, row);
    assert done + (waiting + [e]) == (done + waiting) + [e];
  }

  /** A success's result goes to the end as well, and its completion takes the first. */
  lemma SuccessShifts(done: seq<Event>, waiting: seq<Event>, rows: seq<Row>, i: nat, e: Event, row: Row)
    requires Shifted(done, waiting, rows, i) && ReadsOutcome(e, row, i) && row.success
    ensures var w := waiting + [e];
            Shifted(done + [w[0].(source := Some(row.source), target := Some(row.target))], w[1..], rows + [row], i)
  {
    hide HandoverPath.Successes;
    var w, hs := waiting + [e], HandoverPath.Successes(rows);
    var first := w[0].(source := Some(row.source), target := Some(row.target));
    HandoverPath.OneRow(rows, row);
    var read, next := done + waiting, (done + [first]) + w[1..];
    assert w == [w[0]] + w[1..];
    forall k | 0 <= k < |rows + [row]| ensures ReadsOutcome(next[k], (rows + [row])[k], i) {
      assert k < |rows| ==> ReadsOutcome(read[k], rows[k], i);
      assert next[k] == if k == |done| then first else if k < |read| then read[k] else e;
    }
  }

  ghost predicate LogShifted(i: nat, lines: seq<Line>, rows: seq<Row>) {
    var p := FeedAll(EMPTY, Print(Tag(i, lines)));
    Owned(p) && Shifted(SliceOf(p, i).events, SliceOf(p, i).results, rows, i)
  }

  lemma OwnedAfter(p: Parser, records: seq<Record>)
    requires Owned(p) && Named(records)
    ensures Owned(FeedAll(p, records))
  {
    hide FeedAll, Owned, SliceOf;
    SlicesAgree(p, p, records, 0);
  }

  lemma FeedDebug(p: Parser, i: nat, line: Line)
    requires line.DebugLine?
    ensures var q := Feed(p, PrintOne(Tagged(i, line)));
            SliceOf(q, i).events == SliceOf(p, i).events && SliceOf(q, i).results == SliceOf(p, i).results
  {
  }

  lemma FeedResult(p: Parser, i: nat, line: Line) returns (e: Event)
    requires line.ResultLine?
    ensures var q := Feed(p, PrintOne(Tagged(i, line)));
            SliceOf(q, i).events == SliceOf(p, i).events && SliceOf(q, i).results == SliceOf(p, i).results + [e]
    ensures e.time == line.time && e.who == Some(i) && e.trigger == if line.trigger == "" then None else Some(line.trigger)
  {
    hide ResultEvent, EventsOf;
    var trigger := if line.trigger == "" then None else Some(line.trigger);
    ResultFields(p.debug, i, line.time, Some(line.decisionDelay), trigger);
    e := ResultEvent(p.debug, i, line.time, Some(line.decisionDelay), trigger);
  }

  lemma FeedCompletion(p: Parser, i: nat, line: Line)
    requires line.CompleteLine? && Owned(p) && SliceOf(p, i).results != []
    ensures var q, w := Feed(p, PrintOne(Tagged(i, line))), SliceOf(p, i).results;
            && SliceOf(q, i).events == SliceOf(p, i).events + [w[0].(source := Some(line.source), target := Some(line.target))]
            && SliceOf(q, i).results == w[1..]
  {
    hide EventsOf;
    var w := p.pendingResult[i];
    EventAppended(p.events, w[0].(source := Some(line.source), target := Some(line.target)), i);
  }

  lemma OutcomeShifts(i: nat, t: real, o: Outcome, cfg: Config, p: Parser, rows: seq<Row>)
    requires cfg.strategy == Snr && PrintsItsRows(cfg, t, o)
    requires Owned(p) && Shifted(SliceOf(p, i).events, SliceOf(p, i).results, rows, i)
    ensures var q := FeedAll(p, Print(Tag(i, o.lines)));
            Owned(q) && Shifted(SliceOf(q, i).events, SliceOf(q, i).results, rows + o.rows, i)
  {
    hide FeedAll, Feed, Shifted, Owned, SliceOf, Tag;
    PrintIsNamed(Tag(i, o.lines));
    OwnedAfter(p, Print(Tag(i, o.lines)));
    if o.lines == [] {
      NoLines(p, i);
      assert rows + [] == rows;
    } else {
      var line := o.lines[0];
      var q := Feed(p, PrintOne(Tagged(i, line)));
      if |o.lines| == 1 {
        assert o.lines == [line];
        OneLine(p, i, line);
        if line.DebugLine? {
          FeedDebug(p, i, line);
          assert rows + [] == rows;
        } else {
          var e := FeedResult(p, i, line);
          FailureWaits(SliceOf(p, i).events, SliceOf(p, i).results, rows, i, e, o.rows[0]);
          assert o.rows == [o.rows[0]];
        }
      } else {
        var complete := CompleteLine(o.rows[0].source, o.rows[0].target);
        assert o.lines == [line] + [complete];
        Then(p, i, line, [complete]);
        OneLine(q, i, complete);
        var e := FeedResult(p, i, line);
        FeedIsOwned(p, i, line);
        FeedCompletion(q, i, complete);
        SuccessShifts(SliceOf(p, i).events, SliceOf(p, i).results, rows, i, e, o.rows[0]);
        assert o.rows == [o.rows[0]];
      }
    }
  }

  lemma FeedIsOwned(p: Parser, i: nat, line: Line)
    requires Owned(p)
    ensures Owned(Feed(p, PrintOne(Tagged(i, line))))
  {
    hide Owned;
    FeedOwned(p, PrintOne(Tagged(i, line)));
  }

  // ----- whole runs -----

  lemma LogGrows(cfg: Config, i: nat, t: real, o: Outcome, lines: seq<Line>, rows: seq<Row>)
    requires cfg.strategy == Snr && LogShifted(i, lines, rows) && PrintsItsRows(cfg, t, o)
    ensures LogShifted(i, lines + o.lines, rows + o.rows)
  {
    hide FeedAll, Shifted, Owned, SliceOf, PrintsItsRows, Tag;
    TagAppend(i, lines, o.lines);
    assert Print(Tag(i, lines) + Tag(i, o.lines)) == Print(Tag(i, lines)) + Print(Tag(i, o.lines));
    FeedAllAppend(EMPTY, Print(Tag(i, lines)), Print(Tag(i, o.lines)));
    OutcomeShifts(i, t, o, cfg, FeedAll(EMPTY, Print(Tag(i, lines))), rows);
  }

  lemma {:induction false} TagAppend<T>(i: nat, a: seq<T>, b: seq<T>)
    ensures Tag(i, a + b) == Tag(i, a) + Tag(i, b)
  {
    if a == [] {
      assert a + b == b;
    } else {
      TagAppend(i, a[1..], b);
      assert (a + b)[1..] == a[1..] + b;
    }
  }

  lemma StepShifts(env: Env, i: nat, l: Local)
    requires ValidEnv(env) && env.cfg.strategy == Snr && Coherent(env, l) && LogShifted(i, l.lines, l.rows)
    ensures LogShifted(i, StepOwn(env, l).lines, StepOwn(env, l).rows)
  {
    hide StepOwn, UeOk, Protocol.CheckHandover, HandleHop, PreparedUe, Sift, LogShifted;
    if l.queue == [] {
      EmptyStep(env, l);
    } else {
      StepCase(env, l);
      var t, o := l.queue[0].time, Handled(env, l);
      match l.queue[0].act {
        case OwnTick => TickPrints(env, PreparedUe(env, l.ue, t), t);
        case OwnJob(HopJob(hop, _, _)) => HopPrints(env, l.ue, t, hop);
        case OwnJob(PredictJob(_)) =>
      }
      LogGrows(env.cfg, i, t, o, l.lines, l.rows);
    }
  }

  lemma StartShifts(i: nat)
    ensures LogShifted(i, [], [])
  {
    assert Print([]) == [];
    assert EventsOf([], i) + [] == [];
  }

  lemma {:induction false} RunShifts(env: Env, ue: Ue, i: nat, m: nat)
    requires ValidEnv(env) && env.cfg.strategy == Snr && Initial(ue)
    ensures var l := RunOwn(env, StartOwn(ue), m); LogShifted(i, l.lines, l.rows)
  {
    hide Coherent, StepOwn, LogShifted;
    StartShifts(i);
    if m > 0 {
      RunShifts(env, ue, i, m - 1);
      RunCoherent(env, ue, m - 1);
      StepShifts(env, i, RunOwn(env, StartOwn(ue), m - 1));
    }
  }

  /** What is read back of an SNR run: one event per outcome of the UE. The `k`-th has the time and the
      trigger of the UE's `k`-th outcome, and, as far as there are successes, the cells of its `k`-th
      success: from the first failure on, handovers are reported at the times of other attempts. */
  lemma CompletionsTakeTheOldestResult(env: Env, ues: seq<Ue>, run: nat -> Sys, n: nat, i: nat)
    requires Starting(env, ues) && IsRun(env, ues, run) && env.cfg.strategy == Snr && i < |ues|
    ensures var s := run(n);
            var read, outcomes, hs := EventsOf(Parsed(Print(s.lines)), i), Of(s.rows, i), HandoverPath.Successes(Of(s.rows, i));
            && |read| == |outcomes| && |hs| <= |outcomes|
            && (forall k :: 0 <= k < |outcomes| ==> ReadsOutcome(read[k], outcomes[k], i))
            && (forall k :: 0 <= k < |hs| ==> ReadsCells(read[k], hs[k]))
  {
    hide RunOwn, Parsed, FeedAll, HandoverPath.Successes, Owned, SliceOf, ReadsOutcome, ReadsCells;
    var m, l := OwnMoment(env, ues, run, i, n);
    RunShifts(env, ues[i], i, m);
    var s := run(n);
    PrintIsNamed(s.lines);
    InterleavingDoesNotMatter(Print(s.lines), i);
    OwnLines(s.lines, i);
    ParsedOf(Print(Tag(i, l.lines)), i);
  }
}
