/** count_pingpong, and what it counts: returns along the handover path of each UE. */
module PingPong {
  import opened ChoTypes
  import opened Protocol
  import opened SystemModel
  import opened Independence
  import opened HandoverLog
  import opened Reachable
  import HandoverPath
  import LogRoundTrip

  predicate Usable(e: Event) {
    e.source.Some? && e.target.Some?
  }

  function ByWho(events: seq<Event>, who: Option<nat>): seq<Event> {
    if events == [] then []
    else
      var last := events[|events| - 1];
      ByWho(events[..|events| - 1], who) + if Usable(last) && last.who == who then [last] else []
  }

  /** The UEs in the order in which they first occur. */
  function Order(events: seq<Event>): seq<Option<nat>> {
    if events == [] then []
    else
      var rest, last := Order(events[..|events| - 1]), events[|events| - 1];
      if Usable(last) && last.who !in rest then rest + [last.who] else rest
  }

  /** The stable sort by time. */
  function InsertByTime(sorted: seq<Event>, e: Event): seq<Event> {
    if sorted == [] || sorted[|sorted| - 1].time <= e.time then sorted + [e]
    else InsertByTime(sorted[..|sorted| - 1], e) + [sorted[|sorted| - 1]]
  }

  function ByTime(events: seq<Event>): seq<Event> {
    if events == [] then [] else InsertByTime(ByTime(events[..|events| - 1]), events[|events| - 1])
  }

  predicate IsReturn(first: Event, second: Event, window: real) {
    second.source == first.target && second.target == first.source && second.time - first.time <= window
  }

  /** The ping-pongs among the first `n` events of one UE. */
  function Returns(events: seq<Event>, window: real, n: nat): nat
    requires n <= |events|
  {
    if n < 2 then 0
    else Returns(events, window, n - 1) + if IsReturn(events[n - 2], events[n - 1], window) then 1 else 0
  }

  function Count(events: seq<Event>, window: real, k: nat): nat
    requires k <= |Order(events)|
  {
    if k == 0 then 0
    else
      var own := ByTime(ByWho(events, Order(events)[k - 1]));
      Count(events, window, k - 1) + Returns(own, window, |own|)
  }

  // ----- the program -----

  method SortByTime(events: seq<Event>) returns (sorted: seq<Event>)
    ensures sorted == ByTime(events)
  {
    sorted := [];
    for i := 0 to |events|
      invariant sorted == ByTime(events[..i])
    {
      assert events[..i + 1][..i] == events[..i];
      var before, after := sorted, [];
      while before != [] && before[|before| - 1].time > events[i].time
        invariant before + after == sorted
        invariant InsertByTime(sorted, events[i]) == InsertByTime(before, events[i]) + after
      {
        after := [before[|before| - 1]] + after;
        before := before[..|before| - 1];
      }
      sorted := before + [events[i]] + after;
    }
    assert events[..|events|] == events;
  }

  method GroupByUe(events: seq<Event>) returns (eventsByUe: map<Option<nat>, seq<Event>>, order: seq<Option<nat>>)
    ensures order == Order(events)
    ensures forall who :: who in order ==> who in eventsByUe && eventsByUe[who] == ByWho(events, who)
  {
    eventsByUe, order := map[], [];
    for i := 0 to |events|
      invariant order == Order(events[..i])
      invariant forall who :: who in eventsByUe <==> who in order
      invariant forall who :: who in eventsByUe ==> eventsByUe[who] == ByWho(events[..i], who)
      invariant forall who :: who !in eventsByUe ==> ByWho(events[..i], who) == []
    {
      var e := events[i];
      assert events[..i + 1][..i] == events[..i];
      if e.source.None? || e.target.None? {
        continue;
      }
      if e.who !in eventsByUe {
        eventsByUe := eventsByUe[e.who := []];
        order := order + [e.who];
      }
      eventsByUe := eventsByUe[e.who := eventsByUe[e.who] + [e]];
    }
    assert events[..|events|] == events;
  }

  method CountReturns(events: seq<Event>, window: real) returns (count: nat)
    ensures count == Returns(events, window, |events|)
  {
    count := 0;
    var i := 0;
    while i + 1 < |events|
      invariant 0 <= i <= |events| && (i == 0 || i < |events|)
      invariant count == Returns(events, window, if events == [] then 0 else i + 1)
    {
      var first, second := events[i], events[i + 1];
      if second.source == first.target && second.target == first.source && second.time - first.time <= window {
        count := count + 1;
      }
      i := i + 1;
    }
  }

  method CountPingPongs(events: seq<Event>, window: real) returns (count: nat)
    ensures count == Count(events, window, |Order(events)|)
  {
    var eventsByUe, order := GroupByUe(events);
    count := 0;
    for k := 0 to |order|
      invariant count == Count(events, window, k)
    {
      var ueEvents := SortByTime(eventsByUe[order[k]]);
      var own := CountReturns(ueEvents, window);
      count := count + own;
    }
  }

  // ----- on the log of a run -----

  ghost predicate InTimeOrder(events: seq<Event>) {
    forall j :: 0 < j < |events| ==> events[j - 1].time <= events[j].time
  }

  lemma {:induction false} SortedStays(events: seq<Event>)
    requires InTimeOrder(events)
    ensures ByTime(events) == events
  {
    hide InsertByTime;
    if events != [] {
      var rest, last := events[..|events| - 1], events[|events| - 1];
      SortedStays(rest);
      assert rest == [] || rest[|rest| - 1].time <= last.time;
      GoesLast(rest, last);
    }
  }

  lemma GoesLast(sorted: seq<Event>, e: Event)
    requires sorted == [] || sorted[|sorted| - 1].time <= e.time
    ensures InsertByTime(sorted, e) == sorted + [e]
  {
  }

  /** The events are these handovers of this UE. */
  ghost predicate Matches(events: seq<Event>, hs: seq<Row>, i: nat) {
    |events| == |hs| && forall k :: 0 <= k < |hs| ==>
      && events[k].time == hs[k].time && events[k].who == Some(i)
      && events[k].source == Some(hs[k].source) && events[k].target == Some(hs[k].target)
  }

  lemma OfLast<T>(s: seq<Tagged<T>>, i: nat)
    requires s != []
    ensures Of(s, i) == Of(s[..|s| - 1], i) + if s[|s| - 1].ue == i then [s[|s| - 1].rec] else []
  {
    hide Of;
    assert s == s[..|s| - 1] + [s[|s| - 1]];
    OfAppend(s[..|s| - 1], [s[|s| - 1]], i);
    OfCons(s[|s| - 1], [], i);
    OfNone<T>(i);
    assert [s[|s| - 1]] + [] == [s[|s| - 1]];
  }

  lemma {:induction false} ByWhoAppend(a: seq<Event>, b: seq<Event>, who: Option<nat>)
    ensures ByWho(a + b, who) == ByWho(a, who) + ByWho(b, who)
  {
    if b == [] {
      assert a + b == a;
    } else {
      assert (a + b)[..|a + b| - 1] == a + b[..|b| - 1];
      ByWhoAppend(a, b[..|b| - 1], who);
    }
  }

  lemma {:induction false} CompletedMatches(cfg: Config, rows: seq<Tagged<Row>>, i: nat)
    ensures Matches(ByWho(LogRoundTrip.Completed(cfg, rows), Some(i)), HandoverPath.Successes(Of(rows, i)), i)
  {
    hide Of, HandoverPath.Successes, ByWho, Matches, LogRoundTrip.CompletedRow;
    if rows == [] {
      OfNone<Row>(i);
      NoSuccess();
      NoEvents(i);
    } else {
      var rest, last := rows[..|rows| - 1], rows[|rows| - 1];
      CompletedMatches(cfg, rest, i);
      OfLast(rows, i);
      ByWhoAppend(LogRoundTrip.Completed(cfg, rest), LogRoundTrip.CompletedRow(cfg, last), Some(i));
      OneCompleted(cfg, last, i);
      HandoverPath.OneRow(Of(rest, i), last.rec);
      assert Of(rest, i) + [] == Of(rest, i);
      OneMatch(cfg, ByWho(LogRoundTrip.Completed(cfg, rest), Some(i)), HandoverPath.Successes(Of(rest, i)), last, i);
    }
  }

  lemma NoEvents(i: nat)
    ensures Matches(ByWho([], Some(i)), [], i)
  {
  }

  lemma OneMatch(cfg: Config, events: seq<Event>, hs: seq<Row>, last: Tagged<Row>, i: nat)
    requires Matches(events, hs, i)
    ensures Matches(events + if last.ue == i then LogRoundTrip.CompletedRow(cfg, last) else [],
                    if last.ue == i && last.rec.success then hs + [last.rec] else hs, i)
  {
  }

  lemma NoSuccess()
    ensures HandoverPath.Successes([]) == []
  {
  }

  lemma OneCompleted(cfg: Config, row: Tagged<Row>, i: nat)
    ensures ByWho(LogRoundTrip.CompletedRow(cfg, row), Some(i)) ==
            if row.ue == i then LogRoundTrip.CompletedRow(cfg, row) else []
  {
    var es := LogRoundTrip.CompletedRow(cfg, row);
    if es != [] {
      assert es[..0] == [];
      assert ByWho(es, Some(i)) == ByWho(es[..0], Some(i)) + if es[0].who == Some(i) then [es[0]] else [];
    }
  }

  /** Going straight back within the window, along a path of handovers. */
  function StraightBack(hs: seq<Row>, window: real, n: nat): nat
    requires n <= |hs|
  {
    if n < 2 then 0
    else
      var a, b := hs[n - 2], hs[n - 1];
      StraightBack(hs, window, n - 1) + if b.source == a.target && b.target == a.source && b.time - a.time <= window then 1 else 0
  }

  lemma {:induction false} ReturnsAreStraightBack(events: seq<Event>, hs: seq<Row>, i: nat, window: real, n: nat)
    requires Matches(events, hs, i) && n <= |hs|
    ensures Returns(events, window, n) == StraightBack(hs, window, n)
  {
    if n >= 2 {
      ReturnsAreStraightBack(events, hs, i, window, n - 1);
    }
  }

  // ----- whose events there are -----

  ghost predicate Distinct(whos: seq<Option<nat>>) {
    forall j, k :: 0 <= j < k < |whos| ==> whos[j] != whos[k]
  }

  ghost predicate Below(whos: seq<Option<nat>>, n: nat) {
    forall who :: who in whos ==> who.Some? && who.value < n
  }

  /** Each UE with a usable event is listed, and listed once. */
  lemma {:induction false} OrderLists(events: seq<Event>)
    ensures Distinct(Order(events))
    ensures forall who :: who in Order(events) <==> ByWho(events, who) != []
  {
    if events != [] {
      OrderLists(events[..|events| - 1]);
    }
  }

  /** The events of completed handovers are usable and of UEs below `n`. */
  ghost predicate OfKnownUes(events: seq<Event>, n: nat) {
    forall k :: 0 <= k < |events| ==> Usable(events[k]) && events[k].who.Some? && events[k].who.value < n
  }

  ghost predicate TagsBelow(rows: seq<Tagged<Row>>, n: nat) {
    forall k :: 0 <= k < |rows| ==> rows[k].ue < n
  }

  lemma {:induction false} CompletedAreKnown(cfg: Config, rows: seq<Tagged<Row>>, n: nat)
    requires TagsBelow(rows, n)
    ensures OfKnownUes(LogRoundTrip.Completed(cfg, rows), n)
  {
    if rows != [] {
      CompletedAreKnown(cfg, rows[..|rows| - 1], n);
    }
  }

  lemma {:induction false} ByWhoIsPart(events: seq<Event>, who: Option<nat>)
    requires ByWho(events, who) != []
    ensures exists k :: 0 <= k < |events| && events[k].who == who
  {
    if ByWho(events[..|events| - 1], who) != [] {
      ByWhoIsPart(events[..|events| - 1], who);
      var k :| 0 <= k < |events| - 1 && events[..|events| - 1][k].who == who;
      assert events[k].who == who;
    }
  }

  lemma KnownOrder(events: seq<Event>, n: nat)
    requires OfKnownUes(events, n)
    ensures Below(Order(events), n)
  {
    OrderLists(events);
    forall who | who in Order(events) ensures who.Some? && who.value < n {
      ByWhoIsPart(events, who);
    }
  }

  /** The rows of a run are of its UEs. */
  lemma {:induction false} RowsAreOfUes(env: Env, ues: seq<Ue>, run: nat -> Sys, n: nat)
    requires Starting(env, ues) && IsRun(env, ues, run)
    ensures TagsBelow(run(n).rows, |ues|)
  {
    hide HandleHop, LogRoundTrip.PrintsItsRows, Commit, Prepared, CheckHandovers, KeepFor;
    if n > 0 {
      RowsAreOfUes(env, ues, run, n - 1);
      UesStay(env, ues, run, n - 1);
      var s := run(n - 1);
      assert run(n) == Step(env, s);
      if s.queue != [] {
        var popped := s.(now := s.queue[0].time, queue := s.queue[1..]);
        match s.queue[0].act
        case Tick =>
          LogRoundTrip.PreparedLogs(env, popped);
          LogRoundTrip.CheckRows(env, Prepared(env, popped), |ues|);
        case Own(i, HopJob(hop, source, target)) =>
          if i < |ues| {
            LogRoundTrip.HeadPrints(env, ues, run, n - 1);
            var o := HandleHop(env, s.ues[i], popped.now, hop, source, target);
            LogRoundTrip.HopRows(env, popped.now, o);
            LogRoundTrip.CommitRows(popped, i, o);
          }
        case Own(_, PredictJob(_)) =>
      }
    }
  }

  // ----- the order of summation -----

  /** What the analysis counts for one UE. */
  function Counted(events: seq<Event>, window: real, who: Option<nat>): nat {
    var own := ByTime(ByWho(events, who));
    Returns(own, window, |own|)
  }

  function CountOver(events: seq<Event>, window: real, whos: seq<Option<nat>>): nat {
    if whos == [] then 0
    else CountOver(events, window, whos[..|whos| - 1]) + Counted(events, window, whos[|whos| - 1])
  }

  function CountBelow(events: seq<Event>, window: real, n: nat): nat {
    if n == 0 then 0 else CountBelow(events, window, n - 1) + Counted(events, window, Some(n - 1))
  }

  lemma {:induction false} CountIsOver(events: seq<Event>, window: real, k: nat)
    requires k <= |Order(events)|
    ensures Count(events, window, k) == CountOver(events, window, Order(events)[..k])
  {
    hide Order, ByTime, ByWho, Returns;
    if k > 0 {
      CountIsOver(events, window, k - 1);
      assert Order(events)[..k][..k - 1] == Order(events)[..k - 1];
    }
  }

  lemma {:induction false} CountAppend(events: seq<Event>, window: real, a: seq<Option<nat>>, b: seq<Option<nat>>)
    ensures CountOver(events, window, a + b) == CountOver(events, window, a) + CountOver(events, window, b)
  {
    hide Counted;
    if b == [] {
      assert a + b == a;
    } else {
      assert (a + b)[..|a + b| - 1] == a + b[..|b| - 1];
      CountAppend(events, window, a, b[..|b| - 1]);
    }
  }

  lemma CountOne(events: seq<Event>, window: real, who: Option<nat>)
    ensures CountOver(events, window, [who]) == Counted(events, window, who)
  {
    assert [who][..0] == [];
  }

  lemma NoneCounted(events: seq<Event>, window: real, who: Option<nat>)
    requires ByWho(events, who) == []
    ensures Counted(events, window, who) == 0
  {
  }

  lemma {:induction false} TakeOut(events: seq<Event>, window: real, whos: seq<Option<nat>>, j: nat)
    requires j < |whos|
    ensures CountOver(events, window, whos) == CountOver(events, window, whos[..j] + whos[j + 1..]) + Counted(events, window, whos[j])
  {
    hide Counted, CountOver;
    var front, back := whos[..j], whos[j + 1..];
    assert whos == front + ([whos[j]] + back);
    CountAppend(events, window, front, [whos[j]] + back);
    CountAppend(events, window, [whos[j]], back);
    CountAppend(events, window, front, back);
    CountOne(events, window, whos[j]);
  }

  lemma Others(whos: seq<Option<nat>>, j: nat, n: nat)
    requires Distinct(whos) && Below(whos, n + 1) && j < |whos| && whos[j] == Some(n)
    ensures var others := whos[..j] + whos[j + 1..];
            Distinct(others) && Below(others, n) && forall i: nat :: i < n && Some(i) in whos ==> Some(i) in others
  {
    var others := whos[..j] + whos[j + 1..];
    assert forall k :: 0 <= k < |others| ==> others[k] == whos[if k < j then k else k + 1];
    forall i: nat | i < n && Some(i) in whos ensures Some(i) in others {
      var k :| 0 <= k < |whos| && whos[k] == Some(i);
      assert others[if k < j then k else k - 1] == Some(i);
    }
  }

  /** Listed once each, in whatever order, the UEs with events make up the sum over all. */
  lemma {:induction false} AnyOrderCounts(events: seq<Event>, window: real, whos: seq<Option<nat>>, n: nat)
    requires Distinct(whos) && Below(whos, n)
    requires forall i: nat :: i < n && Some(i) !in whos ==> Counted(events, window, Some(i)) == 0
    ensures CountOver(events, window, whos) == CountBelow(events, window, n)
  {
    hide Counted, Distinct, Below;
    if whos != [] {
      SomebodyBelow(whos, n);
    }
    if n == 0 {
      assert whos == [];
    } else if Some(n - 1) in whos {
      var j :| 0 <= j < |whos| && whos[j] == Some(n - 1);
      TakeOut(events, window, whos, j);
      Others(whos, j, n - 1);
      AnyOrderCounts(events, window, whos[..j] + whos[j + 1..], n - 1);
    } else {
      LastIsNotIn(whos, n - 1);
      AnyOrderCounts(events, window, whos, n - 1);
    }
  }

  lemma SomebodyBelow(whos: seq<Option<nat>>, n: nat)
    requires Below(whos, n) && whos != []
    ensures n > 0
  {
    assert whos[0] in whos;
  }

  lemma LastIsNotIn(whos: seq<Option<nat>>, n: nat)
    requires Below(whos, n + 1) && Some(n) !in whos
    ensures Below(whos, n)
  {
  }

  // ----- the theorems -----

  /** Whether the log of this run reads back. */
  ghost predicate Readable(cfg: Config, s: Sys) {
    cfg.strategy != Snr || LogRoundTrip.AllSucceeded(s.rows)
  }

  lemma ReadsBack(env: Env, ues: seq<Ue>, run: nat -> Sys, n: nat)
    requires Starting(env, ues) && IsRun(env, ues, run) && Readable(env.cfg, run(n))
    ensures Parsed(LogRoundTrip.Print(run(n).lines)) == LogRoundTrip.Completed(env.cfg, run(n).rows)
  {
    hide Parsed, LogRoundTrip.Completed, LogRoundTrip.AllSucceeded;
    if env.cfg.strategy == Snr {
      LogRoundTrip.SnrLogReadsBack(env, ues, run, n);
    } else {
      LogRoundTrip.LogReadsBack(env, ues, run, n);
    }
  }

  /** On the log of any run, without a failure if a failure prints a result, the analysis counts for each
      UE the returns along its handover path, no more and no less: sorting changes nothing and no event
      of another UE interferes. */
  lemma PingPongsOfARun(env: Env, ues: seq<Ue>, run: nat -> Sys, n: nat, i: nat, window: real)
    requires Starting(env, ues) && IsRun(env, ues, run) && i < |ues| && Readable(env.cfg, run(n))
    ensures var s := run(n);
            var own, hs := ByWho(Parsed(LogRoundTrip.Print(s.lines)), Some(i)), HandoverPath.Successes(Of(s.rows, i));
            && Matches(own, hs, i) && ByTime(own) == own
            && Returns(ByTime(own), window, |own|) == StraightBack(hs, window, |hs|)
  {
    hide Parsed, ByWho, HandoverPath.Successes, HandoverPath.EndsHere, Readable;
    var s := run(n);
    ReadsBack(env, ues, run, n);
    CompletedMatches(env.cfg, s.rows, i);
    HandoverPath.HandoversFormAPath(env, ues, run, n, i);
    var own, hs := ByWho(Parsed(LogRoundTrip.Print(s.lines)), Some(i)), HandoverPath.Successes(Of(s.rows, i));
    assert InTimeOrder(own) by {
      forall j | 0 < j < |own| ensures own[j - 1].time <= own[j].time {
        assert hs[j - 1].time <= hs[j].time;
      }
    }
    SortedStays(own);
    ReturnsAreStraightBack(own, hs, i, window, |hs|);
  }

  /** The returns along the handover paths of the first `n` UEs. */
  function StraightBackTotal(rows: seq<Tagged<Row>>, window: real, n: nat): nat {
    if n == 0 then 0
    else
      var hs := HandoverPath.Successes(Of(rows, n - 1));
      StraightBackTotal(rows, window, n - 1) + StraightBack(hs, window, |hs|)
  }

  lemma {:induction false} CountedIsStraightBack(env: Env, ues: seq<Ue>, run: nat -> Sys, n: nat, window: real, k: nat)
    requires Starting(env, ues) && IsRun(env, ues, run) && Readable(env.cfg, run(n)) && k <= |ues|
    ensures CountBelow(Parsed(LogRoundTrip.Print(run(n).lines)), window, k) == StraightBackTotal(run(n).rows, window, k)
  {
    hide Parsed, ByWho, ByTime, Returns, Matches, HandoverPath.Successes, StraightBack, Readable, Of;
    if k > 0 {
      CountedIsStraightBack(env, ues, run, n, window, k - 1);
      PingPongsOfARun(env, ues, run, n, k - 1, window);
    }
  }

  /** The number the analysis returns for the log of a run is the number of returns along the handover
      paths of all its UEs. */
  lemma PingPongTotal(env: Env, ues: seq<Ue>, run: nat -> Sys, n: nat, window: real)
    requires Starting(env, ues) && IsRun(env, ues, run) && Readable(env.cfg, run(n))
    ensures var events := Parsed(LogRoundTrip.Print(run(n).lines));
            Count(events, window, |Order(events)|) == StraightBackTotal(run(n).rows, window, |ues|)
  {
    hide Parsed, ByWho, Order, LogRoundTrip.Completed, Readable, OfKnownUes, Count, CountOver, CountBelow, StraightBackTotal, Counted, Below, Distinct;
    var events := Parsed(LogRoundTrip.Print(run(n).lines));
    ReadsBack(env, ues, run, n);
    RowsAreOfUes(env, ues, run, n);
    CompletedAreKnown(env.cfg, run(n).rows, |ues|);
    KnownOrder(events, |ues|);
    OrderLists(events);
    forall i: nat | i < |ues| && Some(i) !in Order(events) ensures Counted(events, window, Some(i)) == 0 {
      NoneCounted(events, window, Some(i));
    }
    CountIsOver(events, window, |Order(events)|);
    assert Order(events)[..|Order(events)|] == Order(events);
    AnyOrderCounts(events, window, Order(events), |ues|);
    CountedIsStraightBack(env, ues, run, n, window, |ues|);
  }
}
