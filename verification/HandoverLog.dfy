/** The log analysis: parse_handovers_cho over tagged records, one per matched line. */
module HandoverLog {
  import opened ChoTypes
  import opened Reals

  /** A line as the regular expressions see it; completion and execution lines of older logs carry no UE. */
  datatype Record =
    | DebugRecord(ue: nat, time: real, serving: Cell, neighbor: Cell, a3: Option<int>)
    | ResultRecord(ue: nat, time: real, decisionDelay: Option<real>, trigger: Option<string>)
    | ExecutionRecord(who: Option<nat>, time: real)
    | CompletionRecord(who: Option<nat>, source: Cell, target: Cell)
    | OtherRecord

  datatype Event = Event(time: real, who: Option<nat>, source: Option<Cell>, target: Option<Cell>, trigger: Option<string>)

  datatype Seen = Seen(time: real, serving: Cell, neighbor: Cell, a3: Option<int>)

  /** The parser's variables; `reporters` is the insertion order of `pendingResult`. */
  datatype Parser = Parser(
    events: seq<Event>,
    pendingExec: map<Option<nat>, real>,
    pendingResult: map<nat, seq<Event>>,
    reporters: seq<nat>,
    debug: map<nat, seq<Seen>>)

  const EMPTY := Parser([], map[], map[], [], map[])

  /** _pick_debug_match: the nearest entry in the window, except that an entry with the event fired
      displaces one without. */
  function Closest(entries: seq<Seen>, at: real, window: real, preferA3: bool): Option<Seen> {
    if entries == [] then None
    else
      var best, e := Closest(entries[..|entries| - 1], at, window, preferA3), entries[|entries| - 1];
      if Abs(e.time - at) > window then best
      else if best.None? then Some(e)
      else if preferA3 && e.a3 == Some(1) && best.value.a3 != Some(1) then Some(e)
      else if Abs(e.time - at) < Abs(best.value.time - at) then Some(e)
      else best
  }

  // ----- which entry that is -----

  predicate InWindow(e: Seen, at: real, window: real) {
    Abs(e.time - at) <= window
  }

  predicate HasFired(e: Seen) {
    e.a3 == Some(1)
  }

  /** The first of the nearest entries in the window. */
  ghost predicate FirstNearest(entries: seq<Seen>, at: real, window: real, k: nat) {
    && k < |entries| && InWindow(entries[k], at, window)
    && forall j :: 0 <= j < |entries| && InWindow(entries[j], at, window) ==>
         if j < k then Abs(entries[k].time - at) < Abs(entries[j].time - at)
         else Abs(entries[k].time - at) <= Abs(entries[j].time - at)
  }

  /** A fired entry in the window that nothing after it is nearer than. */
  ghost predicate Unbeaten(entries: seq<Seen>, at: real, window: real, x: nat) {
    && x < |entries| && InWindow(entries[x], at, window) && HasFired(entries[x])
    && forall y :: x < y < |entries| && InWindow(entries[y], at, window) ==>
         Abs(entries[x].time - at) <= Abs(entries[y].time - at)
  }

  /** The first of the nearest entries after the last one that fired. */
  ghost predicate NearestSinceFired(entries: seq<Seen>, at: real, window: real, k: nat) {
    && k < |entries| && InWindow(entries[k], at, window) && !HasFired(entries[k])
    && (forall j :: k < j < |entries| && InWindow(entries[j], at, window) ==>
          !HasFired(entries[j]) && Abs(entries[k].time - at) <= Abs(entries[j].time - at))
    && (forall j :: 0 <= j < k && InWindow(entries[j], at, window) && QuietBetween(entries, at, window, j, k) ==>
          Abs(entries[k].time - at) < Abs(entries[j].time - at))
  }

  ghost predicate QuietBetween(entries: seq<Seen>, at: real, window: real, j: nat, k: nat)
    requires k < |entries|
  {
    forall i :: j <= i <= k && InWindow(entries[i], at, window) ==> !HasFired(entries[i])
  }

  ghost predicate SomeUnbeaten(entries: seq<Seen>, at: real, window: real) {
    exists x :: 0 <= x < |entries| && Unbeaten(entries, at, window, x)
  }

  /** With the preference: the first unbeaten fired entry, and if there is none, the nearest since the
      last fired one. */
  ghost predicate Preferred(entries: seq<Seen>, at: real, window: real, k: nat) {
    if SomeUnbeaten(entries, at, window)
    then Unbeaten(entries, at, window, k) && forall x :: 0 <= x < k ==> !Unbeaten(entries, at, window, x)
    else NearestSinceFired(entries, at, window, k)
  }

  ghost predicate Matched(entries: seq<Seen>, at: real, window: real, preferA3: bool, k: nat) {
    if preferA3 then Preferred(entries, at, window, k) else FirstNearest(entries, at, window, k)
  }

  ghost predicate NoneInWindow(entries: seq<Seen>, at: real, window: real) {
    forall j :: 0 <= j < |entries| ==> !InWindow(entries[j], at, window)
  }

  lemma MatchedInWindow(entries: seq<Seen>, at: real, window: real, preferA3: bool, k: nat)
    requires Matched(entries, at, window, preferA3, k)
    ensures k < |entries| && InWindow(entries[k], at, window)
  {
    hide QuietBetween, SomeUnbeaten;
  }

  /** What one more entry does to those that were unbeaten. */
  lemma UnbeatenNext(p: seq<Seen>, e: Seen, at: real, window: real)
    ensures forall x :: 0 <= x < |p| ==>
              (Unbeaten(p + [e], at, window, x) <==>
               Unbeaten(p, at, window, x) && (InWindow(e, at, window) ==> Abs(p[x].time - at) <= Abs(e.time - at)))
    ensures Unbeaten(p + [e], at, window, |p|) <==> InWindow(e, at, window) && HasFired(e)
  {
    hide InWindow, HasFired;
    var s := p + [e];
    forall x | 0 <= x < |p|
      ensures Unbeaten(s, at, window, x) <==>
              Unbeaten(p, at, window, x) && (InWindow(e, at, window) ==> Abs(p[x].time - at) <= Abs(e.time - at))
    {
      assert s[x] == p[x] && s[|p|] == e;
      assert forall y :: x < y < |p| ==> s[y] == p[y];
    }
  }

  lemma OutsideKeeps(p: seq<Seen>, e: Seen, at: real, window: real, preferA3: bool, k: nat)
    requires Matched(p, at, window, preferA3, k) && !InWindow(e, at, window)
    ensures Matched(p + [e], at, window, preferA3, k)
  {
    hide InWindow, HasFired, Unbeaten;
    UnbeatenNext(p, e, at, window);
    assert k < |p| by {
      MatchedInWindow(p, at, window, preferA3, k);
    }
    assert forall j :: 0 <= j < |p| ==> (p + [e])[j] == p[j];
    if preferA3 && NearestSinceFired(p, at, window, k) {
      forall j | 0 <= j < k && QuietBetween(p + [e], at, window, j, k) ensures QuietBetween(p, at, window, j, k) {
        assert forall i :: j <= i <= k ==> (p + [e])[i] == p[i];
      }
    }
  }

  /** The first entry in the window. */
  lemma FirstMatch(p: seq<Seen>, e: Seen, at: real, window: real, preferA3: bool)
    requires NoneInWindow(p, at, window) && InWindow(e, at, window)
    ensures Matched(p + [e], at, window, preferA3, |p|)
  {
    hide InWindow, HasFired;
    UnbeatenNext(p, e, at, window);
    assert forall j :: 0 <= j < |p| ==> (p + [e])[j] == p[j];
  }

  lemma PlainNext(p: seq<Seen>, e: Seen, at: real, window: real, k: nat)
    requires Matched(p, at, window, false, k) && InWindow(e, at, window)
    ensures Matched(p + [e], at, window, false, if Abs(e.time - at) < Abs(p[k].time - at) then |p| else k)
  {
    hide InWindow, HasFired;
    assert forall j :: 0 <= j < |p| ==> (p + [e])[j] == p[j];
  }

  /** After a fired entry is the choice. */
  lemma AfterFired(p: seq<Seen>, e: Seen, at: real, window: real, k: nat)
    requires InWindow(e, at, window) && SomeUnbeaten(p, at, window) && Preferred(p, at, window, k)
    ensures HasFired(p[k])
    ensures Preferred(p + [e], at, window, if Abs(e.time - at) < Abs(p[k].time - at) then |p| else k)
  {
    hide InWindow, HasFired;
    UnbeatenNext(p, e, at, window);
    var s := p + [e];
    assert forall j :: 0 <= j < |p| ==> s[j] == p[j];
    assert s[|p|] == e;
    if Abs(e.time - at) < Abs(p[k].time - at) {
      forall x | 0 <= x < |p| && Unbeaten(p, at, window, x) ensures Abs(p[k].time - at) <= Abs(p[x].time - at) {
        assert k <= x;
      }
      forall j | 0 <= j <= k ensures !QuietBetween(s, at, window, j, |p|) {
        assert HasFired(s[k]) && InWindow(s[k], at, window);
      }
    } else {
      assert Unbeaten(s, at, window, k);
    }
  }

  /** After an entry that has not fired is the choice. */
  lemma AfterQuiet(p: seq<Seen>, e: Seen, at: real, window: real, k: nat)
    requires InWindow(e, at, window) && !SomeUnbeaten(p, at, window) && Preferred(p, at, window, k)
    ensures !HasFired(p[k])
    ensures Preferred(p + [e], at, window, if HasFired(e) || Abs(e.time - at) < Abs(p[k].time - at) then |p| else k)
  {
    hide InWindow, HasFired;
    UnbeatenNext(p, e, at, window);
    var s := p + [e];
    assert forall j :: 0 <= j < |p| ==> s[j] == p[j];
    assert s[|p|] == e;
    if HasFired(e) {
      assert Unbeaten(s, at, window, |p|);
    } else {
      assert !SomeUnbeaten(s, at, window);
      forall j | 0 <= j < k && QuietBetween(s, at, window, j, k) ensures QuietBetween(p, at, window, j, k) {
        assert forall i :: j <= i <= k ==> s[i] == p[i];
      }
      forall j | 0 <= j < k && QuietBetween(s, at, window, j, |p|) ensures QuietBetween(p, at, window, j, k) {
        assert forall i :: j <= i <= k ==> s[i] == p[i];
      }
    }
  }

  /** The matching debug entry: none exactly if none is in the window; without the preference the first
      of the nearest; with it the first unbeaten fired one, or else the nearest since the last fired. */
  lemma {:induction false} ClosestIs(entries: seq<Seen>, at: real, window: real, preferA3: bool) returns (k: nat)
    ensures var r := Closest(entries, at, window, preferA3);
            && (r.None? <==> NoneInWindow(entries, at, window))
            && (r.Some? ==> k < |entries| && r.value == entries[k] && Matched(entries, at, window, preferA3, k))
  {
    hide InWindow, HasFired, Matched, SomeUnbeaten;
    k := 0;
    if entries != [] {
      var p, e := entries[..|entries| - 1], entries[|entries| - 1];
      assert entries == p + [e];
      k := ClosestIs(p, at, window, preferA3);
      ClosestNext(p, e, at, window, preferA3);
      var best := Closest(p, at, window, preferA3);
      if !InWindow(e, at, window) {
        if best.Some? {
          OutsideKeeps(p, e, at, window, preferA3, k);
        }
      } else if best.None? {
        FirstMatch(p, e, at, window, preferA3);
        k := |p|;
      } else {
        k := MatchedNext(p, e, at, window, preferA3, k);
      }
    }
  }

  lemma ClosestNext(p: seq<Seen>, e: Seen, at: real, window: real, preferA3: bool)
    ensures var best, next := Closest(p, at, window, preferA3), Closest(p + [e], at, window, preferA3);
            if !InWindow(e, at, window) then next == best
            else if best.None? || (preferA3 && HasFired(e) && !HasFired(best.value)) || Abs(e.time - at) < Abs(best.value.time - at)
            then next == Some(e) else next == best
  {
    assert (p + [e])[..|p|] == p;
  }

  lemma MatchedNext(p: seq<Seen>, e: Seen, at: real, window: real, preferA3: bool, k: nat) returns (next: nat)
    requires k < |p| && Matched(p, at, window, preferA3, k) && InWindow(e, at, window)
    ensures next == if (preferA3 && HasFired(e) && !HasFired(p[k])) || Abs(e.time - at) < Abs(p[k].time - at) then |p| else k
    ensures Matched(p + [e], at, window, preferA3, next)
  {
    hide InWindow, HasFired, Preferred, SomeUnbeaten, FirstNearest;
    next := if (preferA3 && HasFired(e) && !HasFired(p[k])) || Abs(e.time - at) < Abs(p[k].time - at) then |p| else k;
    if !preferA3 {
      PlainNext(p, e, at, window, k);
    } else if SomeUnbeaten(p, at, window) {
      AfterFired(p, e, at, window, k);
    } else {
      AfterQuiet(p, e, at, window, k);
    }
  }

  /** The preference for a fired entry works out if and only if some fired entry in the window has none
      after it in the window that is nearer. */
  lemma PreferenceHolds(entries: seq<Seen>, at: real, window: real)
    requires !NoneInWindow(entries, at, window)
    ensures var r := Closest(entries, at, window, true);
            r.Some? && (HasFired(r.value) <==> SomeUnbeaten(entries, at, window))
  {
    hide Closest, InWindow;
    var k := ClosestIs(entries, at, window, true);
  }

  /** Here it does not: the entry that fired was seen first, and the later one is nearer. */
  lemma PreferenceFails()
    ensures var fired, nearer := Seen(1.0, "a", "b", Some(1)), Seen(1.5, "a", "c", Some(0));
            Closest([fired, nearer], 1.5, 1.0, true) == Some(nearer)
            && Closest([nearer, fired], 1.5, 1.0, true) == Some(fired)
  {
    var fired, nearer := Seen(1.0, "a", "b", Some(1)), Seen(1.5, "a", "c", Some(0));
    ClosestNext([], fired, 1.5, 1.0, true);
    ClosestNext([fired], nearer, 1.5, 1.0, true);
    ClosestNext([], nearer, 1.5, 1.0, true);
    ClosestNext([nearer], fired, 1.5, 1.0, true);
    assert [] + [fired] == [fired] && [] + [nearer] == [nearer];
    assert [fired] + [nearer] == [fired, nearer] && [nearer] + [fired] == [nearer, fired];
  }

  // ----- feeding the parser -----

  function DebugOf(debug: map<nat, seq<Seen>>, ue: nat): seq<Seen> {
    if ue in debug then debug[ue] else []
  }

  /** The cells a result line is first given, from the debug lines around the decision or the result. */
  function Guess(debug: map<nat, seq<Seen>>, ue: nat, time: real, decisionDelay: Option<real>): Option<Seen> {
    var near := if decisionDelay.Some? then Closest(DebugOf(debug, ue), time - decisionDelay.value, 1.0, true) else None;
    if near.Some? then near else Closest(DebugOf(debug, ue), time, 2.0, false)
  }

  /** The guess: an entry within a second of the decision, fired ones preferred; if there is none or the
      delay is unknown, the nearest within two seconds of the result; and none if there is none of either. */
  lemma GuessLooksTwice(debug: map<nat, seq<Seen>>, ue: nat, time: real, decisionDelay: Option<real>) returns (k: nat)
    ensures var entries, r := DebugOf(debug, ue), Guess(debug, ue, time, decisionDelay);
            var decided := decisionDelay.Some? && !NoneInWindow(entries, time - decisionDelay.value, 1.0);
            && (r.None? <==> !decided && NoneInWindow(entries, time, 2.0))
            && (r.Some? ==>
                  && k < |entries| && r.value == entries[k]
                  && if decided then Preferred(entries, time - decisionDelay.value, 1.0, k) else FirstNearest(entries, time, 2.0, k))
  {
    hide Preferred, FirstNearest, NoneInWindow, Closest;
    var entries := DebugOf(debug, ue);
    k := ClosestIs(entries, time, 2.0, false);
    if decisionDelay.Some? {
      var j := ClosestIs(entries, time - decisionDelay.value, 1.0, true);
      if !NoneInWindow(entries, time - decisionDelay.value, 1.0) {
        k := j;
      }
    }
  }

  function ResultEvent(debug: map<nat, seq<Seen>>, ue: nat, time: real, decisionDelay: Option<real>, trigger: Option<string>): Event {
    var guess := Guess(debug, ue, time, decisionDelay);
    Event(time, Some(ue),
          if guess.Some? then Some(guess.value.serving) else None,
          if guess.Some? then Some(guess.value.neighbor) else None,
          trigger)
  }

  /** pending_exec.pop(ue, pending_exec.pop(None, None)): the default is taken out in any case. */
  function ExecTime(pending: map<Option<nat>, real>, ue: nat): Option<real> {
    if Some(ue) in pending then Some(pending[Some(ue)])
    else if None in pending then Some(pending[None])
    else None
  }

  function Feed(p: Parser, r: Record): Parser {
    match r
    case OtherRecord => p
    case DebugRecord(ue, time, serving, neighbor, a3) =>
      p.(debug := p.debug[ue := DebugOf(p.debug, ue) + [Seen(time, serving, neighbor, a3)]])
    case ResultRecord(ue, time, decisionDelay, trigger) =>
      var event := ResultEvent(p.debug, ue, time, decisionDelay, trigger);
      if ue in p.pendingResult then p.(pendingResult := p.pendingResult[ue := p.pendingResult[ue] + [event]])
      else p.(pendingResult := p.pendingResult[ue := [event]], reporters := p.reporters + [ue])
    case ExecutionRecord(who, time) => p.(pendingExec := p.pendingExec[who := time])
    case CompletionRecord(Some(ue), source, target) =>
      if ue in p.pendingResult && p.pendingResult[ue] != [] then
        p.(events := p.events + [p.pendingResult[ue][0].(source := Some(source), target := Some(target))],
           pendingResult := p.pendingResult[ue := p.pendingResult[ue][1..]])
      else
        var time := ExecTime(p.pendingExec, ue);
        p.(pendingExec := p.pendingExec - {None, Some(ue)},
           events := if time.Some? then p.events + [Event(time.value, Some(ue), Some(source), Some(target), None)] else p.events)
    case CompletionRecord(None, source, target) =>
      if None in p.pendingExec then
        p.(pendingExec := p.pendingExec - {None},
           events := p.events + [Event(p.pendingExec[None], None, Some(source), Some(target), None)])
      else p
  }

  function FeedAll(p: Parser, records: seq<Record>): Parser
    decreases records
  {
    if records == [] then p else FeedAll(Feed(p, records[0]), records[1..])
  }

  /** The results no completion line took, UE by UE. */
  function Leftover(p: Parser, k: nat): seq<Event>
    requires k <= |p.reporters|
  {
    if k == 0 then []
    else
      var ue := p.reporters[k - 1];
      Leftover(p, k - 1) + if ue in p.pendingResult then p.pendingResult[ue] else []
  }

  function Parsed(records: seq<Record>): seq<Event> {
    var p := FeedAll(EMPTY, records);
    p.events + Leftover(p, |p.reporters|)
  }

  lemma {:induction false} FeedAllAppend(p: Parser, a: seq<Record>, b: seq<Record>)
    ensures FeedAll(p, a + b) == FeedAll(FeedAll(p, a), b)
    decreases a
  {
    hide Feed;
    if a == [] {
      assert a + b == b;
    } else {
      assert (a + b)[1..] == a[1..] + b;
      FeedAllAppend(Feed(p, a[0]), a[1..], b);
    }
  }

  lemma FeedOne(p: Parser, r: Record)
    ensures FeedAll(p, [r]) == Feed(p, r)
  {
    hide Feed;
    assert FeedAll(p, [r]) == FeedAll(Feed(p, r), [r][1..]);
  }

  // ----- the program -----

  method PickDebugMatch(entries: seq<Seen>, at: real, window: real, preferA3: bool) returns (best: Option<Seen>)
    ensures best == Closest(entries, at, window, preferA3)
    ensures best.None? <==> NoneInWindow(entries, at, window)
    ensures best.Some? ==> exists k :: 0 <= k < |entries| && best.value == entries[k] && Matched(entries, at, window, preferA3, k)
  {
    hide Matched;
    best := None;
    var bestDelta := 0.0;
    for i := 0 to |entries|
      invariant best == Closest(entries[..i], at, window, preferA3)
      invariant best.Some? ==> bestDelta == Abs(best.value.time - at)
    {
      var e := entries[i];
      assert entries[..i + 1][..i] == entries[..i];
      var delta := Abs(e.time - at);
      if delta > window {
        continue;
      }
      if best.None? || (preferA3 && e.a3 == Some(1) && best.value.a3 != Some(1)) || delta < bestDelta {
        best := Some(e);
        bestDelta := delta;
      }
    }
    assert entries[..|entries|] == entries;
    ghost var k := ClosestIs(entries, at, window, preferA3);
  }

  method ResultEventOf(debug: map<nat, seq<Seen>>, ue: nat, time: real, decisionDelay: Option<real>, trigger: Option<string>)
    returns (event: Event)
    ensures event == ResultEvent(debug, ue, time, decisionDelay, trigger)
  {
    event := Event(time, Some(ue), None, None, trigger);
    var best: Option<Seen> := None;
    var entries := if ue in debug then debug[ue] else [];
    if decisionDelay.Some? {
      best := PickDebugMatch(entries, time - decisionDelay.value, 1.0, true);
    }
    if best.None? {
      best := PickDebugMatch(entries, time, 2.0, false);
    }
    if best.Some? {
      event := event.(source := Some(best.value.serving), target := Some(best.value.neighbor));
    }
  }

  lemma FeedNext(p: Parser, records: seq<Record>, i: nat)
    requires i < |records|
    ensures FeedAll(p, records[..i + 1]) == Feed(FeedAll(p, records[..i]), records[i])
  {
    hide Feed;
    assert records[..i + 1] == records[..i] + [records[i]];
    FeedAllAppend(p, records[..i], [records[i]]);
    FeedOne(FeedAll(p, records[..i]), records[i]);
  }

  method ParseHandovers(records: seq<Record>) returns (events: seq<Event>)
    ensures events == Parsed(records)
  {
    hide FeedAll, Leftover, ResultEvent;
    events := [];
    var pendingExec: map<Option<nat>, real> := map[];
    var pendingResult: map<nat, seq<Event>> := map[];
    var reporters: seq<nat> := [];
    var debug: map<nat, seq<Seen>> := map[];
    NothingFed(EMPTY);
    for i := 0 to |records|
      invariant Parser(events, pendingExec, pendingResult, reporters, debug) == FeedAll(EMPTY, records[..i])
    {
      FeedNext(EMPTY, records, i);
      match records[i] {
        case OtherRecord =>
        case DebugRecord(ue, time, serving, neighbor, a3) =>
          var entries := if ue in debug then debug[ue] else [];
          debug := debug[ue := entries + [Seen(time, serving, neighbor, a3)]];
        case ResultRecord(ue, time, decisionDelay, trigger) =>
          var event := ResultEventOf(debug, ue, time, decisionDelay, trigger);
          ghost var before := pendingResult;
          if ue !in pendingResult {
            pendingResult := pendingResult[ue := []];
            reporters := reporters + [ue];
            assert pendingResult[ue] + [event] == [event];
            assert pendingResult[ue := [event]] == before[ue := [event]];
          }
          pendingResult := pendingResult[ue := pendingResult[ue] + [event]];
        case ExecutionRecord(who, time) =>
          pendingExec := pendingExec[who := time];
        case CompletionRecord(Some(ue), source, target) =>
          if ue in pendingResult && pendingResult[ue] != [] {
            var event := pendingResult[ue][0];
            pendingResult := pendingResult[ue := pendingResult[ue][1..]];
            events := events + [event.(source := Some(source), target := Some(target))];
          } else {
            ghost var before := pendingExec;
            var time: Option<real> := None;
            if None in pendingExec {
              time := Some(pendingExec[None]);
              pendingExec := pendingExec - {None};
            }
            if Some(ue) in pendingExec {
              time := Some(pendingExec[Some(ue)]);
              pendingExec := pendingExec - {Some(ue)};
            }
            assert pendingExec == before - {None, Some(ue)};
            if time.Some? {
              events := events + [Event(time.value, Some(ue), Some(source), Some(target), None)];
            }
          }
        case CompletionRecord(None, source, target) =>
          if pendingExec != map[] {
            if None in pendingExec {
              var time := pendingExec[None];
              pendingExec := pendingExec - {None};
              events := events + [Event(time, None, Some(source), Some(target), None)];
            }
          }
      }
    }
    assert records[..|records|] == records;
    ghost var p := FeedAll(EMPTY, records);
    LeftoverNone(p);
    for i := 0 to |reporters|
      invariant events == p.events + Leftover(p, i)
    {
      LeftoverNext(p, i);
      if reporters[i] in pendingResult {
        events := events + pendingResult[reporters[i]];
      }
    }
  }

  lemma NothingFed(p: Parser)
    ensures FeedAll(p, []) == p
  {
  }

  lemma LeftoverNone(p: Parser)
    ensures Leftover(p, 0) == []
  {
  }

  lemma LeftoverNext(p: Parser, i: nat)
    requires i < |p.reporters|
    ensures Leftover(p, i + 1) ==
            Leftover(p, i) + if p.reporters[i] in p.pendingResult then p.pendingResult[p.reporters[i]] else []
  {
  }
}
