/** The log analysis treats the UEs of an interleaved log as if each had a log of its own. */
module LogByUe {
  import opened ChoTypes
  import opened HandoverLog

  /** The UE a record is about, or nobody. */
  function About(r: Record): Option<nat> {
    match r
    case DebugRecord(ue, _, _, _, _) => Some(ue)
    case ResultRecord(ue, _, _, _) => Some(ue)
    case ExecutionRecord(who, _) => who
    case CompletionRecord(who, _, _) => who
    case OtherRecord => None
  }

  /** Every record that matters names its UE, as in the logs of these simulators. */
  ghost predicate Named(records: seq<Record>) {
    forall k :: 0 <= k < |records| ==> records[k] == OtherRecord || About(records[k]).Some?
  }

  function OfUe(records: seq<Record>, i: nat): seq<Record> {
    if records == [] then [] else (if About(records[0]) == Some(i) then [records[0]] else []) + OfUe(records[1..], i)
  }

  function EventsOf(events: seq<Event>, i: nat): seq<Event> {
    if events == [] then []
    else EventsOf(events[..|events| - 1], i) + if events[|events| - 1].who == Some(i) then [events[|events| - 1]] else []
  }

  /** What the parser holds about one UE. */
  datatype Slice = Slice(events: seq<Event>, exec: Option<real>, results: seq<Event>, seen: seq<Seen>)

  function ResultsOf(p: Parser, i: nat): seq<Event> {
    if i in p.pendingResult then p.pendingResult[i] else []
  }

  function SliceOf(p: Parser, i: nat): Slice {
    Slice(EventsOf(p.events, i), if Some(i) in p.pendingExec then Some(p.pendingExec[Some(i)]) else None,
          ResultsOf(p, i), DebugOf(p.debug, i))
  }

  lemma EventAppended(events: seq<Event>, e: Event, i: nat)
    ensures EventsOf(events + [e], i) == EventsOf(events, i) + if e.who == Some(i) then [e] else []
  {
    assert (events + [e])[..|events|] == events;
  }

  /** Results know their UE, and no unnamed execution waits. */
  ghost predicate Owned(p: Parser) {
    && None !in p.pendingExec
    && (forall ue :: ue in p.pendingResult ==> forall k :: 0 <= k < |p.pendingResult[ue]| ==> p.pendingResult[ue][k].who == Some(ue))
    && (forall k :: 0 <= k < |p.reporters| ==> p.reporters[k] in p.pendingResult)
    && (forall ue :: ue in p.pendingResult ==> ue in p.reporters)
    && (forall j, k :: 0 <= j < k < |p.reporters| ==> p.reporters[j] != p.reporters[k])
  }

  lemma FeedOwned(p: Parser, r: Record)
    requires Owned(p) && (r == OtherRecord || About(r).Some?)
    ensures Owned(Feed(p, r))
  {
    hide Guess;
  }

  /** A record of another UE changes nothing in the slice. */
  lemma OthersRecord(p: Parser, r: Record, i: nat)
    requires Owned(p) && (r == OtherRecord || About(r).Some?) && About(r) != Some(i)
    ensures SliceOf(Feed(p, r), i) == SliceOf(p, i)
  {
    hide EventsOf, ResultEvent;
    if r.CompletionRecord? {
      var q := Feed(p, r);
      if q.events != p.events {
        EventAppended(p.events, q.events[|p.events|], i);
      }
    }
  }

  /** A completion of its own. */
  lemma OwnCompletion(p: Parser, q: Parser, r: Record, i: nat)
    requires Owned(p) && Owned(q) && r.CompletionRecord? && r.who == Some(i) && SliceOf(p, i) == SliceOf(q, i)
    ensures SliceOf(Feed(p, r), i) == SliceOf(Feed(q, r), i)
  {
    hide EventsOf, Owned;
    NoneWaits(p);
    NoneWaits(q);
    var p', q' := Feed(p, r), Feed(q, r);
    if p'.events != p.events {
      EventAppended(p.events, p'.events[|p.events|], i);
    }
    if q'.events != q.events {
      EventAppended(q.events, q'.events[|q.events|], i);
    }
  }

  lemma NoneWaits(p: Parser)
    requires Owned(p)
    ensures None !in p.pendingExec
  {
  }

  /** What a record of its own does depends on the slice alone. */
  lemma OwnRecord(p: Parser, q: Parser, r: Record, i: nat)
    requires Owned(p) && Owned(q) && About(r) == Some(i) && SliceOf(p, i) == SliceOf(q, i)
    ensures SliceOf(Feed(p, r), i) == SliceOf(Feed(q, r), i)
  {
    hide EventsOf, Closest, Owned;
    if r.CompletionRecord? {
      OwnCompletion(p, q, r, i);
    }
  }

  lemma {:induction false} SlicesAgree(p: Parser, q: Parser, records: seq<Record>, i: nat)
    requires Named(records) && Owned(p) && Owned(q) && SliceOf(p, i) == SliceOf(q, i)
    ensures Owned(FeedAll(p, records)) && Owned(FeedAll(q, OfUe(records, i)))
    ensures SliceOf(FeedAll(p, records), i) == SliceOf(FeedAll(q, OfUe(records, i)), i)
    decreases records
  {
    hide Feed, SliceOf, Owned;
    if records != [] {
      var r, rest := records[0], records[1..];
      FeedOwned(p, r);
      if About(r) == Some(i) {
        FeedOwned(q, r);
        OwnRecord(p, q, r, i);
        SlicesAgree(Feed(p, r), Feed(q, r), rest, i);
        assert OfUe(records, i) == [r] + OfUe(rest, i);
        FeedAllAppend(q, [r], OfUe(rest, i));
        FeedOne(q, r);
      } else {
        OthersRecord(p, r, i);
        SlicesAgree(Feed(p, r), q, rest, i);
        assert OfUe(records, i) == OfUe(rest, i);
      }
    }
  }

  lemma {:induction false} EventsAppend(a: seq<Event>, b: seq<Event>, i: nat)
    ensures EventsOf(a + b, i) == EventsOf(a, i) + EventsOf(b, i)
  {
    if b == [] {
      assert a + b == a;
    } else {
      assert (a + b)[..|a + b| - 1] == a + b[..|b| - 1];
      EventsAppend(a, b[..|b| - 1], i);
    }
  }

  lemma {:induction false} AllOf(events: seq<Event>, ue: nat, i: nat)
    requires forall k :: 0 <= k < |events| ==> events[k].who == Some(ue)
    ensures EventsOf(events, i) == if ue == i then events else []
  {
    if events != [] {
      AllOf(events[..|events| - 1], ue, i);
      assert events == events[..|events| - 1] + [events[|events| - 1]];
    }
  }

  lemma NothingOf(i: nat)
    ensures EventsOf([], i) == []
  {
  }

  /** A UE is listed once, and the results under its name are its own. */
  lemma ListedOnce(p: Parser, k: nat)
    requires Owned(p) && k < |p.reporters|
    ensures p.reporters[k] in p.pendingResult && p.reporters[k] !in p.reporters[..k]
    ensures forall j :: 0 <= j < |ResultsOf(p, p.reporters[k])| ==> ResultsOf(p, p.reporters[k])[j].who == Some(p.reporters[k])
  {
  }

  lemma {:induction false} LeftoverOf(p: Parser, k: nat, i: nat)
    requires Owned(p) && k <= |p.reporters|
    ensures EventsOf(Leftover(p, k), i) == if i in p.reporters[..k] then ResultsOf(p, i) else []
  {
    hide EventsOf, Owned;
    NothingOf(i);
    if k > 0 {
      LeftoverOf(p, k - 1, i);
      ListedOnce(p, k - 1);
      var ue := p.reporters[k - 1];
      AllOf(ResultsOf(p, ue), ue, i);
      EventsAppend(Leftover(p, k - 1), ResultsOf(p, ue), i);
      assert p.reporters[..k] == p.reporters[..k - 1] + [ue];
    }
  }

  lemma ParsedOf(records: seq<Record>, i: nat)
    requires Owned(FeedAll(EMPTY, records))
    ensures EventsOf(Parsed(records), i) ==
            var slice := SliceOf(FeedAll(EMPTY, records), i); slice.events + slice.results
  {
    hide FeedAll, Leftover;
    var p := FeedAll(EMPTY, records);
    EventsAppend(p.events, Leftover(p, |p.reporters|), i);
    LeftoverOf(p, |p.reporters|, i);
    assert p.reporters[..|p.reporters|] == p.reporters;
  }

  /** Per-UE matching: the events the analysis reports for a UE are those of the UE's own lines,
      however the lines of the UEs are interleaved. */
  lemma InterleavingDoesNotMatter(records: seq<Record>, i: nat)
    requires Named(records)
    ensures EventsOf(Parsed(records), i) == EventsOf(Parsed(OfUe(records, i)), i)
  {
    hide FeedAll, Parsed, SliceOf;
    SlicesAgree(EMPTY, EMPTY, records, i);
    ParsedOf(records, i);
    ParsedOf(OfUe(records, i), i);
  }
}
