/** The successful handovers of a UE form a path through the cells. */
module HandoverPath {
  import opened ChoTypes
  import opened Agenda
  import opened Channel
  import opened Protocol
  import opened SystemModel
  import opened Independence
  import opened Lockstep
  import opened StepCases
  import opened Reachable

  function Successes(rows: seq<Row>): seq<Row> {
    Keep(rows, (r: Row) => r.success)
  }

  /** A radio-link failure no earlier than `t`. */
  ghost predicate LostSince(occasions: seq<Occasion>, t: real) {
    exists o :: o in occasions && o.RadioLinkFailure? && t <= o.time
  }

  ghost predicate LostBetween(occasions: seq<Occasion>, t: real, u: real) {
    exists o :: o in occasions && o.RadioLinkFailure? && t <= o.time <= u
  }

  /** Each handover starts where the last one led; only a radio-link failure of the distance strategy
      breaks the path. */
  ghost predicate IsPath(env: Env, hs: seq<Row>, occasions: seq<Occasion>) {
    forall k :: 0 < k < |hs| ==>
      && hs[k - 1].time <= hs[k].time
      && (hs[k].source == hs[k - 1].target ||
          (env.cfg.strategy == Distance && LostBetween(occasions, hs[k - 1].time, hs[k].time)))
  }

  ghost predicate EndsHere(env: Env, hs: seq<Row>, ue: Ue) {
    hs != [] ==> var last := hs[|hs| - 1];
      && last.target != NO_CELL
      && (last.target == ue.serving || (env.cfg.strategy == Distance && LostSince(ue.occasions, last.time)))
  }

  ghost predicate OnPath(env: Env, l: Local) {
    var hs := Successes(l.rows);
    && IsPath(env, hs, l.ue.occasions) && EndsHere(env, hs, l.ue)
    && (hs != [] ==> hs[|hs| - 1].time <= l.now)
    && (forall o :: o in l.ue.occasions ==> o.time <= l.now)
    && |hs| == l.ue.hoCount
  }

  lemma {:induction false} KeepAppend<T>(a: seq<T>, b: seq<T>, p: T -> bool)
    ensures Keep(a + b, p) == Keep(a, p) + Keep(b, p)
  {
    hide Keep;
    if a == [] {
      KeepNone(p);
      assert a + b == b;
    } else {
      KeepAppend(a[1..], b, p);
      KeepFirst(a[0], a[1..] + b, p);
      KeepFirst(a[0], a[1..], p);
      assert a + b == [a[0]] + (a[1..] + b) && a == [a[0]] + a[1..];
    }
  }

  lemma KeepNone<T>(p: T -> bool)
    ensures Keep([], p) == []
  {
  }

  lemma KeepFirst<T>(x: T, s: seq<T>, p: T -> bool)
    ensures Keep([x] + s, p) == (if p(x) then [x] else []) + Keep(s, p)
  {
    assert ([x] + s)[1..] == s;
  }

  lemma OneRow(rows: seq<Row>, r: Row)
    ensures Successes(rows + [r]) == if r.success then Successes(rows) + [r] else Successes(rows)
  {
    var p := (x: Row) => x.success;
    KeepAppend(rows, [r], p);
    KeepFirst(r, [], p);
    KeepNone(p);
    assert [r] + [] == [r];
  }

  // ----- every handler keeps the path -----

  /** A handler that reports no handover and moves the UE only by losing its link. */
  ghost predicate StaysOnPath(env: Env, a: Ue, b: Ue, t: real) {
    && b.hoCount == a.hoCount
    && (forall o :: o in a.occasions ==> o in b.occasions)
    && (forall o :: o in b.occasions ==> o in a.occasions || o.time == t)
    && (b.serving == a.serving || a.serving == NO_CELL ||
        (env.cfg.strategy == Distance && exists o :: o in b.occasions && o.RadioLinkFailure? && o.time == t))
  }

  lemma TickStays(env: Env, ue: Ue, t: real)
    requires ValidEnv(env) && UeOk(env, ue)
    ensures StaysOnPath(env, ue, Protocol.CheckHandover(env, ue, t).ue, t)
    ensures Protocol.CheckHandover(env, ue, t).rows == []
  {
    hide Protocol.CheckHandover, CheckExecution, UeOk, Measured;
    var occasion := TickCase(env, ue, t);
    CheckExecutionStays(env, ue, t);
    if occasion.Some? {
      MeasuredStays(env, Occasioned(ue, t), Protocol.CheckHandover(env, ue, t), t, occasion.value);
    }
  }

  lemma MeasuredStays(env: Env, a: Ue, o: Outcome, t: real, occasion: Occasion)
    requires Measured(env, a, o, t, occasion)
    ensures StaysOnPath(env, a, o.ue, t) && o.rows == []
  {
    hide Started, NotStarted, PlainLines, Decide, Due;
    assert occasion in o.ue.occasions;
  }

  lemma CheckExecutionStays(env: Env, ue: Ue, t: real)
    ensures StaysOnPath(env, ue, CheckExecution(env, ue, t).ue, t)
    ensures CheckExecution(env, ue, t).rows == []
  {
    hide ConditionMet, Count, AppliedRate, UplinkDelay, StaysOnPath;
    var o := CheckExecution(env, ue, t);
    assert o.rows == [] && o.ue.serving == ue.serving && o.ue.occasions == ue.occasions && o.ue.hoCount == ue.hoCount;
    UnmovedStays(env, ue, o.ue, t);
  }

  lemma UnmovedStays(env: Env, a: Ue, b: Ue, t: real)
    requires b.serving == a.serving && b.occasions == a.occasions && b.hoCount == a.hoCount
    ensures StaysOnPath(env, a, b, t)
  {
  }

  lemma PreparedStays(env: Env, ue: Ue, t: real)
    requires ValidEnv(env) && UeOk(env, ue)
    ensures UeOk(env, PreparedUe(env, ue, t)) && StaysOnPath(env, ue, PreparedUe(env, ue, t), t)
    ensures PreparedUe(env, ue, t).occasions == ue.occasions
    ensures ue.serving != NO_CELL ==> PreparedUe(env, ue, t).serving == ue.serving
  {
    hide UeOk, PreparedUe;
    PreparedOk(env, ue, t);
  }

  lemma StaysTransitive(env: Env, a: Ue, b: Ue, c: Ue, t: real)
    requires StaysOnPath(env, a, b, t) && StaysOnPath(env, b, c, t) && b.occasions == a.occasions
    requires a.serving == NO_CELL || b.serving == a.serving
    ensures StaysOnPath(env, a, c, t)
  {
  }

  lemma PathKept(env: Env, l: Local, ue: Ue, t: real)
    requires OnPath(env, l) && StaysOnPath(env, l.ue, ue, t) && l.now <= t
    ensures OnPath(env, l.(ue := ue, now := t))
  {
    hide Keep;
    var hs := Successes(l.rows);
    forall k | 0 < k < |hs|
      ensures hs[k].source == hs[k - 1].target ||
              (env.cfg.strategy == Distance && LostBetween(ue.occasions, hs[k - 1].time, hs[k].time)) {
    }
  }

  lemma TickPath(env: Env, l: Local, t: real)
    requires ValidEnv(env) && UeOk(env, l.ue) && OnPath(env, l) && l.now <= t
    ensures var o := Protocol.CheckHandover(env, PreparedUe(env, l.ue, t), t);
            o.rows == [] && OnPath(env, l.(ue := o.ue, now := t))
  {
    hide UeOk, PreparedUe, Protocol.CheckHandover, OnPath, StaysOnPath;
    PreparedStays(env, l.ue, t);
    var p := PreparedUe(env, l.ue, t);
    TickStays(env, p, t);
    var o := Protocol.CheckHandover(env, p, t);
    StaysTransitive(env, l.ue, p, o.ue, t);
    PathKept(env, l, o.ue, t);
  }

  lemma HopPath(env: Env, l: Local, hop: Hop, t: real)
    requires UeOk(env, l.ue) && OnPath(env, l) && l.now <= t && Awaits(l.ue.proc.phase) == Some(hop)
    ensures var o := HandleHop(env, l.ue, t, hop, l.ue.proc.source, l.ue.proc.target);
            OnPath(env, l.(ue := o.ue, now := t, rows := l.rows + o.rows))
  {
    hide LinkViable, Complete, Fail, StoreConfig, OnPath;
    var o := HandleHop(env, l.ue, t, hop, l.ue.proc.source, l.ue.proc.target);
    if hop == ExecutionComplete {
      if LinkViable(env.cfg, l.ue.cache, l.ue.proc.target) {
        CompletePath(env, l, t);
      } else {
        FailPath(env, l, t);
      }
    } else {
      StoreStays(env, l.ue, t);
      assert o.rows == [] && StaysOnPath(env, l.ue, o.ue, t);
      PathKept(env, l, o.ue, t);
      assert l.rows + [] == l.rows;
    }
  }

  lemma StoreStays(env: Env, ue: Ue, t: real)
    ensures var o := StoreConfig(env, ue, t, ue.proc.target); o.rows == [] && StaysOnPath(env, ue, o.ue, t)
  {
  }

  lemma FailPath(env: Env, l: Local, t: real)
    requires OnPath(env, l) && l.now <= t
    ensures var o := Fail(env, l.ue, t); OnPath(env, l.(ue := o.ue, now := t, rows := l.rows + o.rows))
  {
    hide Count, Successes, OnPath;
    var o := Fail(env, l.ue, t);
    PathKept(env, l, o.ue, t);
    FailRow(env, l, o.ue, t, o.rows[0]);
  }

  lemma FailRow(env: Env, l: Local, ue: Ue, t: real, r: Row)
    requires OnPath(env, l.(ue := ue, now := t)) && !r.success
    ensures OnPath(env, l.(ue := ue, now := t, rows := l.rows + [r]))
  {
    hide Successes, IsPath, EndsHere;
    OneRow(l.rows, r);
  }

  lemma CompletePath(env: Env, l: Local, t: real)
    requires UeOk(env, l.ue) && l.ue.proc.phase == Executing && OnPath(env, l) && l.now <= t
    ensures var o := Complete(env, l.ue, t, l.ue.proc.source, l.ue.proc.target);
            OnPath(env, l.(ue := o.ue, now := t, rows := l.rows + o.rows))
  {
    hide Count, OnPath, AppliedRate;
    var p := l.ue.proc;
    var o := Complete(env, l.ue, t, p.source, p.target);
    PathExtended(env, l, o.ue, t, p.source, p.target);
  }

  /** One more handover, from where the UE is. */
  lemma PathExtended(env: Env, l: Local, ue: Ue, t: real, source: Cell, target: Cell)
    requires OnPath(env, l) && l.now <= t && source == l.ue.serving && target != NO_CELL
    requires ue.serving == target && ue.hoCount == l.ue.hoCount + 1 && ue.occasions == l.ue.occasions
    ensures OnPath(env, l.(ue := ue, now := t, rows := l.rows + [Row(t, source, target, true)]))
  {
    hide Successes;
    var hs := Successes(l.rows);
    OneRow(l.rows, Row(t, source, target, true));
    if hs != [] && hs[|hs| - 1].target != source {
      var o :| o in l.ue.occasions && o.RadioLinkFailure? && hs[|hs| - 1].time <= o.time;
      assert o.time <= t;
      assert LostBetween(l.ue.occasions, hs[|hs| - 1].time, t);
    }
  }

  lemma StepPath(env: Env, l: Local)
    requires ValidEnv(env) && Coherent(env, l) && OnPath(env, l)
    ensures OnPath(env, StepOwn(env, l))
  {
    hide StepOwn, OnPath, UeOk, Protocol.CheckHandover, HandleHop, PreparedUe, Sift;
    if l.queue == [] {
      EmptyStep(env, l);
    } else {
      StepCase(env, l);
      var l', o := StepOwn(env, l), Handled(env, l);
      match l.queue[0].act {
        case OwnTick =>
          TickPath(env, l, l'.now);
          assert l.rows + [] == l.rows;
          SameForPath(env, l.(ue := o.ue, now := l'.now), l');
        case OwnJob(HopJob(hop, _, _)) =>
          HopPath(env, l, hop, l'.now);
          SameForPath(env, l.(ue := o.ue, now := l'.now, rows := l.rows + o.rows), l');
        case OwnJob(PredictJob(_)) =>
          LaterPath(env, l, l'.now);
          assert l.rows + [] == l.rows;
          SameForPath(env, l.(now := l'.now), l');
      }
    }
  }

  lemma LaterPath(env: Env, l: Local, t: real)
    requires OnPath(env, l) && l.now <= t
    ensures OnPath(env, l.(now := t))
  {
    hide IsPath, EndsHere, Successes;
  }

  lemma SameForPath(env: Env, a: Local, b: Local)
    requires OnPath(env, a) && a.ue == b.ue && a.now == b.now && a.rows == b.rows
    ensures OnPath(env, b)
  {
    hide IsPath, EndsHere, Successes;
  }

  lemma StartPath(env: Env, ue: Ue)
    requires Initial(ue)
    ensures OnPath(env, StartOwn(ue))
  {
  }

  lemma {:induction false} RunPath(env: Env, ue: Ue, m: nat)
    requires ValidEnv(env) && Initial(ue)
    ensures OnPath(env, RunOwn(env, StartOwn(ue), m))
  {
    hide Coherent, StepOwn, OnPath;
    StartPath(env, ue);
    if m > 0 {
      RunPath(env, ue, m - 1);
      RunCoherent(env, ue, m - 1);
      StepPath(env, RunOwn(env, StartOwn(ue), m - 1));
    }
  }

  /** In every run, whatever the other UEs do, the successful handovers of a UE form a path that leads
      to its serving cell; in the distance strategy, and there alone, a radio-link failure may break it. */
  lemma HandoversFormAPath(env: Env, ues: seq<Ue>, run: nat -> Sys, n: nat, i: nat)
    requires Starting(env, ues) && IsRun(env, ues, run) && i < |ues|
    ensures |run(n).ues| == |ues|
    ensures var s := run(n);
            var ue, hs := s.ues[i], Successes(Of(s.rows, i));
            |hs| == ue.hoCount && IsPath(env, hs, ue.occasions) && EndsHere(env, hs, ue)
  {
    hide IsPath, EndsHere, Successes;
    var m, l := OwnMoment(env, ues, run, i, n);
    RunPath(env, ues[i], m);
  }
}
