/** The averages of the scheduler benchmark: Welford's online algorithm against the textbook sums, and
    the event population the benchmark keeps. */
module Benchmark {
  import opened ChoTypes
  import opened Reals
  import opened Agenda

  datatype PhaseResult = PhaseResult(time: real, rate: real, period: real)

  datatype BenchResult = BenchResult(init: PhaseResult, run: PhaseResult)

  datatype Field = InitTime | InitRate | InitPeriod | RunTime | RunRate | RunPeriod

  function Get(r: BenchResult, f: Field): real {
    match f
    case InitTime => r.init.time
    case InitRate => r.init.rate
    case InitPeriod => r.init.period
    case RunTime => r.run.time
    case RunRate => r.run.rate
    case RunPeriod => r.run.period
  }

  function Column(results: seq<BenchResult>, f: Field): (c: seq<real>)
    ensures |c| == |results| && forall k :: 0 <= k < |c| ==> c[k] == Get(results[k], f)
  {
    seq(|results|, k requires 0 <= k < |results| => Get(results[k], f))
  }

  // ----- the textbook definitions -----

  function Sum(xs: seq<real>): real {
    if xs == [] then 0.0 else Sum(xs[..|xs| - 1]) + xs[|xs| - 1]
  }

  function Mean(xs: seq<real>): real
    requires xs != []
  {
    Over(Sum(xs), |xs| as real)
  }

  /** The sum of the squared deviations from `m`. */
  function Deviations(xs: seq<real>, m: real): real {
    if xs == [] then 0.0 else Deviations(xs[..|xs| - 1], m) + Square(xs[|xs| - 1] - m)
  }

  // ----- one accumulation -----

  /** The running average and second moment of the samples so far. */
  ghost predicate Tracks(xs: seq<real>, average: real, moment2: real) {
    Times(|xs| as real, average) == Sum(xs) && moment2 == Deviations(xs, average)
  }

  /** Moving the centre of the deviations from the mean. */
  lemma {:induction false} Recentre(xs: seq<real>, a: real, b: real)
    ensures Deviations(xs, b) == Deviations(xs, a)
            - Times(2.0, Times(b - a, Sum(xs))) + Times(|xs| as real, Square(b) - Square(a))
  {
    if xs != [] {
      var rest, x := xs[..|xs| - 1], xs[|xs| - 1];
      Recentre(rest, a, b);
      Expand(x, a, b);
      CountOne(|rest|, Square(b) - Square(a));
      Distribute(b - a, Sum(rest), x);
    } else {
      hide Square;
    }
  }

  lemma Expand(x: real, a: real, b: real)
    ensures Square(x - b) == Square(x - a) - Times(2.0, Times(b - a, x)) + (Square(b) - Square(a))
  {
  }

  lemma CountOne(n: nat, v: real)
    ensures Times((n + 1) as real, v) == Times(n as real, v) + v
  {
    hide Times;
    TimesLinear(n as real, 1.0, v);
  }

  lemma Distribute(d: real, s: real, x: real)
    ensures Times(2.0, Times(d, s + x)) == Times(2.0, Times(d, s)) + Times(2.0, Times(d, x))
  {
  }

  lemma DifferenceOfSquares(a: real, b: real)
    ensures Square(b) - Square(a) == Times(b - a, b + a)
  {
  }

  /** The algebra of one step: with n a the old sum and (n + 1) b the new one. */
  lemma StepAlgebra(n: real, a: real, b: real, x: real)
    requires Times(n + 1.0, b) == Times(n, a) + x
    ensures Square(x - b) - Times(2.0, Times(b - a, Times(n, a))) + Times(n, Square(b) - Square(a)) == Times(x - a, x - b)
  {
    hide Times;
    var d, was, total := b - a, Times(n, a), Times(n, b);
    TimesLinear(n, 1.0, b);
    DifferenceOfSquares(a, b);
    TimesAssociates(n, d, b + a);
    TimesAssociates(d, n, b + a);
    TimesLinear(n, n, d);
    TimesLinear(b, a, n);
    TimesLinear(b + a, b + a, n);
    TimesLinear(total, was, d);
    TimesLinear(total + was, was, d);
    TimesLinear(1.0, 1.0, Times(d, was));
    TimesLinear(x - b, d, x - b);
    assert total - was == x - b && (x - b) + d == x - a;
  }

  lemma Accumulated(xs: seq<real>, average: real, moment2: real, x: real)
    requires Tracks(xs, average, moment2)
    ensures var deltaPre := x - average;
            var after := average + Over(deltaPre, (|xs| + 1) as real);
            Tracks(xs + [x], after, moment2 + Times(deltaPre, x - after))
  {
    hide Times, Square, Over;
    var n := |xs| as real;
    var deltaPre := x - average;
    var after := average + Over(deltaPre, n + 1.0);
    OverTimes(deltaPre, n + 1.0);
    TimesLinear(average, Over(deltaPre, n + 1.0), n + 1.0);
    TimesLinear(n, 1.0, average);
    TimesLinear(n, 1.0, after);
    TimesLinear(after, after, n + 1.0);
    assert (xs + [x])[..|xs|] == xs;
    StepAlgebra(n, average, after, x);
    Recentre(xs, average, after);
  }

  /** ACCUMULATE for one field. */
  method Accumulate(x: real, average: real, moment2: real, count: nat, ghost xs: seq<real>) returns (a: real, m: real)
    requires count == |xs| + 1 && Tracks(xs, average, moment2)
    ensures Tracks(xs + [x], a, m)
  {
    var deltaPre := x - average;
    a := average + Over(deltaPre, count as real);
    var deltaPost := x - a;
    m := moment2 + Times(deltaPre, deltaPost);
    Accumulated(xs, average, moment2, x);
  }

  ghost predicate AllTrack(results: seq<BenchResult>, average: BenchResult, moment2: BenchResult) {
    forall f: Field :: Tracks(Column(results, f), Get(average, f), Get(moment2, f))
  }

  lemma ColumnGrows(results: seq<BenchResult>, n: nat, f: Field)
    requires n < |results|
    ensures Column(results[..n + 1], f) == Column(results[..n], f) + [Get(results[n], f)]
  {
  }

  /** One pass of the loop body. */
  method AccumulateResult(results: seq<BenchResult>, n: nat, average: BenchResult, moment2: BenchResult)
    returns (a: BenchResult, m: BenchResult)
    requires n < |results| && AllTrack(results[..n], average, moment2)
    ensures AllTrack(results[..n + 1], a, m)
  {
    hide Tracks;
    var run, count := results[n], n + 1;
    var a1, m1 := Accumulate(run.init.time, average.init.time, moment2.init.time, count, Column(results[..n], InitTime));
    var a2, m2 := Accumulate(run.init.rate, average.init.rate, moment2.init.rate, count, Column(results[..n], InitRate));
    var a3, m3 := Accumulate(run.init.period, average.init.period, moment2.init.period, count, Column(results[..n], InitPeriod));
    var a4, m4 := Accumulate(run.run.time, average.run.time, moment2.run.time, count, Column(results[..n], RunTime));
    var a5, m5 := Accumulate(run.run.rate, average.run.rate, moment2.run.rate, count, Column(results[..n], RunRate));
    var a6, m6 := Accumulate(run.run.period, average.run.period, moment2.run.period, count, Column(results[..n], RunPeriod));
    a := BenchResult(PhaseResult(a1, a2, a3), PhaseResult(a4, a5, a6));
    m := BenchResult(PhaseResult(m1, m2, m3), PhaseResult(m4, m5, m6));
    forall f ensures Tracks(Column(results[..n + 1], f), Get(a, f), Get(m, f)) {
      ColumnGrows(results, n, f);
    }
  }

  lemma NothingTracked(r: BenchResult)
    ensures AllTrack([], r, BenchResult(PhaseResult(0.0, 0.0, 0.0), PhaseResult(0.0, 0.0, 0.0)))
  {
    forall f ensures Tracks(Column([], f), Get(r, f), 0.0) {
      assert Column([], f) == [];
    }
  }

  /** BenchSuite::Log: nothing for fewer than two results; otherwise every average field is the
      arithmetic mean of its column and every second moment the sum of squared deviations from it. */
  method Summarise(results: seq<BenchResult>) returns (summary: Option<(BenchResult, BenchResult)>)
    ensures summary.None? <==> |results| < 2
    ensures summary.Some? ==>
              forall f :: && Get(summary.value.0, f) == Mean(Column(results, f))
                          && Get(summary.value.1, f) == Deviations(Column(results, f), Mean(Column(results, f)))
  {
    if |results| < 2 {
      return None;
    }
    var average := results[0];
    var moment2 := BenchResult(PhaseResult(0.0, 0.0, 0.0), PhaseResult(0.0, 0.0, 0.0));
    NothingTracked(average);
    for n := 0 to |results|
      invariant AllTrack(results[..n], average, moment2)
    {
      average, moment2 := AccumulateResult(results, n, average, moment2);
    }
    assert results[..|results|] == results;
    forall f ensures Get(average, f) == Mean(Column(results, f)) {
      var c := Column(results, f);
      assert Tracks(c, Get(average, f), Get(moment2, f));
      TimesLinear(Get(average, f), 0.0, |c| as real);
      OverUnique(Sum(c), |c| as real, Get(average, f));
    }
    return Some((average, moment2));
  }

  // ----- the benchmark whose runs are averaged -----

  /** Bench::Run and Bench::Cb: every executed event schedules one more, so the population stays what
      it was set to until exactly `total` events are counted; nothing is ever scheduled in the past. */
  method RunBench(population: nat, total: nat, delay: nat -> real) returns (events: nat, waiting: nat)
    requires forall k :: delay(k) >= 0.0
    ensures events == if population == 0 then 0 else total
    ensures waiting == if population == 0 then 0 else population - 1
  {
    var queue: seq<Timed<()>> := [];
    var draws, now := 0, 0.0;
    while draws < population
      invariant draws == |queue| <= population
      invariant Sorted(queue) && AllFrom(queue, now)
    {
      InsertKeepsOrder(queue, Timed(delay(draws), ()), now);
      InsertAddsOne(queue, Timed(delay(draws), ()));
      queue := Insert(queue, Timed(delay(draws), ()));
      draws := draws + 1;
    }
    events := 0;
    var stopped := false;
    while queue != [] && !stopped
      invariant Sorted(queue) && AllFrom(queue, now) && events <= total
      invariant stopped ==> events == total && |queue| == population - 1
      invariant !stopped ==> |queue| == population
      invariant population == 0 ==> events == 0
      decreases !stopped, total - events
    {
      now := queue[0].time;
      queue := queue[1..];
      if events >= total {
        stopped := true;
      } else {
        var e := Timed(now + delay(draws), ());
        InsertKeepsOrder(queue, e, now);
        InsertAddsOne(queue, e);
        queue := Insert(queue, e);
        draws := draws + 1;
        events := events + 1;
      }
    }
    waiting := |queue|;
  }

  lemma {:induction false} InsertAddsOne<A>(q: seq<Timed<A>>, e: Timed<A>)
    ensures |Insert(q, e)| == |q| + 1
  {
    if q != [] && q[0].time <= e.time {
      InsertAddsOne(q[1..], e);
    }
  }
}
