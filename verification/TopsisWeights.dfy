/** SD-TOPSIS against its textbook definition: unit columns, weights in the ratio of the standard
    deviations, and the relative closeness to the best and the worst. */
module TopsisWeights {
  import opened ChoTypes
  import opened Reals
  import opened Topsis
  import opened TopsisOptimality

  // ----- columns as lists -----

  function Sum(xs: seq<real>): real {
    if xs == [] then 0.0 else Sum(xs[..|xs| - 1]) + xs[|xs| - 1]
  }

  function Deviations(xs: seq<real>, mean: real): real {
    if xs == [] then 0.0 else Deviations(xs[..|xs| - 1], mean) + (xs[|xs| - 1] - mean) * (xs[|xs| - 1] - mean)
  }

  /** The standard deviation of a list: not negative, and its square times the number of values is the sum
      of the squared deviations from their mean. There is only one such number. */
  ghost predicate IsStandardDeviation(xs: seq<real>, d: real) {
    d >= 0.0 && exists mean :: mean * |xs| as real == Sum(xs) && d * d * |xs| as real == Deviations(xs, mean)
  }

  lemma OneStandardDeviation(xs: seq<real>, d: real, e: real)
    requires xs != [] && IsStandardDeviation(xs, d) && IsStandardDeviation(xs, e)
    ensures d == e
  {
    hide Sum, Deviations;
    var n := |xs| as real;
    var m :| m * n == Sum(xs) && d * d * n == Deviations(xs, m);
    var k :| k * n == Sum(xs) && e * e * n == Deviations(xs, k);
    SameFactor(m, k, n);
    OneRoot(d, e, n);
  }

  lemma OneRoot(d: real, e: real, n: real)
    requires d >= 0.0 && e >= 0.0 && n > 0.0 && d * d * n == e * e * n
    ensures d == e
  {
    SameFactor(d * d, e * e, n);
    SquareOrder(d, e);
  }

  lemma SameFactor(x: real, y: real, n: real)
    requires n > 0.0 && x * n == y * n
    ensures x == y
  {
  }

  /** Criterion `j` of the candidates, as given and normalised. */
  function Given(c: seq<Metrics>, j: nat): (r: seq<real>)
    ensures |r| == |c|
  {
    seq(|c|, i requires 0 <= i < |c| => Criterion(c[i], j))
  }

  function Normalised(root: real -> real, c: seq<Metrics>, j: nat): (r: seq<real>)
    ensures |r| == |c|
  {
    seq(|c|, i requires 0 <= i < |c| => Norm(root, c, i, j))
  }

  // ----- the normalised columns -----

  lemma {:induction false} SumSquaresIs(c: seq<Metrics>, j: nat, n: nat)
    requires n <= |c|
    ensures SumSquares(c, j, n) == Deviations(Given(c, j)[..n], 0.0)
  {
    if n > 0 {
      SumSquaresIs(c, j, n - 1);
      assert Given(c, j)[..n][..n - 1] == Given(c, j)[..n - 1];
    }
  }

  /** A column that is not all zero is divided by its Euclidean length. */
  lemma ColumnsAreNormalised(root: real -> real, c: seq<Metrics>, j: nat) returns (length: real)
    requires IsRoot(root)
    ensures length >= 0.0 && length * length == Deviations(Given(c, j), 0.0)
    ensures length > 0.0 ==> forall i :: 0 <= i < |c| ==> Normalised(root, c, j)[i] * length == Given(c, j)[i]
    ensures length == 0.0 ==> Normalised(root, c, j) == Given(c, j)
  {
    hide SumSquares, Over, Criterion;
    SumSquaresIs(c, j, |c|);
    assert Given(c, j)[..|c|] == Given(c, j);
    var s := SumSquares(c, j, |c|);
    LengthIsNotNegative(c, j);
    RootFacts(root, s, s);
    length := root(s);
    if s > 0.0 {
      forall i | 0 <= i < |c| ensures Normalised(root, c, j)[i] * length == Given(c, j)[i] {
        OverTimes(Criterion(c[i], j), length);
      }
    }
  }

  lemma LengthIsNotNegative(c: seq<Metrics>, j: nat)
    ensures SumSquares(c, j, |c|) >= 0.0
  {
    if c != [] {
      SumSquaresDominatesTerm(c, j, |c|, 0);
    }
  }

  // ----- the weights -----

  lemma {:induction false} NormSumIs(root: real -> real, c: seq<Metrics>, j: nat, n: nat)
    requires n <= |c|
    ensures NormSum(root, c, j, n) == Sum(Normalised(root, c, j)[..n])
  {
    hide Norm;
    if n > 0 {
      NormSumIs(root, c, j, n - 1);
      assert Normalised(root, c, j)[..n][..n - 1] == Normalised(root, c, j)[..n - 1];
    }
  }

  lemma {:induction false} SpreadIs(root: real -> real, c: seq<Metrics>, j: nat, n: nat)
    requires 0 < |c| && n <= |c|
    ensures Spread(root, c, j, n) == Deviations(Normalised(root, c, j)[..n], Mean(root, c, j))
  {
    hide Norm, Mean;
    if n > 0 {
      SpreadIs(root, c, j, n - 1);
      assert Normalised(root, c, j)[..n][..n - 1] == Normalised(root, c, j)[..n - 1];
    }
  }

  lemma DeviationIsStandard(root: real -> real, c: seq<Metrics>, j: nat)
    requires IsRoot(root) && |c| > 0
    ensures IsStandardDeviation(Normalised(root, c, j), Deviation(root, c, j))
  {
    hide Norm, NormSum, Spread, Over;
    var xs, n := Normalised(root, c, j), |c| as real;
    NormSumIs(root, c, j, |c|);
    SpreadIs(root, c, j, |c|);
    assert xs[..|c|] == xs;
    OverTimes(NormSum(root, c, j, |c|), n);
    var mean, v := Mean(root, c, j), Over(Spread(root, c, j, |c|), n);
    OverTimes(Spread(root, c, j, |c|), n);
    SpreadIsNonNegative(root, c, j, |c|);
    OverSign(Spread(root, c, j, |c|), n);
    RootFacts(root, v, v);
    assert mean * |xs| as real == Sum(xs);
  }

  /** The weights of the criteria, given the standard deviations of their normalised columns: in their
      ratio and one in sum if they differ from zero together, and a third each if they do not. */
  lemma WeightsFollowDeviations(root: real -> real, c: seq<Metrics>, d: seq<real>)
    requires IsRoot(root) && |c| > 0 && |d| == 3
    requires forall j :: 0 <= j < 3 ==> IsStandardDeviation(Normalised(root, c, j), d[j])
    ensures d[0] + d[1] + d[2] > 0.000001 ==>
              && Weight(root, c, 0) + Weight(root, c, 1) + Weight(root, c, 2) == 1.0
              && forall j, k :: 0 <= j < 3 && 0 <= k < 3 ==> Weight(root, c, j) * d[k] == Weight(root, c, k) * d[j]
    ensures d[0] + d[1] + d[2] <= 0.000001 ==> forall j :: 0 <= j < 3 ==> Weight(root, c, j) == 1.0 / 3.0
  {
    hide IsStandardDeviation, Deviation, Over, IsRoot;
    forall j | 0 <= j < 3 ensures d[j] == Deviation(root, c, j) {
      DeviationIsStandard(root, c, j);
      OneStandardDeviation(Normalised(root, c, j), d[j], Deviation(root, c, j));
    }
    var total := DeviationSum(root, c, 3);
    TotalIs(root, c);
    if total > NO_SPREAD {
      OverAdds(d[0], d[1], d[2], total);
      forall j, k | 0 <= j < 3 && 0 <= k < 3 ensures Weight(root, c, j) * d[k] == Weight(root, c, k) * d[j] {
        OverRatio(d[j], d[k], total);
      }
    }
  }

  lemma TotalIs(root: real -> real, c: seq<Metrics>)
    requires |c| > 0
    ensures DeviationSum(root, c, 3) == Deviation(root, c, 0) + Deviation(root, c, 1) + Deviation(root, c, 2)
  {
    hide Deviation;
    assert DeviationSum(root, c, 1) == DeviationSum(root, c, 0) + Deviation(root, c, 0);
    assert DeviationSum(root, c, 2) == DeviationSum(root, c, 1) + Deviation(root, c, 1);
  }

  lemma OverAdds(x: real, y: real, z: real, r: real)
    requires r > 0.0 && x + y + z == r
    ensures Over(x, r) + Over(y, r) + Over(z, r) == 1.0
  {
  }

  lemma OverRatio(x: real, y: real, r: real)
    requires r > 0.0
    ensures Over(x, r) * y == Over(y, r) * x
  {
  }

  // ----- the score -----

  /** The weighted, normalised matrix. */
  function Weighted(root: real -> real, c: seq<Metrics>, i: nat, j: nat): real
    requires i < |c|
  {
    Norm(root, c, i, j) * Weight(root, c, j)
  }

  lemma EntryIs(root: real -> real, c: seq<Metrics>, i: nat, j: nat)
    requires i < |c|
    ensures Entry(root, c, i, j) == Weighted(root, c, i, j)
  {
    hide Norm, Weight;
  }

  /** The best or the worst value of a criterion. */
  ghost predicate IsExtreme(root: real -> real, c: seq<Metrics>, j: nat, e: real, high: bool) {
    && (exists i :: 0 <= i < |c| && e == Weighted(root, c, i, j))
    && forall i :: 0 <= i < |c| ==> if high then Weighted(root, c, i, j) <= e else e <= Weighted(root, c, i, j)
  }

  lemma IdealsAreExtremes(root: real -> real, c: seq<Metrics>, j: nat)
    requires IsRoot(root) && |c| > 0 && j < 3
    ensures IsExtreme(root, c, j, Ideal(root, c, j, |c|), j < 2) && IsExtreme(root, c, j, AntiIdeal(root, c, j, |c|), j == 2)
  {
    hide Entry, IsRoot, Ideal, AntiIdeal, Weighted;
    var i, l := IdealsAreAttained(root, c, j, |c|);
    EntryIs(root, c, i, j);
    EntryIs(root, c, l, j);
    forall k | 0 <= k < |c| ensures
      var e := Weighted(root, c, k, j);
      if j < 2 then AntiIdeal(root, c, j, |c|) <= e <= Ideal(root, c, j, |c|)
      else Ideal(root, c, j, |c|) <= e <= AntiIdeal(root, c, j, |c|)
    {
      EntryIs(root, c, k, j);
      IdealsEncloseEntries(root, c, j, |c|, k);
    }
  }

  lemma OneExtreme(root: real -> real, c: seq<Metrics>, j: nat, e: real, f: real, high: bool)
    requires IsExtreme(root, c, j, e, high) && IsExtreme(root, c, j, f, high)
    ensures e == f
  {
    hide Weighted;
  }

  function SquaredDistance(x: seq<real>, y: seq<real>): real
    requires |x| == |y| == 3
  {
    (x[0] - y[0]) * (x[0] - y[0]) + (x[1] - y[1]) * (x[1] - y[1]) + (x[2] - y[2]) * (x[2] - y[2])
  }

  /** A candidate's row. */
  function Row(root: real -> real, c: seq<Metrics>, i: nat): (r: seq<real>)
    requires i < |c|
    ensures |r| == 3
  {
    [Weighted(root, c, i, 0), Weighted(root, c, i, 1), Weighted(root, c, i, 2)]
  }

  /** The score is the share of the distance to the worst in the sum of the distances to the best and to
      the worst, each the Euclidean distance over the three criteria. */
  lemma ScoreIsRelativeCloseness(root: real -> real, c: seq<Metrics>, i: nat, best: seq<real>, worst: seq<real>, p: real, n: real)
    requires IsRoot(root) && i < |c| && |best| == 3 == |worst| && p >= 0.0 && n >= 0.0
    requires forall j :: 0 <= j < 3 ==> IsExtreme(root, c, j, best[j], j < 2) && IsExtreme(root, c, j, worst[j], j == 2)
    requires p * p == SquaredDistance(Row(root, c, i), best) && n * n == SquaredDistance(Row(root, c, i), worst)
    ensures p + n > 0.0 ==> Score(root, c, i) * (p + n) == n
    ensures p + n == 0.0 ==> Score(root, c, i) == 0.0
  {
    hide Entry, Ideal, AntiIdeal, IsExtreme, IsRoot, Over, Weighted;
    forall j | 0 <= j < 3 ensures best[j] == Ideal(root, c, j, |c|) && worst[j] == AntiIdeal(root, c, j, |c|) {
      IdealsAreExtremes(root, c, j);
      OneExtreme(root, c, j, best[j], Ideal(root, c, j, |c|), j < 2);
      OneExtreme(root, c, j, worst[j], AntiIdeal(root, c, j, |c|), j == 2);
    }
    DistancesAre(root, c, i, best, worst);
    RootIs(root, ToIdeal(root, c, i, 3), p);
    RootIs(root, ToAntiIdeal(root, c, i, 3), n);
    if p + n > 0.0 {
      OverTimes(n, p + n);
    }
  }

  lemma DistancesAre(root: real -> real, c: seq<Metrics>, i: nat, best: seq<real>, worst: seq<real>)
    requires i < |c| && |best| == 3 == |worst|
    requires forall j :: 0 <= j < 3 ==> best[j] == Ideal(root, c, j, |c|) && worst[j] == AntiIdeal(root, c, j, |c|)
    ensures ToIdeal(root, c, i, 3) == SquaredDistance(Row(root, c, i), best)
    ensures ToAntiIdeal(root, c, i, 3) == SquaredDistance(Row(root, c, i), worst)
  {
    hide Entry, Ideal, AntiIdeal, Weighted;
    EntryIs(root, c, i, 0);
    EntryIs(root, c, i, 1);
    EntryIs(root, c, i, 2);
    assert ToIdeal(root, c, i, 1) == ToIdeal(root, c, i, 0) + Square(Entry(root, c, i, 0) - best[0]);
    assert ToIdeal(root, c, i, 2) == ToIdeal(root, c, i, 1) + Square(Entry(root, c, i, 1) - best[1]);
    assert ToAntiIdeal(root, c, i, 1) == ToAntiIdeal(root, c, i, 0) + Square(Entry(root, c, i, 0) - worst[0]);
    assert ToAntiIdeal(root, c, i, 2) == ToAntiIdeal(root, c, i, 1) + Square(Entry(root, c, i, 1) - worst[1]);
  }

  lemma RootIs(root: real -> real, x: real, r: real)
    requires IsRoot(root) && r >= 0.0 && r * r == x
    ensures root(x) == r
  {
    SquareSign(r);
    SquareOrder(root(x), r);
  }

  // ----- a choice the weights decide -----

  /** The first candidate is higher in the sky and nearer, the second stronger. */
  const HIGH: Metrics := Metrics(80.0, 450000.0, 0.0)
  const STRONG: Metrics := Metrics(18.0, 2000000.0, 10.0)
  const PAIR: seq<Metrics> := [HIGH, STRONG]

  lemma PairColumn(root: real -> real, j: nat, length: real, x: real, y: real, gx: real, gy: real)
    requires IsRoot(root) && length > 0.0 && gx * gx + gy * gy == length * length
    requires Criterion(HIGH, j) == gx == x * length && Criterion(STRONG, j) == gy == y * length
    ensures Normalised(root, PAIR, j) == [x, y]
  {
    hide Norm, Criterion, IsRoot;
    assert Given(PAIR, j) == [gx, gy];
    var l := ColumnsAreNormalised(root, PAIR, j);
    TwoDeviations(gx, gy, 0.0);
    SameLength(l, length);
    SameFactor(Normalised(root, PAIR, j)[0], x, length);
    SameFactor(Normalised(root, PAIR, j)[1], y, length);
  }

  lemma SameLength(l: real, length: real)
    requires l >= 0.0 && length > 0.0 && l * l == length * length
    ensures l == length
  {
    SquareOrder(l, length);
  }

  lemma TwoDeviations(x: real, y: real, mean: real)
    ensures Deviations([x, y], mean) == (x - mean) * (x - mean) + (y - mean) * (y - mean)
    ensures Sum([x, y]) == x + y
  {
    assert [x, y][..1] == [x] && [x][..0] == [];
    assert Deviations([x], mean) == Deviations([], mean) + (x - mean) * (x - mean);
    assert Sum([x]) == Sum([]) + x;
  }

  lemma PairDeviation(x: real, y: real, d: real)
    requires d >= 0.0 && (x - y == 2.0 * d || y - x == 2.0 * d)
    ensures IsStandardDeviation([x, y], d)
  {
    var mean := (x + y) / 2.0;
    TwoDeviations(x, y, mean);
    assert x - mean == d || x - mean == -d;
    assert y - mean == -(x - mean);
    assert mean * |[x, y]| as real == Sum([x, y]);
  }

  lemma PairWeights(root: real -> real)
    requires IsRoot(root)
    ensures Weight(root, PAIR, 0) == 41.0 / 103.0 && Weight(root, PAIR, 1) == 31.0 / 103.0 == Weight(root, PAIR, 2)
    ensures Row(root, PAIR, 0) == [0.0, 31.0 / 103.0 * (40.0 / 41.0), 31.0 / 103.0 * (9.0 / 41.0)]
    ensures Row(root, PAIR, 1) == [41.0 / 103.0, 31.0 / 103.0 * (9.0 / 41.0), 31.0 / 103.0 * (40.0 / 41.0)]
  {
    hide Norm, Weight, IsStandardDeviation, IsRoot;
    PairColumn(root, 0, 10.0, 0.0, 1.0, 0.0, 10.0);
    PairColumn(root, 1, 82.0, 40.0 / 41.0, 9.0 / 41.0, 80.0, 18.0);
    PairColumn(root, 2, 2050000.0, 9.0 / 41.0, 40.0 / 41.0, 450000.0, 2000000.0);
    PairDeviation(0.0, 1.0, 0.5);
    PairDeviation(40.0 / 41.0, 9.0 / 41.0, 31.0 / 82.0);
    PairDeviation(9.0 / 41.0, 40.0 / 41.0, 31.0 / 82.0);
    var d := [0.5, 31.0 / 82.0, 31.0 / 82.0];
    WeightsFollowDeviations(root, PAIR, d);
    assert Weight(root, PAIR, 1) * d[0] == Weight(root, PAIR, 0) * d[1];
    assert Weight(root, PAIR, 2) * d[0] == Weight(root, PAIR, 0) * d[2];
    assert Norm(root, PAIR, 0, 0) == Normalised(root, PAIR, 0)[0] && Norm(root, PAIR, 1, 0) == Normalised(root, PAIR, 0)[1];
    assert Norm(root, PAIR, 0, 1) == Normalised(root, PAIR, 1)[0] && Norm(root, PAIR, 1, 1) == Normalised(root, PAIR, 1)[1];
    assert Norm(root, PAIR, 0, 2) == Normalised(root, PAIR, 2)[0] && Norm(root, PAIR, 1, 2) == Normalised(root, PAIR, 2)[1];
  }

  lemma PairExtreme(root: real -> real, j: nat, high: bool, e: real, f: real)
    requires (Weighted(root, PAIR, 0, j) == e && Weighted(root, PAIR, 1, j) == f)
          || (Weighted(root, PAIR, 0, j) == f && Weighted(root, PAIR, 1, j) == e)
    requires if high then f <= e else e <= f
    ensures IsExtreme(root, PAIR, j, e, high)
  {
    hide Weighted;
    if Weighted(root, PAIR, 0, j) == e {
    } else {
      assert Weighted(root, PAIR, 1, j) == e;
    }
  }

  /** The weights decide: the SNR, in which these two candidates differ most, counts most, and the stronger
      one is chosen although it is lower and farther away. Were the criteria weighed alike, the other one
      would be nearer to the best. */
  lemma TheStrongerIsChosen(root: real -> real)
    requires IsRoot(root)
    ensures Choice(root, PAIR) == 1 && Score(root, PAIR, 0) < Score(root, PAIR, 1)
  {
    hide Weighted, IsExtreme, IsRoot, Score, Leader, SquaredDistance, Weight;
    PairWeights(root);
    var w, x, y := 31.0 / 103.0, 40.0 / 41.0, 9.0 / 41.0;
    var best, worst := [41.0 / 103.0, w * x, w * y], [0.0, w * y, w * x];
    RowIs(root, 0);
    RowIs(root, 1);
    PairExtreme(root, 0, true, best[0], worst[0]);
    PairExtreme(root, 0, false, worst[0], best[0]);
    PairExtreme(root, 1, true, best[1], worst[1]);
    PairExtreme(root, 1, false, worst[1], best[1]);
    PairExtreme(root, 2, false, best[2], worst[2]);
    PairExtreme(root, 2, true, worst[2], best[2]);
    var p, square := 41.0 / 103.0, 2.0 * (961.0 / 4223.0) * (961.0 / 4223.0);
    RootFacts(root, square, square);
    var n := root(square);
    PairDistances(root, best, worst);
    assert n * n == square by {
      RootSquare(root, square);
    }
    ScoreIsRelativeCloseness(root, PAIR, 0, best, worst, p, n);
    ScoreIsRelativeCloseness(root, PAIR, 1, best, worst, n, p);
    Smaller(n, p);
    LargerShare(Score(root, PAIR, 0), Score(root, PAIR, 1), n, p);
    ChoiceIsParetoOptimal(root, PAIR, 1);
  }

  lemma RootSquare(root: real -> real, x: real)
    requires IsRoot(root) && x >= 0.0
    ensures root(x) * root(x) == x
  {
  }

  lemma RowIs(root: real -> real, i: nat)
    requires i < 2
    ensures Row(root, PAIR, i) == [Weighted(root, PAIR, i, 0), Weighted(root, PAIR, i, 1), Weighted(root, PAIR, i, 2)]
  {
    hide Weighted;
  }

  lemma PairDistances(root: real -> real, best: seq<real>, worst: seq<real>)
    requires best == [41.0 / 103.0, 31.0 / 103.0 * (40.0 / 41.0), 31.0 / 103.0 * (9.0 / 41.0)]
    requires worst == [0.0, 31.0 / 103.0 * (9.0 / 41.0), 31.0 / 103.0 * (40.0 / 41.0)]
    ensures var a, b := [0.0, 31.0 / 103.0 * (40.0 / 41.0), 31.0 / 103.0 * (9.0 / 41.0)],
                        [41.0 / 103.0, 31.0 / 103.0 * (9.0 / 41.0), 31.0 / 103.0 * (40.0 / 41.0)];
            && SquaredDistance(a, best) == SquaredDistance(b, worst) == 41.0 / 103.0 * (41.0 / 103.0)
            && SquaredDistance(a, worst) == SquaredDistance(b, best) == 2.0 * (961.0 / 4223.0) * (961.0 / 4223.0)
  {
  }

  lemma Smaller(n: real, p: real)
    requires n >= 0.0 && p == 41.0 / 103.0 && n * n == 2.0 * (961.0 / 4223.0) * (961.0 / 4223.0)
    ensures n < p
  {
    SquareOrder(n, p);
  }

  lemma LargerShare(a: real, b: real, n: real, p: real)
    requires 0.0 <= n < p && a * (p + n) == n && b * (p + n) == p
    ensures a < b
  {
  }
}
