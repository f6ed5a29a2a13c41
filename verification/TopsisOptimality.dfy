/** What SD-TOPSIS guarantees: scores in [0, 1] that respect dominance, a Pareto-optimal choice, and
    a choice that does not depend on the unit of a column. */
module TopsisOptimality {
  import opened ChoTypes
  import opened Topsis
  import opened Reals

  predicate NoWorse(a: Metrics, b: Metrics) {
    a.snr >= b.snr && a.elevation >= b.elevation && a.distance <= b.distance
  }

  /** `a` is at least as good on every criterion and better on one. */
  predicate Dominates(a: Metrics, b: Metrics) {
    NoWorse(a, b) && (a.snr > b.snr || a.elevation > b.elevation || a.distance < b.distance)
  }

  lemma RootFacts(root: real -> real, x: real, y: real)
    requires IsRoot(root) && 0.0 <= x && 0.0 <= y
    ensures root(x) >= 0.0 && (x > 0.0 <==> root(x) > 0.0)
    ensures x <= y <==> root(x) <= root(y)
    ensures x < y <==> root(x) < root(y)
  {
    hide Square;
    SquareOrder(root(x), root(y));
    SquareOrder(0.0, root(x));
    SquareSign(0.0);
  }

  // ----- the normalised matrix -----

  lemma {:induction false} SumSquaresDominatesTerm(c: seq<Metrics>, j: nat, n: nat, i: nat)
    requires i < n <= |c|
    ensures 0.0 <= SumSquares(c, j, n - 1)
    ensures 0.0 <= Square(Criterion(c[i], j)) <= SumSquares(c, j, n)
  {
    hide Square, Criterion;
    SquareSign(Criterion(c[n - 1], j));
    if n > 1 {
      SumSquaresDominatesTerm(c, j, n - 1, if i < n - 1 then i else 0);
    }
  }

  /** Normalised values lie in [-1, 1], so the sentinels of the ideals are never the ideals. */
  lemma NormIsBounded(root: real -> real, c: seq<Metrics>, i: nat, j: nat)
    requires IsRoot(root) && i < |c|
    ensures -1.0 <= Norm(root, c, i, j) <= 1.0
  {
    hide Square, Over, SumSquares, Criterion;
    var s, x := SumSquares(c, j, |c|), Criterion(c[i], j);
    SumSquaresDominatesTerm(c, j, |c|, i);
    SquareSign(x);
    if s > 0.0 {
      RootFacts(root, s, s);
      SquareOrder(Abs(x), root(s));
      OverIsFraction(x, root(s));
    }
  }

  lemma NormIsMonotone(root: real -> real, c: seq<Metrics>, a: nat, b: nat, j: nat)
    requires IsRoot(root) && a < |c| && b < |c|
    requires Criterion(c[a], j) <= Criterion(c[b], j)
    ensures Norm(root, c, a, j) <= Norm(root, c, b, j)
    ensures Criterion(c[a], j) < Criterion(c[b], j) ==> Norm(root, c, a, j) < Norm(root, c, b, j)
  {
    hide Over, SumSquares, Criterion;
    var s := SumSquares(c, j, |c|);
    if s > 0.0 {
      RootFacts(root, s, s);
      OverOrder(Criterion(c[a], j), Criterion(c[b], j), root(s));
    }
  }

  // ----- the weights -----

  lemma {:induction false} SpreadIsNonNegative(root: real -> real, c: seq<Metrics>, j: nat, n: nat)
    requires 0 < |c| && n <= |c|
    ensures Spread(root, c, j, n) >= 0.0
  {
    hide Square, Norm, Mean;
    if n > 0 {
      SpreadIsNonNegative(root, c, j, n - 1);
      SquareSign(Norm(root, c, n - 1, j) - Mean(root, c, j));
    }
  }

  lemma {:induction false} SpreadSeesDifference(root: real -> real, c: seq<Metrics>, j: nat, n: nat, i: nat)
    requires i < n <= |c|
    ensures Spread(root, c, j, n) >= Square(Norm(root, c, i, j) - Mean(root, c, j))
  {
    hide Square, Norm, Mean;
    SpreadIsNonNegative(root, c, j, n - 1);
    if i < n - 1 {
      SpreadSeesDifference(root, c, j, n - 1, i);
      SquareSign(Norm(root, c, n - 1, j) - Mean(root, c, j));
    }
  }

  lemma DifferingNormsSpread(root: real -> real, c: seq<Metrics>, a: nat, b: nat, j: nat)
    requires a < |c| && b < |c| && Norm(root, c, a, j) != Norm(root, c, b, j)
    ensures Spread(root, c, j, |c|) > 0.0
  {
    hide Square, Norm, Mean, Spread;
    var i := if Norm(root, c, a, j) != Mean(root, c, j) then a else b;
    SpreadSeesDifference(root, c, j, |c|, i);
    SquareSign(Norm(root, c, i, j) - Mean(root, c, j));
  }

  lemma DeviationFacts(root: real -> real, c: seq<Metrics>, j: nat)
    requires IsRoot(root) && |c| > 0
    ensures Deviation(root, c, j) >= 0.0
    ensures Deviation(root, c, j) > 0.0 <==> Spread(root, c, j, |c|) > 0.0
  {
    hide Spread, Over, IsRoot;
    SpreadIsNonNegative(root, c, j, |c|);
    var s, n := Spread(root, c, j, |c|), |c| as real;
    OverSign(s, n);
    RootFacts(root, Over(s, n), Over(s, n));
  }

  lemma {:induction false} DeviationSumFacts(root: real -> real, c: seq<Metrics>, n: nat, j: nat)
    requires IsRoot(root) && |c| > 0 && j < n
    ensures DeviationSum(root, c, n - 1) >= 0.0
    ensures DeviationSum(root, c, n) >= Deviation(root, c, j) >= 0.0
  {
    hide Deviation, IsRoot;
    DeviationFacts(root, c, n - 1);
    if n > 1 {
      DeviationSumFacts(root, c, n - 1, if j < n - 1 then j else 0);
    }
  }

  lemma WeightIsBounded(root: real -> real, c: seq<Metrics>, j: nat)
    requires IsRoot(root) && |c| > 0 && j < CRITERIA
    ensures 0.0 <= Weight(root, c, j) <= 1.0
  {
    hide Deviation, DeviationSum, Over, IsRoot;
    DeviationSumFacts(root, c, CRITERIA, j);
    var d, total := Deviation(root, c, j), DeviationSum(root, c, CRITERIA);
    if total > NO_SPREAD {
      OverIsFraction(d, total);
      OverSign(d, total);
    }
  }

  /** A column in which two candidates differ has a positive weight, whichever way weights are found. */
  lemma DifferingColumnHasWeight(root: real -> real, c: seq<Metrics>, a: nat, b: nat, j: nat)
    requires IsRoot(root) && a < |c| && b < |c| && j < CRITERIA
    requires Criterion(c[a], j) < Criterion(c[b], j)
    ensures Norm(root, c, a, j) < Norm(root, c, b, j)
    ensures Weight(root, c, j) > 0.0
  {
    hide Norm, Deviation, DeviationSum, Over, Spread, IsRoot, Criterion;
    NormIsMonotone(root, c, a, b, j);
    DifferingNormsSpread(root, c, a, b, j);
    DeviationFacts(root, c, j);
    DeviationSumFacts(root, c, CRITERIA, j);
    if DeviationSum(root, c, CRITERIA) > NO_SPREAD {
      OverSign(Deviation(root, c, j), DeviationSum(root, c, CRITERIA));
    }
  }

  // ----- the weighted matrix and its ideals -----

  lemma EntryIsMonotone(root: real -> real, c: seq<Metrics>, a: nat, b: nat, j: nat)
    requires IsRoot(root) && a < |c| && b < |c| && j < CRITERIA
    requires Criterion(c[a], j) <= Criterion(c[b], j)
    ensures Entry(root, c, a, j) <= Entry(root, c, b, j)
    ensures Criterion(c[a], j) < Criterion(c[b], j) ==> Entry(root, c, a, j) < Entry(root, c, b, j)
  {
    hide Norm, Weight, Criterion, IsRoot, Times;
    NormIsMonotone(root, c, a, b, j);
    WeightIsBounded(root, c, j);
    if Criterion(c[a], j) < Criterion(c[b], j) {
      DifferingColumnHasWeight(root, c, a, b, j);
    }
    TimesOrder(Norm(root, c, a, j), Norm(root, c, b, j), Weight(root, c, j));
  }

  lemma EntryIsBounded(root: real -> real, c: seq<Metrics>, i: nat, j: nat)
    requires IsRoot(root) && i < |c| && j < CRITERIA
    ensures -1.0 <= Entry(root, c, i, j) <= 1.0
  {
    hide Norm, Weight, IsRoot, Times;
    NormIsBounded(root, c, i, j);
    WeightIsBounded(root, c, j);
    var x, w := Norm(root, c, i, j), Weight(root, c, j);
    TimesOrder(x, 1.0, w);
    TimesOrder(-1.0, x, w);
    TimesLinear(x, x, w);
  }

  lemma {:induction false} IdealsEncloseEntries(root: real -> real, c: seq<Metrics>, j: nat, n: nat, i: nat)
    requires i < n <= |c|
    ensures var e := Entry(root, c, i, j);
            if Benefit(j) then AntiIdeal(root, c, j, n) <= e <= Ideal(root, c, j, n)
            else Ideal(root, c, j, n) <= e <= AntiIdeal(root, c, j, n)
  {
    hide Entry;
    if i < n - 1 {
      IdealsEncloseEntries(root, c, j, n - 1, i);
    }
  }

  /** The ideals are entries of the matrix, not the initial sentinels. */
  lemma {:induction false} IdealsAreAttained(root: real -> real, c: seq<Metrics>, j: nat, n: nat)
    returns (i: nat, l: nat)
    requires IsRoot(root) && 0 < n <= |c| && j < CRITERIA
    ensures i < n && Ideal(root, c, j, n) == Entry(root, c, i, j)
    ensures l < n && AntiIdeal(root, c, j, n) == Entry(root, c, l, j)
  {
    hide Entry, IsRoot;
    EntryIsBounded(root, c, n - 1, j);
    i, l := n - 1, n - 1;
    if n > 1 {
      var i', l' := IdealsAreAttained(root, c, j, n - 1);
      i := if Ideal(root, c, j, n) == Entry(root, c, n - 1, j) then n - 1 else i';
      l := if AntiIdeal(root, c, j, n) == Entry(root, c, n - 1, j) then n - 1 else l';
    }
  }

  // ----- dominance -----

  /** Of two distances on the same side, the larger has the larger square. */
  lemma SquareOfDistance(x: real, y: real)
    requires 0.0 <= x <= y
    ensures 0.0 <= Square(x) <= Square(y)
    ensures Square(-x) == Square(x) && Square(-y) == Square(y)
    ensures x < y ==> Square(x) < Square(y)
  {
    hide Square;
    SquareOrder(x, y);
    SquareSign(x);
    SquareSign(y);
  }

  /** One criterion's share of the squared distances, for a candidate no worse than another. */
  lemma ColumnRespectsDominance(root: real -> real, c: seq<Metrics>, a: nat, b: nat, j: nat)
    requires IsRoot(root) && a < |c| && b < |c| && j < CRITERIA
    requires NoWorse(c[a], c[b])
    ensures var i, l := Ideal(root, c, j, |c|), AntiIdeal(root, c, j, |c|);
            var x, y := Entry(root, c, a, j), Entry(root, c, b, j);
            && 0.0 <= Square(x - i) <= Square(y - i)
            && Square(x - l) >= Square(y - l) >= 0.0
            && (Criterion(c[a], j) != Criterion(c[b], j) ==>
                  Square(x - i) < Square(y - i) && Square(x - l) > Square(y - l))
  {
    hide Entry, Ideal, AntiIdeal, Square, IsRoot;
    IdealsEncloseEntries(root, c, j, |c|, a);
    IdealsEncloseEntries(root, c, j, |c|, b);
    var i, l := Ideal(root, c, j, |c|), AntiIdeal(root, c, j, |c|);
    var x, y := Entry(root, c, a, j), Entry(root, c, b, j);
    if Benefit(j) {
      EntryIsMonotone(root, c, b, a, j);
      SquareOfDistance(i - x, i - y);
      SquareOfDistance(y - l, x - l);
      assert x - i == -(i - x) && y - i == -(i - y);
    } else {
      EntryIsMonotone(root, c, a, b, j);
      SquareOfDistance(x - i, y - i);
      SquareOfDistance(l - y, l - x);
      assert x - l == -(l - x) && y - l == -(l - y);
    }
  }

  lemma {:induction false} DistancesRespectDominance(root: real -> real, c: seq<Metrics>, a: nat, b: nat, k: nat)
    requires IsRoot(root) && a < |c| && b < |c| && k <= CRITERIA
    requires NoWorse(c[a], c[b])
    ensures 0.0 <= ToIdeal(root, c, a, k) <= ToIdeal(root, c, b, k)
    ensures ToAntiIdeal(root, c, a, k) >= ToAntiIdeal(root, c, b, k) >= 0.0
    ensures forall j :: 0 <= j < k && Criterion(c[a], j) != Criterion(c[b], j) ==>
                          ToIdeal(root, c, a, k) < ToIdeal(root, c, b, k) && ToAntiIdeal(root, c, a, k) > ToAntiIdeal(root, c, b, k)
  {
    hide Entry, Ideal, AntiIdeal, Square, IsRoot, Criterion, NoWorse;
    if k > 0 {
      DistancesRespectDominance(root, c, a, b, k - 1);
      ColumnRespectsDominance(root, c, a, b, k - 1);
    }
  }

  lemma CrossProducts(p: real, n: real, p': real, n': real)
    requires 0.0 <= p <= p' && n >= n' >= 0.0
    ensures Times(n', p + n) <= Times(n, p' + n')
    ensures p < p' && n > n' ==> Times(n', p + n) < Times(n, p' + n')
  {
    hide Times;
    TimesLinear(p, n, n');
    TimesLinear(p', n', n);
    TimesLinear(n', n, p);
    TimesOrder(n', n, p);
    TimesOrder(p, p', n);
    TimesLinear(n', n', p + n);
    TimesLinear(n, n, p' + n');
    TimesLinear(n, n, n');
    TimesLinear(n, n, p);
  }

  /** Fractions compare as their cross products do. */
  lemma FractionOrder(x: real, r: real, y: real, s: real)
    requires r > 0.0 && s > 0.0 && Times(x, s) <= Times(y, r)
    ensures Over(x, r) <= Over(y, s)
    ensures Times(x, s) < Times(y, r) ==> Over(x, r) < Over(y, s)
  {
    hide Over, Times;
    OverTimes(x, r);
    OverTimes(y, s);
    TimesSign(r, s);
    TimesLinear(r, r, s);
    TimesAssociates(Over(x, r), r, s);
    TimesAssociates(Over(y, s), s, r);
    if Over(y, s) < Over(x, r) {
      TimesOrder(Over(y, s), Over(x, r), Times(r, s));
    }
  }

  lemma ClosenessIsMonotone(p: real, n: real, p': real, n': real)
    requires 0.0 <= p <= p' && n >= n' >= 0.0
    ensures 0.0 <= Closeness(p, n) <= 1.0
    ensures Closeness(p, n) >= Closeness(p', n')
    ensures p < p' && n > n' ==> Closeness(p, n) > Closeness(p', n')
  {
    hide Over, Times;
    var s, s' := p + n, p' + n';
    if s > 0.0 {
      OverIsFraction(n, s);
      OverSign(n, s);
    }
    if s' > 0.0 {
      OverSign(n', s');
    }
    if s > 0.0 && s' > 0.0 {
      CrossProducts(p, n, p', n');
      FractionOrder(n', s', n, s);
    }
  }

  /** Scores lie in [0, 1], never rank a candidate below one it is no worse than, and rank it
      strictly above one it dominates. */
  lemma ScoreRespectsDominance(root: real -> real, c: seq<Metrics>, a: nat, b: nat)
    requires IsRoot(root) && a < |c| && b < |c|
    ensures 0.0 <= Score(root, c, a) <= 1.0
    ensures NoWorse(c[a], c[b]) ==> Score(root, c, a) >= Score(root, c, b)
    ensures Dominates(c[a], c[b]) ==> Score(root, c, a) > Score(root, c, b)
  {
    hide ToIdeal, ToAntiIdeal, IsRoot, Closeness;
    DistancesRespectDominance(root, c, a, a, CRITERIA);
    var pa, na := ToIdeal(root, c, a, CRITERIA), ToAntiIdeal(root, c, a, CRITERIA);
    RootFacts(root, pa, na);
    RootFacts(root, na, pa);
    ClosenessIsMonotone(root(pa), root(na), root(pa), root(na));
    if NoWorse(c[a], c[b]) {
      DistancesRespectDominance(root, c, a, b, CRITERIA);
      var pb, nb := ToIdeal(root, c, b, CRITERIA), ToAntiIdeal(root, c, b, CRITERIA);
      RootFacts(root, pa, pb);
      RootFacts(root, nb, na);
      ClosenessIsMonotone(root(pa), root(na), root(pb), root(nb));
      if Dominates(c[a], c[b]) {
        assert Criterion(c[a], 0) != Criterion(c[b], 0) || Criterion(c[a], 1) != Criterion(c[b], 1)
            || Criterion(c[a], 2) != Criterion(c[b], 2);
      }
    }
  }

  lemma {:induction false} LeaderHasHighestScore(root: real -> real, c: seq<Metrics>, n: nat)
    requires IsRoot(root) && 0 < n <= |c|
    ensures Leader(root, c, n).0 < n
    ensures Leader(root, c, n).1 == Score(root, c, Leader(root, c, n).0)
    ensures forall i :: 0 <= i < n ==> Score(root, c, i) <= Leader(root, c, n).1
    ensures forall i :: 0 <= i < Leader(root, c, n).0 ==> Score(root, c, i) < Leader(root, c, n).1
  {
    hide Score, IsRoot;
    ScoreRespectsDominance(root, c, n - 1, n - 1);
    if n > 1 {
      LeaderHasHighestScore(root, c, n - 1);
    }
  }

  /** SD-TOPSIS never picks a candidate that another one dominates, and among equal scores picks the
      first. */
  lemma ChoiceIsParetoOptimal(root: real -> real, c: seq<Metrics>, rival: nat)
    requires IsRoot(root) && rival < |c|
    ensures !Dominates(c[rival], c[Choice(root, c)])
    ensures Score(root, c, rival) <= Score(root, c, Choice(root, c))
    ensures rival < Choice(root, c) ==> Score(root, c, rival) < Score(root, c, Choice(root, c))
  {
    hide Score, IsRoot, Leader;
    LeaderHasHighestScore(root, c, |c|);
    ScoreRespectsDominance(root, c, rival, Choice(root, c));
  }

  // ----- the unit of a column does not matter -----

  function Rescale(m: Metrics, j: nat, k: real): Metrics {
    if j == 0 then m.(snr := Times(k, m.snr))
    else if j == 1 then m.(elevation := Times(k, m.elevation))
    else m.(distance := Times(k, m.distance))
  }

  function RescaleAll(c: seq<Metrics>, j: nat, k: real): (r: seq<Metrics>)
    ensures |r| == |c| && forall i :: 0 <= i < |c| ==> r[i] == Rescale(c[i], j, k)
  {
    seq(|c|, i requires 0 <= i < |c| => Rescale(c[i], j, k))
  }

  lemma {:induction false} SumSquaresScales(c: seq<Metrics>, d: seq<Metrics>, j: nat, k: real, n: nat)
    requires |d| == |c| && n <= |c|
    requires forall i :: 0 <= i < |c| ==> Criterion(d[i], j) == Times(k, Criterion(c[i], j))
    ensures SumSquares(d, j, n) == Times(Square(k), SumSquares(c, j, n))
  {
    hide Square, Times, Criterion;
    if n > 0 {
      SumSquaresScales(c, d, j, k, n - 1);
      var x := Criterion(c[n - 1], j);
      SquareOfProduct(k, x);
      TimesLinear(SumSquares(c, j, n - 1), Square(x), Square(k));
      TimesLinear(SumSquares(c, j, n), SumSquares(c, j, n), Square(k));
    } else {
      TimesSign(Square(k), 0.0);
    }
  }

  lemma SquareOfProduct(k: real, x: real)
    ensures Square(Times(k, x)) == Times(Square(k), Square(x))
  {
    hide Times;
    TimesAssociates(k, x, Times(k, x));
    TimesAssociates(x, k, x);
    TimesLinear(x, k, k);
    TimesLinear(x, k, x);
    TimesAssociates(k, x, x);
    TimesAssociates(k, k, Square(x));
  }

  lemma RootScales(root: real -> real, k: real, s: real, t: real)
    requires IsRoot(root) && k > 0.0 && s >= 0.0 && t == Times(Square(k), s)
    ensures t >= 0.0 && root(t) == Times(k, root(s))
    ensures s > 0.0 ==> t > 0.0
  {
    hide Times, Square;
    SquareSign(k);
    TimesSign(Square(k), s);
    TimesSign(k, root(s));
    SquareOfProduct(k, root(s));
    SquareOrder(root(t), Times(k, root(s)));
  }

  lemma NormIgnoresUnit(root: real -> real, c: seq<Metrics>, d: seq<Metrics>, i: nat, j: nat, k: real)
    requires IsRoot(root) && k > 0.0 && |d| == |c| && i < |c|
    requires forall i :: 0 <= i < |c| ==> Criterion(d[i], j) == Times(k, Criterion(c[i], j))
    ensures Norm(root, d, i, j) == Norm(root, c, i, j)
  {
    hide Times, Square, Over, SumSquares, Criterion;
    SumSquaresScales(c, d, j, k, |c|);
    SumSquaresDominatesTerm(c, j, |c|, i);
    var s, t, x := SumSquares(c, j, |c|), SumSquares(d, j, |d|), Criterion(c[i], j);
    RootScales(root, k, s, t);
    SquareSign(x);
    if s > 0.0 {
      RootFacts(root, s, s);
      OverScales(k, x, root(s));
    } else {
      TimesSign(Square(k), s);
      TimesSign(k, x);
    }
  }

  ghost predicate SameNorms(root: real -> real, c: seq<Metrics>, d: seq<Metrics>) {
    |d| == |c| && forall i, j: nat :: 0 <= i < |c| && j < CRITERIA ==> Norm(root, d, i, j) == Norm(root, c, i, j)
  }

  lemma {:induction false} SameNormsSameColumn(root: real -> real, c: seq<Metrics>, d: seq<Metrics>, j: nat, n: nat)
    requires SameNorms(root, c, d) && j < CRITERIA && 0 < |c| && n <= |c|
    ensures NormSum(root, d, j, n) == NormSum(root, c, j, n)
  {
    hide Norm;
    if n > 0 {
      SameNormsSameColumn(root, c, d, j, n - 1);
    }
  }

  lemma {:induction false} SameNormsSameSpread(root: real -> real, c: seq<Metrics>, d: seq<Metrics>, j: nat, n: nat)
    requires SameNorms(root, c, d) && j < CRITERIA && 0 < |c| && n <= |c|
    ensures Spread(root, d, j, n) == Spread(root, c, j, n)
  {
    hide Norm, NormSum, Square;
    SameNormsSameColumn(root, c, d, j, |c|);
    if n > 0 {
      SameNormsSameSpread(root, c, d, j, n - 1);
    }
  }

  lemma {:induction false} SameNormsSameDeviations(root: real -> real, c: seq<Metrics>, d: seq<Metrics>, n: nat)
    requires SameNorms(root, c, d) && 0 < |c| && n <= CRITERIA
    ensures DeviationSum(root, d, n) == DeviationSum(root, c, n)
    ensures forall j :: 0 <= j < n ==> Deviation(root, d, j) == Deviation(root, c, j)
  {
    hide Norm, Spread;
    if n > 0 {
      SameNormsSameDeviations(root, c, d, n - 1);
      SameNormsSameSpread(root, c, d, n - 1, |c|);
    }
  }

  lemma SameNormsSameEntry(root: real -> real, c: seq<Metrics>, d: seq<Metrics>, i: nat, j: nat)
    requires SameNorms(root, c, d) && j < CRITERIA && i < |c|
    ensures Entry(root, d, i, j) == Entry(root, c, i, j)
  {
    SameNormsSameDeviations(root, c, d, CRITERIA);
  }

  lemma {:induction false} SameNormsSameIdeals(root: real -> real, c: seq<Metrics>, d: seq<Metrics>, j: nat, n: nat)
    requires SameNorms(root, c, d) && j < CRITERIA && n <= |c|
    ensures Ideal(root, d, j, n) == Ideal(root, c, j, n)
    ensures AntiIdeal(root, d, j, n) == AntiIdeal(root, c, j, n)
  {
    hide Entry, SameNorms;
    if n > 0 {
      SameNormsSameIdeals(root, c, d, j, n - 1);
      SameNormsSameEntry(root, c, d, n - 1, j);
    }
  }

  lemma {:induction false} SameNormsSameDistances(root: real -> real, c: seq<Metrics>, d: seq<Metrics>, i: nat, k: nat)
    requires SameNorms(root, c, d) && i < |c| && k <= CRITERIA
    ensures ToIdeal(root, d, i, k) == ToIdeal(root, c, i, k)
    ensures ToAntiIdeal(root, d, i, k) == ToAntiIdeal(root, c, i, k)
  {
    hide Entry, Ideal, AntiIdeal, Square;
    if k > 0 {
      SameNormsSameDistances(root, c, d, i, k - 1);
      SameNormsSameIdeals(root, c, d, k - 1, |c|);
      SameNormsSameEntry(root, c, d, i, k - 1);
    }
  }

  lemma SameNormsSameScore(root: real -> real, c: seq<Metrics>, d: seq<Metrics>, i: nat)
    requires SameNorms(root, c, d) && i < |c|
    ensures Score(root, d, i) == Score(root, c, i)
  {
    hide ToIdeal, ToAntiIdeal, Closeness;
    SameNormsSameDistances(root, c, d, i, CRITERIA);
  }

  lemma {:induction false} SameNormsSameLeader(root: real -> real, c: seq<Metrics>, d: seq<Metrics>, n: nat)
    requires SameNorms(root, c, d) && 0 < |c| && n <= |c|
    ensures Leader(root, d, n) == Leader(root, c, n)
  {
    hide Score, SameNorms;
    if n > 0 {
      SameNormsSameLeader(root, c, d, n - 1);
      SameNormsSameScore(root, c, d, n - 1);
    }
  }

  lemma UnitOfColumn(c: seq<Metrics>, unitOf: nat, k: real, j: nat)
    requires unitOf < CRITERIA && j < CRITERIA
    ensures forall i :: 0 <= i < |c| ==>
                          Criterion(RescaleAll(c, unitOf, k)[i], j) == Times(if j == unitOf then k else 1.0, Criterion(c[i], j))
  {
  }

  /** Measuring a column in another unit (metres or kilometres, say) changes neither a score nor the
      choice. */
  lemma ChoiceIgnoresUnits(root: real -> real, c: seq<Metrics>, unitOf: nat, k: real)
    requires IsRoot(root) && k > 0.0 && |c| > 0 && unitOf < CRITERIA
    ensures Choice(root, RescaleAll(c, unitOf, k)) == Choice(root, c)
    ensures forall i :: 0 <= i < |c| ==> Score(root, RescaleAll(c, unitOf, k), i) == Score(root, c, i)
  {
    var d := RescaleAll(c, unitOf, k);
    hide Times, Criterion, Norm, Score, Leader, IsRoot;
    forall i, j: nat | 0 <= i < |c| && j < CRITERIA
      ensures Norm(root, d, i, j) == Norm(root, c, i, j)
    {
      UnitOfColumn(c, unitOf, k, j);
      NormIgnoresUnit(root, c, d, i, j, if j == unitOf then k else 1.0);
    }
    SameNormsSameLeader(root, c, d, |c|);
    forall i | 0 <= i < |c|
      ensures Score(root, d, i) == Score(root, c, i)
    {
      SameNormsSameScore(root, c, d, i);
    }
  }
}
