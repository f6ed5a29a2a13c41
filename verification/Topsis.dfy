/** SD-TOPSIS: the multi-criteria choice of a handover target. Criteria 0 and 1 (SNR, elevation) are
    better when larger, criterion 2 (distance) when smaller. `root` stands for the square root. */
module Topsis {
  import opened ChoTypes
  import opened Reals

  const CRITERIA: nat := 3

  /** Below this total deviation all criteria weigh the same. */
  const NO_SPREAD := 0.000001

  const FAR := 1000000000.0

  ghost predicate IsRoot(root: real -> real) {
    forall x: real :: x >= 0.0 ==> root(x) >= 0.0 && Square(root(x)) == x
  }

  function Ratio(a: real, b: real): real {
    if b == 0.0 then 0.0 else Over(a, b)
  }

  predicate Benefit(j: nat) {
    j < 2
  }

  function Criterion(m: Metrics, j: nat): real {
    if j == 0 then m.snr else if j == 1 then m.elevation else m.distance
  }

  function SumSquares(c: seq<Metrics>, j: nat, n: nat): real
    requires n <= |c|
  {
    if n == 0 then 0.0 else SumSquares(c, j, n - 1) + Square(Criterion(c[n - 1], j))
  }

  /** Step 1: each column divided by its Euclidean length. */
  function Norm(root: real -> real, c: seq<Metrics>, i: nat, j: nat): real
    requires i < |c|
  {
    var s := SumSquares(c, j, |c|);
    if s > 0.0 then Ratio(Criterion(c[i], j), root(s)) else Criterion(c[i], j)
  }

  function NormSum(root: real -> real, c: seq<Metrics>, j: nat, n: nat): real
    requires n <= |c|
  {
    if n == 0 then 0.0 else NormSum(root, c, j, n - 1) + Norm(root, c, n - 1, j)
  }

  function Mean(root: real -> real, c: seq<Metrics>, j: nat): real
    requires |c| > 0
  {
    Over(NormSum(root, c, j, |c|), |c| as real)
  }

  function Spread(root: real -> real, c: seq<Metrics>, j: nat, n: nat): real
    requires 0 < |c| && n <= |c|
  {
    if n == 0 then 0.0
    else Spread(root, c, j, n - 1) + Square(Norm(root, c, n - 1, j) - Mean(root, c, j))
  }

  /** Step 2: the standard deviation of each column is its weight, relative to their sum. */
  function Deviation(root: real -> real, c: seq<Metrics>, j: nat): real
    requires |c| > 0
  {
    root(Over(Spread(root, c, j, |c|), |c| as real))
  }

  function DeviationSum(root: real -> real, c: seq<Metrics>, n: nat): real
    requires |c| > 0
  {
    if n == 0 then 0.0 else DeviationSum(root, c, n - 1) + Deviation(root, c, n - 1)
  }

  function Weight(root: real -> real, c: seq<Metrics>, j: nat): real
    requires |c| > 0
  {
    var total := DeviationSum(root, c, CRITERIA);
    if total > NO_SPREAD then Over(Deviation(root, c, j), total) else 1.0 / 3.0
  }

  /** Step 3: the weighted, normalised matrix. */
  function Entry(root: real -> real, c: seq<Metrics>, i: nat, j: nat): real
    requires i < |c|
  {
    Times(Norm(root, c, i, j), Weight(root, c, j))
  }

  /** Step 4: the positive and the negative ideal. */
  function Ideal(root: real -> real, c: seq<Metrics>, j: nat, n: nat): real
    requires n <= |c|
  {
    if n == 0 then (if Benefit(j) then -FAR else FAR)
    else
      var e := Entry(root, c, n - 1, j);
      if Benefit(j) then Max(Ideal(root, c, j, n - 1), e) else Min(Ideal(root, c, j, n - 1), e)
  }

  function AntiIdeal(root: real -> real, c: seq<Metrics>, j: nat, n: nat): real
    requires n <= |c|
  {
    if n == 0 then (if Benefit(j) then FAR else -FAR)
    else
      var e := Entry(root, c, n - 1, j);
      if Benefit(j) then Min(AntiIdeal(root, c, j, n - 1), e) else Max(AntiIdeal(root, c, j, n - 1), e)
  }

  /** Step 5: squared distances to the ideals over the first `k` criteria, and the score. */
  function ToIdeal(root: real -> real, c: seq<Metrics>, i: nat, k: nat): real
    requires i < |c|
  {
    if k == 0 then 0.0
    else ToIdeal(root, c, i, k - 1) + Square(Entry(root, c, i, k - 1) - Ideal(root, c, k - 1, |c|))
  }

  function ToAntiIdeal(root: real -> real, c: seq<Metrics>, i: nat, k: nat): real
    requires i < |c|
  {
    if k == 0 then 0.0
    else ToAntiIdeal(root, c, i, k - 1) + Square(Entry(root, c, i, k - 1) - AntiIdeal(root, c, k - 1, |c|))
  }

  function Closeness(toIdeal: real, toAntiIdeal: real): real {
    if toIdeal + toAntiIdeal > 0.0 then Over(toAntiIdeal, toIdeal + toAntiIdeal) else 0.0
  }

  function Score(root: real -> real, c: seq<Metrics>, i: nat): real
    requires i < |c|
  {
    Closeness(root(ToIdeal(root, c, i, CRITERIA)), root(ToAntiIdeal(root, c, i, CRITERIA)))
  }

  /** The first candidate with the highest score; the only candidate is taken unseen. */
  function Leader(root: real -> real, c: seq<Metrics>, n: nat): (r: (nat, real))
    requires n <= |c| && |c| > 0
    ensures r.0 < |c|
  {
    if n == 0 then (0, -1.0)
    else
      var (best, highest) := Leader(root, c, n - 1);
      var s := Score(root, c, n - 1);
      if s > highest then (n - 1, s) else (best, highest)
  }

  function Choice(root: real -> real, c: seq<Metrics>): (best: nat)
    requires |c| > 0
    ensures best < |c|
  {
    if |c| == 1 then 0 else Leader(root, c, |c|).0
  }

  /** FindBestTargetWithSD_TOPSIS, matrix by matrix. */
  method FindBestTarget(root: real -> real, c: seq<Metrics>) returns (best: Option<nat>)
    ensures best == if c == [] then None else Some(Choice(root, c))
  {
    if c == [] {
      return None;
    }
    if |c| == 1 {
      return Some(0);
    }
    var n := |c|;
    var norm := new real[n, CRITERIA];
    var sumSquares := new real[CRITERIA](_ => 0.0);
    Load(c, norm, sumSquares);
    Normalise(root, c, norm, sumSquares);
    var weights := FindWeights(root, c, norm);
    ApplyWeights(root, c, norm, weights);
    var pis, nis := FindIdeals(root, c, norm);

    var bestIndex := PickBest(root, c, norm, pis, nis);
    best := Some(bestIndex);
  }

  method PickBest(root: real -> real, c: seq<Metrics>, norm: array2<real>, pis: array<real>, nis: array<real>)
    returns (bestIndex: nat)
    requires |c| > 0 && norm.Length0 == |c| && norm.Length1 == CRITERIA == pis.Length == nis.Length
    requires forall i, j :: 0 <= i < |c| && 0 <= j < CRITERIA ==> norm[i, j] == Entry(root, c, i, j)
    requires forall j :: 0 <= j < CRITERIA ==> pis[j] == Ideal(root, c, j, |c|) && nis[j] == AntiIdeal(root, c, j, |c|)
    ensures bestIndex == Leader(root, c, |c|).0
  {
    bestIndex := 0;
    var highestScore := -1.0;
    for i := 0 to |c|
      invariant (bestIndex, highestScore) == Leader(root, c, i)
    {
      var distPis, distNis := 0.0, 0.0;
      for j := 0 to CRITERIA
        invariant distPis == ToIdeal(root, c, i, j)
        invariant distNis == ToAntiIdeal(root, c, i, j)
      {
        distPis := distPis + Square(norm[i, j] - pis[j]);
        distNis := distNis + Square(norm[i, j] - nis[j]);
      }
      distPis := root(distPis);
      distNis := root(distNis);
      var score := Closeness(distPis, distNis);
      if score > highestScore {
        highestScore := score;
        bestIndex := i;
      }
    }
  }

  method Load(c: seq<Metrics>, matrix: array2<real>, sumSquares: array<real>)
    requires matrix.Length0 == |c| && matrix.Length1 == CRITERIA == sumSquares.Length
    requires forall j :: 0 <= j < CRITERIA ==> sumSquares[j] == 0.0
    modifies matrix, sumSquares
    ensures forall i, j :: 0 <= i < |c| && 0 <= j < CRITERIA ==> matrix[i, j] == Criterion(c[i], j)
    ensures forall j :: 0 <= j < CRITERIA ==> sumSquares[j] == SumSquares(c, j, |c|)
  {
    for i := 0 to |c|
      invariant forall i', j :: 0 <= i' < i && 0 <= j < CRITERIA ==> matrix[i', j] == Criterion(c[i'], j)
      invariant forall j :: 0 <= j < CRITERIA ==> sumSquares[j] == SumSquares(c, j, i)
    {
      matrix[i, 0] := c[i].snr;
      matrix[i, 1] := c[i].elevation;
      matrix[i, 2] := c[i].distance;
      for j := 0 to CRITERIA
        invariant forall i', j' :: 0 <= i' <= i && 0 <= j' < CRITERIA ==> matrix[i', j'] == Criterion(c[i'], j')
        invariant forall j' :: 0 <= j' < CRITERIA ==>
                                 sumSquares[j'] == SumSquares(c, j', if j' < j then i + 1 else i)
      {
        sumSquares[j] := sumSquares[j] + Square(matrix[i, j]);
      }
    }
  }

  method Normalise(root: real -> real, c: seq<Metrics>, matrix: array2<real>, sumSquares: array<real>)
    requires matrix.Length0 == |c| && matrix.Length1 == CRITERIA == sumSquares.Length
    requires forall i, j :: 0 <= i < |c| && 0 <= j < CRITERIA ==> matrix[i, j] == Criterion(c[i], j)
    requires forall j :: 0 <= j < CRITERIA ==> sumSquares[j] == SumSquares(c, j, |c|)
    modifies matrix
    ensures forall i, j :: 0 <= i < |c| && 0 <= j < CRITERIA ==> matrix[i, j] == Norm(root, c, i, j)
  {
    for i := 0 to |c|
      invariant forall i', j :: 0 <= i' < |c| && 0 <= j < CRITERIA ==>
                                  matrix[i', j] == if i' < i then Norm(root, c, i', j) else Criterion(c[i'], j)
    {
      for j := 0 to CRITERIA
        invariant forall i', j' :: 0 <= i' < |c| && 0 <= j' < CRITERIA ==>
                                     matrix[i', j'] == if i' < i || (i' == i && j' < j) then Norm(root, c, i', j') else Criterion(c[i'], j')
      {
        if sumSquares[j] > 0.0 {
          matrix[i, j] := Ratio(matrix[i, j], root(sumSquares[j]));
        }
      }
    }
  }

  method ColumnDeviation(root: real -> real, c: seq<Metrics>, norm: array2<real>, j: nat) returns (stdDev: real)
    requires |c| > 0 && norm.Length0 == |c| && norm.Length1 == CRITERIA && j < CRITERIA
    requires forall i :: 0 <= i < |c| ==> norm[i, j] == Norm(root, c, i, j)
    ensures stdDev == Deviation(root, c, j)
  {
    var mean := 0.0;
    for i := 0 to |c|
      invariant mean == NormSum(root, c, j, i)
    {
      mean := mean + norm[i, j];
    }
    mean := mean / (|c| as real);
    stdDev := 0.0;
    for i := 0 to |c|
      invariant stdDev == Spread(root, c, j, i)
    {
      stdDev := stdDev + Square(norm[i, j] - mean);
    }
    stdDev := root(stdDev / (|c| as real));
  }

  method FindWeights(root: real -> real, c: seq<Metrics>, norm: array2<real>) returns (weights: array<real>)
    requires |c| > 0 && norm.Length0 == |c| && norm.Length1 == CRITERIA
    requires forall i, j :: 0 <= i < |c| && 0 <= j < CRITERIA ==> norm[i, j] == Norm(root, c, i, j)
    ensures fresh(weights) && weights.Length == CRITERIA
    ensures forall j :: 0 <= j < CRITERIA ==> weights[j] == Weight(root, c, j)
  {
    var stdDevs := new real[CRITERIA](_ => 0.0);
    var sumStdDev := 0.0;
    for j := 0 to CRITERIA
      invariant sumStdDev == DeviationSum(root, c, j)
      invariant forall j' :: 0 <= j' < j ==> stdDevs[j'] == Deviation(root, c, j')
    {
      stdDevs[j] := ColumnDeviation(root, c, norm, j);
      sumStdDev := sumStdDev + stdDevs[j];
    }
    weights := new real[CRITERIA](_ => 1.0 / 3.0);
    if sumStdDev > NO_SPREAD {
      for j := 0 to CRITERIA
        invariant forall j' :: 0 <= j' < CRITERIA ==> stdDevs[j'] == Deviation(root, c, j')
        invariant forall j' :: 0 <= j' < j ==> weights[j'] == Weight(root, c, j')
      {
        weights[j] := stdDevs[j] / sumStdDev;
      }
    }
  }

  method ApplyWeights(root: real -> real, c: seq<Metrics>, matrix: array2<real>, weights: array<real>)
    requires matrix.Length0 == |c| && matrix.Length1 == CRITERIA == weights.Length
    requires |c| > 0
    requires forall i, j :: 0 <= i < |c| && 0 <= j < CRITERIA ==> matrix[i, j] == Norm(root, c, i, j)
    requires forall j :: 0 <= j < CRITERIA ==> weights[j] == Weight(root, c, j)
    modifies matrix
    ensures forall i, j :: 0 <= i < |c| && 0 <= j < CRITERIA ==> matrix[i, j] == Entry(root, c, i, j)
  {
    for i := 0 to |c|
      invariant forall i', j :: 0 <= i' < |c| && 0 <= j < CRITERIA ==>
                                  matrix[i', j] == if i' < i then Entry(root, c, i', j) else Norm(root, c, i', j)
    {
      for j := 0 to CRITERIA
        invariant forall i', j' :: 0 <= i' < |c| && 0 <= j' < CRITERIA ==>
                                     matrix[i', j'] == if i' < i || (i' == i && j' < j) then Entry(root, c, i', j') else Norm(root, c, i', j')
      {
        matrix[i, j] := matrix[i, j] * weights[j];
      }
    }
  }

  method FindIdeals(root: real -> real, c: seq<Metrics>, matrix: array2<real>)
    returns (pis: array<real>, nis: array<real>)
    requires |c| > 0 && matrix.Length0 == |c| && matrix.Length1 == CRITERIA
    requires forall i, j :: 0 <= i < |c| && 0 <= j < CRITERIA ==> matrix[i, j] == Entry(root, c, i, j)
    ensures fresh(pis) && fresh(nis) && pis.Length == CRITERIA == nis.Length
    ensures forall j :: 0 <= j < CRITERIA ==> pis[j] == Ideal(root, c, j, |c|) && nis[j] == AntiIdeal(root, c, j, |c|)
  {
    pis := new real[CRITERIA] [-FAR, -FAR, FAR];
    nis := new real[CRITERIA] [FAR, FAR, -FAR];
    for i := 0 to |c|
      invariant forall j :: 0 <= j < CRITERIA ==> pis[j] == Ideal(root, c, j, i) && nis[j] == AntiIdeal(root, c, j, i)
    {
      pis[0], nis[0] := Max(pis[0], matrix[i, 0]), Min(nis[0], matrix[i, 0]);
      pis[1], nis[1] := Max(pis[1], matrix[i, 1]), Min(nis[1], matrix[i, 1]);
      pis[2], nis[2] := Min(pis[2], matrix[i, 2]), Max(nis[2], matrix[i, 2]);
    }
  }
}
