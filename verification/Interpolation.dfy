/** The elevation tables of section 6.6 of TR 38.811: two ways to interpolate in them that are one
    function, and what that function keeps of its table. */
module Interpolation {
  import opened Reals

  /** Values at 10, 20, ..., 90 degrees. */
  type Column = s: seq<real> | |s| == 9 witness seq(9, _ => 0.0)

  const URBAN_LOS: Column := [0.246, 0.386, 0.493, 0.613, 0.726, 0.805, 0.919, 0.968, 0.992]
  const RURAL_LOS: Column := [0.782, 0.869, 0.919, 0.929, 0.935, 0.940, 0.949, 0.952, 0.998]

  function Angle(k: int): real {
    10.0 * (k + 1) as real
  }

  /** The same column as a map from whole degrees. */
  function Table(c: Column): (t: map<int, real>)
    ensures t.Keys == {10, 20, 30, 40, 50, 60, 70, 80, 90}
    ensures forall k :: 0 <= k < 9 ==> t[10 * (k + 1)] == c[k]
  {
    map[10 := c[0], 20 := c[1], 30 := c[2], 40 := c[3], 50 := c[4], 60 := c[5], 70 := c[6], 80 := c[7], 90 := c[8]]
  }

  function Clamp(x: int): int {
    if x < 10 then 10 else if x > 90 then 90 else x
  }

  function Ceil(x: real): int {
    -(-x).Floor
  }

  /** Get3GPPParameter: the table at the multiples of ten around the elevation. */
  function Get3GPPParameter(table: map<int, real>, elevation: real): real
    requires table.Keys == {10, 20, 30, 40, 50, 60, 70, 80, 90}
  {
    var low, high := Clamp((elevation / 10.0).Floor * 10), Clamp(Ceil(elevation / 10.0) * 10);
    KeyExists((elevation / 10.0).Floor);
    KeyExists(Ceil(elevation / 10.0));
    if low == high || elevation <= 10.0 then table[low]
    else
      var alpha := (elevation - low as real) / (high - low) as real;
      table[low] + alpha * (table[high] - table[low])
  }

  lemma KeyExists(k: int)
    ensures Clamp(k * 10) in {10, 20, 30, 40, 50, 60, 70, 80, 90}
  {
  }

  // ----- the function both compute -----

  /** On the segment after `Angle(k)`. */
  function OnSegment(c: Column, k: nat, e: real): real
    requires k < 8
  {
    c[k] + Times((e - Angle(k)) / 10.0, c[k + 1] - c[k])
  }

  /** The segment an elevation between 10 and 90 degrees falls into. */
  function SegmentOf(e: real): (k: nat)
    requires 10.0 <= e < 90.0
    ensures k < 8 && Angle(k) <= e < Angle(k + 1)
  {
    (e / 10.0).Floor - 1
  }

  function Interpolated(c: Column, e: real): real {
    if e <= 10.0 then c[0] else if e >= 90.0 then c[8] else OnSegment(c, SegmentOf(e), e)
  }

  /** The scan over the angles that finds P(LOS). */
  method ScanColumn(c: Column, elevation: real) returns (value: real)
    ensures value == Interpolated(c, elevation)
  {
    var e := if elevation > 90.0 then 90.0 else elevation;
    if e < 10.0 {
      e := 10.0;
    }
    var idx := 0;
    while idx < 8 && Angle(idx + 1) <= e
      invariant 0 <= idx <= 8 && Angle(idx) <= e
    {
      idx := idx + 1;
    }
    if idx == 8 {
      value := c[8];
    } else {
      var alpha := (e - Angle(idx)) / (Angle(idx + 1) - Angle(idx));
      value := c[idx] + Times(alpha, c[idx + 1] - c[idx]);
      SameSegment(e, idx);
      if elevation <= 10.0 {
        TimesSign(alpha, c[1] - c[0]);
      }
    }
  }

  lemma SameSegment(e: real, k: nat)
    requires k < 8 && Angle(k) <= e < Angle(k + 1)
    ensures SegmentOf(e) == k
  {
  }

  /** The floor-and-ceiling lookup and the scan are one function, for every elevation and column. */
  lemma LookupIsInterpolation(c: Column, elevation: real)
    ensures Get3GPPParameter(Table(c), elevation) == Interpolated(c, elevation)
  {
    var x := elevation / 10.0;
    if 10.0 < elevation < 90.0 {
      var k := SegmentOf(elevation);
      assert x.Floor == k + 1;
      if x == x.Floor as real {
        assert Ceil(x) == k + 1;
        TimesSign((elevation - Angle(k)) / 10.0, c[k + 1] - c[k]);
      } else {
        CeilAfterFloor(x);
        assert (elevation - Angle(k)) / 10.0 * (c[k + 1] - c[k]) == Times((elevation - Angle(k)) / 10.0, c[k + 1] - c[k]);
      }
    } else if elevation >= 90.0 {
      assert x.Floor >= 9 && Ceil(x) >= 9;
    } else {
      assert x.Floor <= 1;
    }
  }

  lemma CeilAfterFloor(x: real)
    requires x != x.Floor as real
    ensures Ceil(x) == x.Floor + 1
  {
  }

  // ----- what the function keeps of its column -----

  /** Between its neighbours in the column. */
  lemma StaysBetweenNeighbours(c: Column, e: real)
    requires 10.0 <= e < 90.0
    ensures var k := SegmentOf(e);
            Min(c[k], c[k + 1]) <= Interpolated(c, e) <= Max(c[k], c[k + 1])
  {
    var k := SegmentOf(e);
    var part := (e - Angle(k)) / 10.0;
    FractionOf(part, c[k + 1] - c[k]);
    if e == 10.0 {
      TimesSign(part, c[k + 1] - c[k]);
    }
  }

  /** A fraction of a difference lies between nothing and all of it. */
  lemma FractionOf(part: real, d: real)
    requires 0.0 <= part <= 1.0
    ensures Min(0.0, d) <= Times(part, d) <= Max(0.0, d)
  {
    hide Times;
    TimesLinear(1.0, part, d);
    TimesSign(part, if d < 0.0 then -d else d);
    TimesSign(1.0 - part, if d < 0.0 then -d else d);
    TimesLinear(-d, -d, part);
    TimesLinear(d, d, part);
    TimesLinear(-d, -d, 1.0 - part);
    TimesLinear(d, d, 1.0 - part);
  }

  ghost predicate Rising(c: Column) {
    forall k :: 0 <= k < 8 ==> c[k] <= c[k + 1]
  }

  /** No two neighbours differ by more than `step`. */
  ghost predicate Gentle(c: Column, step: real) {
    forall k :: 0 <= k < 8 ==> Abs(c[k + 1] - c[k]) <= step
  }

  lemma {:induction false} RisingFrom(c: Column, j: nat, k: nat)
    requires Rising(c) && j <= k < 9
    ensures c[j] <= c[k]
    decreases k - j
  {
    if j < k {
      RisingFrom(c, j, k - 1);
    }
  }

  /** A rising column gives a rising function. */
  lemma RisesWithElevation(c: Column, e: real, f: real)
    requires Rising(c) && e <= f
    ensures Interpolated(c, e) <= Interpolated(c, f)
  {
    if e <= 10.0 {
      RangeOf(c, f);
    } else if f >= 90.0 {
      RangeOf(c, e);
    } else {
      var j, k := SegmentOf(e), SegmentOf(f);
      StaysBetweenNeighbours(c, e);
      StaysBetweenNeighbours(c, f);
      if j == k {
        hide Times;
        TimesOrder((e - Angle(k)) / 10.0, (f - Angle(k)) / 10.0, c[k + 1] - c[k]);
      } else {
        RisingFrom(c, j + 1, k);
      }
    }
  }

  lemma RangeOf(c: Column, e: real)
    requires Rising(c)
    ensures c[0] <= Interpolated(c, e) <= c[8]
  {
    RisingFrom(c, 0, 8);
    if 10.0 < e < 90.0 {
      var k := SegmentOf(e);
      StaysBetweenNeighbours(c, e);
      RisingFrom(c, 0, k);
      RisingFrom(c, k + 1, 8);
    }
  }

  /** P(LOS) is a probability and grows with elevation, in both scenarios. */
  lemma LineOfSightGrowsWithElevation(urban: bool, e: real, f: real)
    requires e <= f
    ensures var c := if urban then URBAN_LOS else RURAL_LOS;
            0.0 <= Interpolated(c, e) <= Interpolated(c, f) <= 1.0
  {
    var c := if urban then URBAN_LOS else RURAL_LOS;
    assert Rising(c);
    RisesWithElevation(c, e, f);
    RangeOf(c, e);
    RangeOf(c, f);
  }

  lemma SameSegmentChange(c: Column, step: real, k: nat, e: real, f: real)
    requires Gentle(c, step) && k < 8 && e <= f
    ensures Abs(OnSegment(c, k, f) - OnSegment(c, k, e)) <= Times((f - e) / 10.0, step)
  {
    hide Times;
    var d := c[k + 1] - c[k];
    var a, b := (e - Angle(k)) / 10.0, (f - Angle(k)) / 10.0;
    TimesLinear(b, a, d);
    assert b - a == (f - e) / 10.0;
    TimesLinear(d, d, b - a);
    TimesLinear(step, step, b - a);
    TimesOrder(Abs(d), step, b - a);
    TimesSign(Abs(d), b - a);
    TimesLinear(d, -d, b - a);
  }

  lemma AtAngle(c: Column, k: nat)
    requires k < 8
    ensures OnSegment(c, k, Angle(k)) == c[k] && OnSegment(c, k, Angle(k + 1)) == c[k + 1]
  {
    TimesSign(0.0, c[k + 1] - c[k]);
    TimesLinear(1.0, 1.0, c[k + 1] - c[k]);
  }

  lemma {:induction false} Steepness(c: Column, step: real, j: nat, e: real, k: nat, f: real)
    requires Gentle(c, step) && j <= k < 8
    requires Angle(j) <= e <= Angle(j + 1) && Angle(k) <= f <= Angle(k + 1) && e <= f
    ensures Abs(OnSegment(c, k, f) - OnSegment(c, j, e)) <= Times((f - e) / 10.0, step)
    decreases k - j
  {
    hide Times;
    if j == k {
      SameSegmentChange(c, step, k, e, f);
    } else {
      SameSegmentChange(c, step, j, e, Angle(j + 1));
      AtAngle(c, j);
      AtAngle(c, j + 1);
      Steepness(c, step, j + 1, Angle(j + 1), k, f);
      TimesLinear((Angle(j + 1) - e) / 10.0, (f - Angle(j + 1)) / 10.0, step);
      assert (Angle(j + 1) - e) / 10.0 + (f - Angle(j + 1)) / 10.0 == (f - e) / 10.0;
    }
  }

  /** The function is nowhere steeper than the steepest step of its column. */
  lemma NoSteeperThanItsColumn(c: Column, step: real, e: real, f: real)
    requires Gentle(c, step) && e <= f
    ensures Abs(Interpolated(c, f) - Interpolated(c, e)) <= Times((f - e) / 10.0, step)
  {
    hide Times, OnSegment;
    var a := if e < 10.0 then 10.0 else if e > 90.0 then 90.0 else e;
    var b := if f < 10.0 then 10.0 else if f > 90.0 then 90.0 else f;
    var j := if a < 90.0 then SegmentOf(a) else 7;
    var k := if b < 90.0 then SegmentOf(b) else 7;
    SegmentsInOrder(a, b, j, k);
    ClampedValue(c, e, a, j);
    ClampedValue(c, f, b, k);
    Steepness(c, step, j, a, k, b);
    assert Abs(c[1] - c[0]) <= step;
    TimesOrder((b - a) / 10.0, (f - e) / 10.0, step);
  }

  lemma SegmentsInOrder(a: real, b: real, j: nat, k: nat)
    requires 10.0 <= a <= b <= 90.0 && j < 8 && k < 8
    requires j == (if a < 90.0 then SegmentOf(a) else 7) && k == (if b < 90.0 then SegmentOf(b) else 7)
    ensures j <= k && Angle(j) <= a <= Angle(j + 1) && Angle(k) <= b <= Angle(k + 1)
  {
  }

  lemma ClampedValue(c: Column, e: real, a: real, k: nat)
    requires a == (if e < 10.0 then 10.0 else if e > 90.0 then 90.0 else e)
    requires k == if a < 90.0 then SegmentOf(a) else 7
    ensures Interpolated(c, e) == OnSegment(c, k, a)
  {
    AtAngle(c, 0);
    AtAngle(c, 7);
  }
}
