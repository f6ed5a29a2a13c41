/** Products and quotients of reals under names, so that a proof can hide what they are, and the few
    facts about them the other modules use. */
module Reals {

  function Times(x: real, y: real): real {
    x * y
  }

  function Square(x: real): real {
    Times(x, x)
  }

  function Over(x: real, r: real): real
    requires r != 0.0
  {
    x / r
  }

  function Abs(x: real): real {
    if x < 0.0 then -x else x
  }

  function Max(a: real, b: real): real {
    if a < b then b else a
  }

  function Min(a: real, b: real): real {
    if b < a then b else a
  }

  lemma TimesSign(x: real, y: real)
    ensures x >= 0.0 && y >= 0.0 ==> Times(x, y) >= 0.0
    ensures x > 0.0 && y > 0.0 ==> Times(x, y) > 0.0
    ensures x == 0.0 || y == 0.0 ==> Times(x, y) == 0.0
  {
  }

  lemma TimesLinear(x: real, y: real, w: real)
    ensures Times(x + y, w) == Times(x, w) + Times(y, w)
    ensures Times(x - y, w) == Times(x, w) - Times(y, w)
    ensures Times(-x, w) == -Times(x, w)
    ensures Times(x, w) == Times(w, x) && Times(y, w) == Times(w, y)
    ensures Times(1.0, w) == w && Times(-1.0, w) == -w
  {
  }

  lemma TimesAssociates(x: real, y: real, z: real)
    ensures Times(Times(x, y), z) == Times(x, Times(y, z))
  {
  }

  lemma TimesOrder(x: real, y: real, w: real)
    requires w >= 0.0 && x <= y
    ensures Times(x, w) <= Times(y, w)
    ensures w > 0.0 && x < y ==> Times(x, w) < Times(y, w)
  {
    hide Times;
    TimesLinear(y, x, w);
    TimesSign(y - x, w);
  }

  lemma SquareSign(x: real)
    ensures Square(x) >= 0.0 && (x != 0.0 ==> Square(x) > 0.0)
    ensures Square(-x) == Square(x) && Square(Abs(x)) == Square(x)
    ensures Square(0.0) == 0.0
  {
    hide Times;
    TimesSign(x, x);
    TimesSign(-x, -x);
    TimesSign(0.0, 0.0);
    TimesLinear(x, x, -x);
    TimesLinear(x, x, x);
  }

  lemma SquareOrder(x: real, y: real)
    requires 0.0 <= x && 0.0 <= y
    ensures x < y <==> Square(x) < Square(y)
    ensures x <= y <==> Square(x) <= Square(y)
    ensures x == y <==> Square(x) == Square(y)
  {
    hide Times;
    if x < y {
      SquareGrows(x, y);
    } else if y < x {
      SquareGrows(y, x);
    }
  }

  lemma SquareGrows(x: real, y: real)
    requires 0.0 <= x < y
    ensures Square(x) < Square(y)
  {
    hide Times;
    TimesOrder(x, y, x);
    TimesOrder(x, y, y);
    TimesLinear(x, y, x);
    TimesLinear(x, y, y);
  }

  lemma OverTimes(x: real, r: real)
    requires r != 0.0
    ensures Times(Over(x, r), r) == x
  {
  }

  lemma OverUnique(x: real, r: real, q: real)
    requires r != 0.0 && Times(q, r) == x
    ensures Over(x, r) == q
  {
  }

  lemma OverSign(x: real, r: real)
    requires r > 0.0
    ensures (x >= 0.0 <==> Over(x, r) >= 0.0) && (x > 0.0 <==> Over(x, r) > 0.0)
    ensures x == 0.0 <==> Over(x, r) == 0.0
  {
    hide Times, Over;
    OverTimes(x, r);
    var q := Over(x, r);
    TimesSign(q, r);
    TimesSign(-q, r);
    TimesLinear(q, q, r);
  }

  lemma OverOrder(x: real, y: real, r: real)
    requires r > 0.0 && x <= y
    ensures Over(x, r) <= Over(y, r)
    ensures x < y ==> Over(x, r) < Over(y, r)
  {
    hide Times, Over;
    OverTimes(x, r);
    OverTimes(y, r);
    if Over(y, r) < Over(x, r) {
      TimesOrder(Over(y, r), Over(x, r), r);
    }
  }

  /** A part over the whole. */
  lemma OverIsFraction(x: real, r: real)
    requires r > 0.0 && -r <= x <= r
    ensures -1.0 <= Over(x, r) <= 1.0
  {
    hide Times, Over;
    TimesLinear(1.0, 1.0, r);
    OverUnique(r, r, 1.0);
    OverUnique(-r, r, -1.0);
    OverOrder(x, r, r);
    OverOrder(-r, x, r);
  }

  lemma OverScales(k: real, x: real, r: real)
    requires k > 0.0 && r > 0.0
    ensures Times(k, r) > 0.0 && Over(Times(k, x), Times(k, r)) == Over(x, r)
  {
    hide Times, Over;
    TimesSign(k, r);
    OverTimes(x, r);
    var q := Over(x, r);
    TimesLinear(q, q, Times(k, r));
    TimesAssociates(k, r, q);
    TimesLinear(q, q, r);
    OverUnique(Times(k, x), Times(k, r), q);
  }
}
