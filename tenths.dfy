/**
 * Fixed-point arithmetic for nutrient amounts.
 *
 * Every amount (kcal, grams of protein, carbohydrate, fat or fibre) is a whole
 * number of TENTHS of its unit, so 350.0 kcal is 3500 and 12.5 g is 125.
 * Python's round(x, 1) of an exact value then becomes rounding a quotient to
 * the nearest integer, ties to even.
 */
module Tenths {

  /** The four macro totals the planner tracks, each in tenths. */
  datatype Macros = Macros(kcal: int, prot: int, carb: int, fat: int)

  const ZERO: Macros := Macros(0, 0, 0, 0)

  function Plus(a: Macros, b: Macros): Macros
  {
    Macros(a.kcal + b.kcal, a.prot + b.prot, a.carb + b.carb, a.fat + b.fat)
  }

  /**
   * n / d rounded to the nearest integer, exact halves to the even neighbour,
   * as Python's round does on an exact value.
   */
  function RoundDiv(n: int, d: int): (r: int)
    requires d > 0
    ensures 2 * (n - r * d) <= d && 2 * (r * d - n) <= d
    ensures (2 * (n - r * d) == d || 2 * (r * d - n) == d) ==> r % 2 == 0
  {
    var q, rem := n / d, n % d;
    assert n == q * d + rem;
    assert (q + 1) * d == q * d + d;
    if 2 * rem < d then q
    else if 2 * rem > d then q + 1
    else if q % 2 == 0 then q
    else q + 1
  }

  /** A quotient that is exact needs no rounding. */
  lemma RoundDivExact(k: int, d: int)
    requires d > 0
    ensures RoundDiv(k * d, d) == k
  {
    var r := RoundDiv(k * d, d);
    assert k * d - r * d == (k - r) * d;
    if r < k {
      AtLeastDivisor(k - r, d);
    } else if r > k {
      assert r * d - k * d == (r - k) * d;
      AtLeastDivisor(r - k, d);
    }
  }

  lemma AtLeastDivisor(a: int, d: int)
    requires a >= 1 && d > 0
    ensures a * d >= d
  {
    assert a * d == (a - 1) * d + d;
  }

  /**
   * The amount a food contributes for `grams` grams, from its per-100 g amount
   * `base`: round(base * grams / 100, 1), both in tenths.
   */
  function Scale(base: int, grams: int): (r: int)
    ensures 2 * (base * grams - 100 * r) <= 100 && 2 * (100 * r - base * grams) <= 100
    ensures grams == 100 ==> r == base
    ensures base >= 0 && grams >= 0 ==> r >= 0
  {
    RoundDivExact(base, 100);
    RoundDiv(base * grams, 100)
  }

  /** Python's int() of a one-decimal amount: the whole units, truncated toward zero. */
  function TruncTenths(v: int): (r: int)
    ensures v >= 0 ==> 0 <= v - 10 * r < 10
    ensures v < 0 ==> 0 <= 10 * r - v < 10
  {
    if v >= 0 then v / 10 else -((-v) / 10)
  }

  /** The mean of a sum over seven days, rounded to one decimal, per macro. */
  function MeanOfSeven(sum: Macros): (r: Macros)
    ensures 2 * (sum.kcal - 7 * r.kcal) <= 7 && 2 * (7 * r.kcal - sum.kcal) <= 7
    ensures 2 * (sum.prot - 7 * r.prot) <= 7 && 2 * (7 * r.prot - sum.prot) <= 7
    ensures 2 * (sum.carb - 7 * r.carb) <= 7 && 2 * (7 * r.carb - sum.carb) <= 7
    ensures 2 * (sum.fat - 7 * r.fat) <= 7 && 2 * (7 * r.fat - sum.fat) <= 7
  {
    Macros(RoundDiv(sum.kcal, 7), RoundDiv(sum.prot, 7), RoundDiv(sum.carb, 7), RoundDiv(sum.fat, 7))
  }
}
