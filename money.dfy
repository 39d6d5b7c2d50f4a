/** Exact decimal arithmetic of the debt rules: BigDecimal values are Dafny
    reals, and setScale(1, RoundingMode.HALF_UP) is rounding to the nearest
    tenth with ties away from zero. */
module Money {

  /** x has at most one decimal digit: 10·x is a whole number. */
  predicate IsTenths(x: real) {
    (10.0 * x).Floor as real == 10.0 * x
  }

  /** BigDecimal.setScale(1, RoundingMode.HALF_UP). For x >= 0 the result is
      the one tenth in (x − 0.05, x + 0.05]: a tie is rounded up. */
  function RoundHalfUp1(x: real): (r: real)
    ensures IsTenths(r)
    ensures x >= 0.0 ==> x - 0.05 < r <= x + 0.05
    ensures x < 0.0 ==> x - 0.05 <= r < x + 0.05
    ensures x >= 0.0 ==> r >= 0.0
    ensures x <= 0.0 ==> r <= 0.0
  {
    if x >= 0.0 then
      var m := (10.0 * x + 0.5).Floor;
      TenthsOfInt(m);
      m as real / 10.0
    else
      var m := (-10.0 * x + 0.5).Floor;
      TenthsOfInt(-m);
      -m as real / 10.0
  }

  lemma {:induction false} TenthsOfInt(m: int)
    ensures IsTenths(m as real / 10.0)
  {
    assert 10.0 * (m as real / 10.0) == m as real;
  }

  /** A half-open interval of width one tenth holds exactly one tenth, so
      the rounding of a non-negative x is determined by its bounds. */
  lemma {:induction false} RoundHalfUp1Unique(x: real, t: real)
    requires x >= 0.0
    requires IsTenths(t) && x - 0.05 < t <= x + 0.05
    ensures t == RoundHalfUp1(x)
  {
    var k := (10.0 * t).Floor;
    var m := (10.0 * x + 0.5).Floor;
    assert k as real == 10.0 * t;
    assert 10.0 * x - 0.5 < k as real <= 10.0 * x + 0.5;
    assert m as real <= 10.0 * x + 0.5 < m as real + 1.0;
    assert k <= m;
    assert m < k + 1;
  }

  /** The debt after one recalculation cycle:
      debt × 1.05, rounded half-up to one decimal. */
  function Recount(debt: real): (r: real)
    requires debt > 0.0
    ensures IsTenths(r)
    ensures r >= 0.0
    ensures debt * 1.05 - 0.05 < r <= debt * 1.05 + 0.05
  {
    RoundHalfUp1(debt * 1.05)
  }

  /** A debt with at most one decimal never shrinks, and so stays a debt. */
  lemma {:induction false} RecountNeverDecreases(debt: real)
    requires debt > 0.0 && IsTenths(debt)
    ensures Recount(debt) >= debt
  {
    var k := (10.0 * debt).Floor;
    var m := (10.0 * (debt * 1.05) + 0.5).Floor;
    assert k as real == 10.0 * debt;
    assert 10.0 * (debt * 1.05) + 0.5 == 1.05 * (k as real) + 0.5;
    assert m as real > 1.05 * (k as real) - 0.5;
    assert m >= k;
    assert Recount(debt) == m as real / 10.0;
  }

  /** A debt below 1/21 is rounded away: the owner stops being a debtor. */
  lemma {:induction false} SmallDebtVanishes(debt: real)
    requires 0.0 < debt < 1.0 / 21.0
    ensures Recount(debt) == 0.0
  {
    var y := 10.0 * (debt * 1.05) + 0.5;
    assert 0.5 < y < 1.0;
    assert y.Floor == 0;
  }

  /** The examples of the debt recalculation: 10000 → 10500.0 → 11025.0,
      and 20000 → 21000.0. */
  lemma {:induction false} RecountExamples()
    ensures Recount(10000.0) == 10500.0
    ensures Recount(10500.0) == 11025.0
    ensures Recount(20000.0) == 21000.0
  {
    assert (10.0 * (10000.0 * 1.05) + 0.5).Floor == 105000;
    assert (10.0 * (10500.0 * 1.05) + 0.5).Floor == 110250;
    assert (10.0 * (20000.0 * 1.05) + 0.5).Floor == 210000;
  }
}
