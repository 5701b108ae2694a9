/** Percentages as the components compute them: either behind an explicit
    zero-denominator guard, or as raw pandas float division whose zero
    denominators yield infinity or NaN. */
module Rates {

  /** `num / den * 100 if den > 0 else 0`. */
  function GuardedRate(num: int, den: int): (r: real)
    ensures den > 0 ==> r * den as real == 100.0 * num as real
    ensures den <= 0 ==> r == 0.0
  {
    if den > 0 then num as real / den as real * 100.0 else 0.0
  }

  /** A part of a whole is between 0 and 100 percent of it. */
  lemma GuardedRateBounds(num: int, den: int)
    requires 0 <= num <= den
    ensures 0.0 <= GuardedRate(num, den) <= 100.0
  {
    if den > 0 {
      var r := GuardedRate(num, den);
      assert r * den as real <= 100.0 * den as real;
    }
  }

  /** A guarded rate of counts is positive exactly when both counts are. */
  lemma GuardedRatePositive(num: nat, den: nat)
    ensures GuardedRate(num, den) > 0.0 <==> num > 0 && den > 0
  {
    if den > 0 {
      var r := GuardedRate(num, den);
      assert r * den as real == 100.0 * num as real;
      if num > 0 {
        assert r * den as real > 0.0;
      } else {
        assert r == 0.0;
      }
    }
  }

  /** Four parts over their whole, as percentages, add up to 100. */
  lemma SharesOfWhole(p0: real, p1: real, p2: real, p3: real, total: real, u0: real, u1: real, u2: real, u3: real)
    requires total > 0.0 && total == u0 + u1 + u2 + u3
    requires p0 * total == 100.0 * u0 && p1 * total == 100.0 * u1
    requires p2 * total == 100.0 * u2 && p3 * total == 100.0 * u3
    ensures p0 + p1 + p2 + p3 == 100.0
  {
    var x := p0 + p1 + p2 + p3;
    calc {
      x * total;
      p0 * total + p1 * total + p2 * total + p3 * total;
      100.0 * u0 + 100.0 * u1 + 100.0 * u2 + 100.0 * u3;
      100.0 * (u0 + u1 + u2 + u3);
      100.0 * total;
    }
    assert (x - 100.0) * total == 0.0;
  }

  /** The guarded rates of four counts over their sum add up to 100. */
  lemma GuardedRatesOfWhole(a: nat, b: nat, c: nat, d: nat)
    requires a + b + c + d > 0
    ensures var n := a + b + c + d;
      GuardedRate(a, n) + GuardedRate(b, n) + GuardedRate(c, n) + GuardedRate(d, n) == 100.0
  {
    var n := a + b + c + d;
    SharesOfWhole(GuardedRate(a, n), GuardedRate(b, n), GuardedRate(c, n), GuardedRate(d, n),
      n as real, a as real, b as real, c as real, d as real);
  }

  /** A float64 division result: a number, infinity or NaN. */
  datatype Pct = Finite(value: real) | Infinite | NotANumber

  /** `num / den * 100` on non-negative counts in pandas: a positive count
      over zero is infinity, zero over zero is NaN. */
  function Percent(num: nat, den: nat): (p: Pct)
    ensures p.Finite? <==> den > 0
    ensures p.Finite? ==> p.value * den as real == 100.0 * num as real
    ensures p.Infinite? <==> den == 0 && num > 0
    ensures p.NotANumber? <==> den == 0 && num == 0
  {
    if den > 0 then Finite(num as real / den as real * 100.0)
    else if num > 0 then Infinite
    else NotANumber
  }

  /** A guarded rate agrees with the unguarded percentage wherever the latter is a number. */
  lemma GuardedRateMatchesPercent(num: nat, den: nat)
    requires den > 0
    ensures Percent(num, den) == Finite(GuardedRate(num, den))
  {
  }

  /** `fillna(0)`: NaN becomes 0, everything else is kept. */
  function FillNa(p: Pct): (q: Pct)
    ensures !q.NotANumber?
    ensures p.NotANumber? ==> q == Finite(0.0)
    ensures !p.NotANumber? ==> q == p
  {
    if p.NotANumber? then Finite(0.0) else p
  }

  /** `(num / den * 100)` followed by `fillna(0)`: a number when the
      denominator is positive, infinity for a positive count over zero, and 0
      when both are zero. */
  function FilledPercent(num: nat, den: nat): (p: Pct)
    ensures den > 0 ==> p.Finite? && p.value * den as real == 100.0 * num as real
    ensures den == 0 && num > 0 ==> p == Infinite
    ensures den == 0 && num == 0 ==> p == Finite(0.0)
  {
    FillNa(Percent(num, den))
  }

  /** A count over a denominator of one is that count as a percentage. */
  lemma PercentOverOne(num: nat)
    ensures Percent(num, 1) == Finite(100.0 * num as real)
  {
    assert num as real / 1.0 == num as real;
  }
}
