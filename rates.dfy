/** Prices and one-decimal rates. Money is held in integer cents, and a figure
    the pages print with `toFixed(1)` is held in tenths. */
module Rates {

  const PremiumPriceCents: nat := 1299   // 12.99 a month
  const ProPriceCents: nat := 2499       // 24.99 a month
  const CostPerMessageCents: nat := 2    // COST_PER_MSG = 0.02

  /** `den > 0 ? ((num / den) * scale)` rounded to the nearest integer, halves upward,
      and 0 when there is nothing to divide by. With scale 10 this is the tenths of
      `(num / den).toFixed(1)`; with scale 1000, the tenths of a percentage. */
  function RoundedRatio(num: nat, den: nat, scale: nat): (r: nat)
    ensures den == 0 ==> r == 0
    ensures den > 0 ==> 2 * den * r <= 2 * scale * num + den < 2 * den * r + 2 * den
    ensures num <= den ==> r <= scale
  {
    if den == 0 then 0
    else
      RatioBounds(num, den, scale);
      (2 * scale * num + den) / (2 * den)
  }

  lemma RatioBounds(num: nat, den: nat, scale: nat)
    requires den > 0
    ensures var q := (2 * scale * num + den) / (2 * den);
      && 2 * den * q <= 2 * scale * num + den < 2 * den * q + 2 * den
      && (num <= den ==> q <= scale)
  {
    var x, d := 2 * scale * num + den, 2 * den;
    var q := x / d;
    assert x == d * q + x % d;
    if num <= den {
      assert scale * num <= scale * den by { MulMonotone(scale, num, den); }
      assert x < d * (scale + 1);
      BelowProduct(d, q, scale + 1);
    }
  }

  lemma MulMonotone(d: nat, a: nat, b: nat)
    requires a <= b
    ensures d * a <= d * b
  {
  }

  /** d * q < d * m forces q < m. */
  lemma BelowProduct(d: nat, q: nat, m: nat)
    requires d * q < d * m
    ensures q < m
  {
    if m <= q {
      MulMonotone(d, m, q);
    }
  }
}
