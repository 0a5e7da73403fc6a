/**
 * The arithmetic of `predecir_precio`: the raw regressor output is dampened
 * by 0.63 and floored to a multiple of 1000, and a band around it is derived
 * from two scale factors. The regressor itself is opaque: its output is an
 * input here, `None` when the call raised. The factors are floating-point
 * exponentials in the application; here they are parameters bounded the way
 * those exponentials are: the low factor exp(-0.05) lies strictly between 0
 * and 1, and the high factor exp(0.01 * ln(p / 1000 + 1)) is at least 1
 * whenever it is defined (p >= 0).
 */
module Pricing {
  import opened Options

  /** Point estimate and band, as `(precio_redondeado, rango_precio_min, rango_precio_max)`. */
  datatype Estimate = Estimate(price: int, low: int, high: int)

  /** `math.ceil` on a real. */
  function Ceil(x: real): (n: int)
    ensures x <= n as real < x + 1.0
  {
    -((-x).Floor)
  }

  function Max(a: int, b: int): (m: int) {
    if a < b then b else a
  }

  /** `math.floor((precio_bruto * .63) / 1000) * 1000`: the largest multiple
      of 1000 not above the dampened prediction. */
  function RoundedPrice(raw: real): (p: int)
    ensures p % 1000 == 0
    ensures p as real <= raw * 0.63 < p as real + 1000.0
  {
    ((raw * 0.63) / 1000.0).Floor * 1000
  }

  /** `math.log(precio_redondeado / 1000 + 1)` is defined: its argument is positive. */
  predicate LogDefined(p: int) {
    (p as real) / 1000.0 + 1.0 > 0.0
  }

  /** A multiple of 1000 has a defined logarithm exactly when it is not negative. */
  lemma LogDefinedIffNonNegative(p: int)
    requires p % 1000 == 0
    ensures LogDefined(p) <==> p >= 0
  {
    var m := p / 1000;
    assert p == 1000 * m;
    assert (p as real) / 1000.0 == m as real;
  }

  lemma MultipleOfThousand(n: int)
    ensures (n * 1000) % 1000 == 0
  {
  }

  /** A price scaled by a band factor. */
  function Scaled(p: int, f: real): (scaled: real) {
    (p as real) * f
  }

  lemma ScaleDown(p: int, f: real)
    requires 0 <= p && 0.0 < f < 1.0
    ensures 0.0 <= Scaled(p, f) <= p as real
  {
  }

  lemma ScaleUp(p: int, f: real)
    requires 0 <= p && 1.0 <= f
    ensures p as real <= Scaled(p, f)
  {
  }

  /** Rounding `x` in [0, y] down to a multiple of 1000, floored at 0. */
  lemma RoundDownBetween(x: real, y: real)
    requires 0.0 <= x <= y
    ensures var n := Max(0, (x / 1000.0).Floor * 1000);
      n % 1000 == 0 && 0 <= n && n as real <= y && x - 1000.0 < n as real <= x
  {
    var fl := (x / 1000.0).Floor;
    MultipleOfThousand(fl);
  }

  /** Rounding `x` >= y up to a multiple of 1000. */
  lemma RoundUpAbove(x: real, y: real)
    requires y <= x
    ensures var n := Ceil(x / 1000.0) * 1000;
      n % 1000 == 0 && y <= n as real && x <= n as real < x + 1000.0
  {
    var cl := Ceil(x / 1000.0);
    MultipleOfThousand(cl);
  }

  lemma LowEndBounds(p: int, lo: real)
    requires 0 <= p && 0.0 < lo < 1.0
    ensures var n := Max(0, (Scaled(p, lo) / 1000.0).Floor * 1000);
      n % 1000 == 0 && 0 <= n <= p && Scaled(p, lo) - 1000.0 < n as real <= Scaled(p, lo)
  {
    ScaleDown(p, lo);
    RoundDownBetween(Scaled(p, lo), p as real);
  }

  lemma HighEndBounds(p: int, hi: real)
    requires 0 <= p && 1.0 <= hi
    ensures var n := Ceil(Scaled(p, hi) / 1000.0) * 1000;
      n % 1000 == 0 && p <= n && Scaled(p, hi) <= n as real < Scaled(p, hi) + 1000.0
  {
    ScaleUp(p, hi);
    RoundUpAbove(Scaled(p, hi), p as real);
  }

  /** Line 220: `max(0, math.floor((p * lo) / 1000) * 1000)` for a
      non-negative price: the largest multiple of 1000 not above
      `p * lo`, which lies between 0 and `p`. */
  function LowEnd(p: int, lo: real): (n: int)
    requires 0 <= p && 0.0 < lo < 1.0
    ensures n % 1000 == 0 && 0 <= n <= p
    ensures Scaled(p, lo) - 1000.0 < n as real <= Scaled(p, lo)
  {
    LowEndBounds(p, lo);
    Max(0, (Scaled(p, lo) / 1000.0).Floor * 1000)
  }

  /** Line 221: `math.ceil((p * hi) / 1000) * 1000` for a non-negative
      price: the smallest multiple of 1000 not below `p * hi`,
      which is at least `p`. */
  function HighEnd(p: int, hi: real): (n: int)
    requires 0 <= p && 1.0 <= hi
    ensures n % 1000 == 0 && p <= n
    ensures Scaled(p, hi) <= n as real < Scaled(p, hi) + 1000.0
  {
    HighEndBounds(p, hi);
    Ceil(Scaled(p, hi) / 1000.0) * 1000
  }

  /** Lines 220-221: the band around a non-negative rounded price `p`. */
  function Band(p: int, lo: real, hi: real): (e: Estimate)
    requires 0 <= p && p % 1000 == 0
    requires 0.0 < lo < 1.0 && 1.0 <= hi
    ensures e.price == p
    ensures e.low % 1000 == 0 && e.high % 1000 == 0
    ensures 0 <= e.low <= e.price <= e.high
    ensures Scaled(p, lo) - 1000.0 < e.low as real <= Scaled(p, lo)
    ensures Scaled(p, hi) <= e.high as real < Scaled(p, hi) + 1000.0
  {
    Estimate(p, LowEnd(p, lo), HighEnd(p, hi))
  }

  /** `predecir_precio` after the regressor call: `None` when the regressor
      raised, or when the rounded price is negative, which makes `math.log`
      fail; otherwise the rounded price and its band. */
  function PredictPrice(raw: Option<real>, lo: real, hi: real): (r: Option<Estimate>)
    requires 0.0 < lo < 1.0 && 1.0 <= hi
    ensures raw.None? ==> r.None?
    ensures raw.Some? ==> (r.Some? <==> RoundedPrice(raw.value) >= 0)
    ensures r.Some? ==> r.value == Band(RoundedPrice(raw.value), lo, hi)
  {
    match raw
    case None => None
    case Some(x) =>
      var p := RoundedPrice(x);
      LogDefinedIffNonNegative(p);
      if !LogDefined(p) then None
      else Some(Band(p, lo, hi))
  }

  /** Every estimate is made of multiples of 1000, its minimum is not
      negative, and its band contains the point estimate. */
  lemma EstimateShape(raw: Option<real>, lo: real, hi: real)
    requires 0.0 < lo < 1.0 && 1.0 <= hi
    requires PredictPrice(raw, lo, hi).Some?
    ensures var e := PredictPrice(raw, lo, hi).value;
      e.price % 1000 == 0 && e.low % 1000 == 0 && e.high % 1000 == 0 &&
      0 <= e.low <= e.price <= e.high
  {
    var e := PredictPrice(raw, lo, hi).value;
    assert e == Band(RoundedPrice(raw.value), lo, hi);
  }

  /** A negative dampened prediction rounds to at most -1000, `math.log`
      fails, and the function returns `(None, None, None)`. */
  lemma NegativePriceFails(x: real, lo: real, hi: real)
    requires 0.0 < lo < 1.0 && 1.0 <= hi
    requires x * 0.63 < 0.0
    ensures RoundedPrice(x) <= -1000
    ensures PredictPrice(Some(x), lo, hi) == None
  {
  }

  /** A raw prediction of 1,000,000 with the factors exp(-0.05) ~ 0.951229
      and exp(0.01 * ln 631) ~ 1.066596 gives 630000 within [599000, 672000]. */
  lemma MillionExample(lo: real, hi: real)
    requires 0.9512 <= lo <= 0.9513 && 1.0665 <= hi <= 1.0666
    ensures PredictPrice(Some(1000000.0), lo, hi) == Some(Estimate(630000, 599000, 672000))
  {
    assert RoundedPrice(1000000.0) == 630000;
    var e := Band(630000, lo, hi);
    assert 599256.0 - 1000.0 < e.low as real <= 599319.0;
    assert 671895.0 <= e.high as real < 671958.0 + 1000.0;
  }

}
