/** Rounding to one and two decimals, `Math.round(x * k) / k`, over the reals. */
module Rounding {
  /** `Math.round`: the nearest integer, halves upward. */
  function RoundInt(x: real): (r: int)
    ensures x - 0.5 < r as real <= x + 0.5
  {
    (x + 0.5).Floor
  }

  function Round1(x: real): real {
    RoundInt(x * 10.0) as real / 10.0
  }

  function Round2(x: real): real {
    RoundInt(x * 100.0) as real / 100.0
  }

  /** A value that already has at most one decimal. */
  ghost predicate OnTenths(x: real) {
    exists k: int :: IsTenths(k, x)
  }

  predicate IsTenths(k: int, x: real) {
    k as real == x * 10.0
  }

  lemma {:induction false} RoundIntMonotone(x: real, y: real)
    requires x <= y
    ensures RoundInt(x) <= RoundInt(y)
  {
    var i, j := RoundInt(x), RoundInt(y);
    assert i > j ==> i as real >= (j + 1) as real;
  }

  lemma {:induction false} RoundIntFixed(k: int)
    ensures RoundInt(k as real) == k
  {
    var r := RoundInt(k as real);
    assert r < k ==> (r + 1) as real <= k as real;
    assert k < r ==> (k + 1) as real <= r as real;
  }

  lemma {:induction false} Round1Monotone(x: real, y: real)
    requires x <= y
    ensures Round1(x) <= Round1(y)
  {
    RoundIntMonotone(x * 10.0, y * 10.0);
  }

  /** Rounding to one decimal moves a value by at most half a tenth. */
  lemma {:induction false} Round1Near(x: real)
    ensures x - 0.05 <= Round1(x) <= x + 0.05
  {
    assert Round1(x) * 10.0 == RoundInt(x * 10.0) as real;
  }

  /** Nothing is lost by rounding a second time, and rounding moves a value by at most half a hundredth. */
  lemma {:induction false} Round2Facts(x: real)
    ensures Round2(Round2(x)) == Round2(x)
    ensures x - 0.005 <= Round2(x) <= x + 0.005
  {
    var k := RoundInt(x * 100.0);
    assert Round2(x) * 100.0 == k as real;
    RoundIntFixed(k);
  }

  lemma {:induction false} Round1OnTenths(x: real)
    ensures OnTenths(Round1(x))
    ensures OnTenths(x) ==> Round1(x) == x
  {
    assert IsTenths(RoundInt(x * 10.0), Round1(x));
    if OnTenths(x) {
      var k: int :| IsTenths(k, x);
      RoundIntFixed(k);
    }
  }

  /** Rounding a value between two one-decimal values stays between them. */
  lemma {:induction false} Round1Between(lo: real, x: real, hi: real)
    requires OnTenths(lo) && OnTenths(hi) && lo <= x <= hi
    ensures lo <= Round1(x) <= hi
  {
    Round1OnTenths(lo);
    Round1OnTenths(hi);
    Round1Monotone(lo, x);
    Round1Monotone(x, hi);
  }
}
