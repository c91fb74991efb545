// Float64 arithmetic: every way of rounding that keeps the order and leaves float64s alone, and every
// math.Pow that is exact on powers which are float64s.
module Float64Math {
  import opened Core

  const TWO_52: int := 0x10_0000_0000_0000
  const TWO_53: int := 0x20_0000_0000_0000

  function Pow2(n: nat): (r: nat)
    ensures r >= 1
  {
    if n == 0 then 1 else 2 * Pow2(n - 1)
  }

  // 2^e.
  function TwoTo(e: int): (r: real)
    ensures r > 0.0
  {
    if e >= 0 then Pow2(e) as real else 1.0 / Pow2(-e) as real
  }

  function Power(b: real, n: nat): (r: real)
    ensures b >= 1.0 ==> r >= 1.0
  {
    if n == 0 then 1.0 else b * Power(b, n - 1)
  }

  // b^e.
  function RealPower(b: real, e: int): (r: real)
    requires b >= 1.0
    ensures r > 0.0
  {
    if e >= 0 then Power(b, e) else 1.0 / Power(b, -e)
  }

  function Value(f: Float64): real {
    f.num as real / Pow2(f.scale) as real
  }

  function Times(x: real, y: real): real {
    x * y
  }

  // A significand and an exponent. The exponents of float64 have bounds that a delay in range does not
  // come near.
  predicate Scaled(x: real, limit: int, n: int, e: int) {
    -limit <= n <= limit && x == Times(n as real, TwoTo(e))
  }

  ghost predicate Significant(x: real, limit: int) {
    exists n: int, e: int :: Scaled(x, limit, n, e)
  }

  // A significand of 53 bits.
  ghost predicate Representable(x: real) {
    Significant(x, TWO_53)
  }

  // One whose last bit is zero.
  ghost predicate EvenFloat(x: real) {
    Significant(x, TWO_52)
  }

  datatype Floats = Floats(round: real -> real, pow: (real, int) -> real)

  ghost predicate Rounds(round: real -> real) {
    && (forall x, y :: x <= y ==> round(x) <= round(y))
    && (forall x :: Representable(x) ==> round(x) == x)
  }

  ghost predicate Raises(pow: (real, int) -> real) {
    && (forall b, m, n :: b >= 1.0 && m <= n ==> 0.0 <= pow(b, m) <= pow(b, n))
    && (forall b, e :: b >= 1.0 && Representable(RealPower(b, e)) ==> pow(b, e) == RealPower(b, e))
  }

  ghost predicate Admissible(f: Floats) {
    Rounds(f.round) && Raises(f.pow)
  }

  // ----- Conversion and order -----

  // A float-to-integer conversion: towards zero.
  function Truncate(x: real): int {
    if x >= 0.0 then x.Floor else -((-x).Floor)
  }

  lemma IntegerIsFloat(n: int)
    requires -TWO_53 <= n <= TWO_53
    ensures Representable(n as real)
  {
    assert Scaled(n as real, TWO_53, n, 0);
  }

  lemma TruncateBrackets(x: real)
    ensures x >= 0.0 ==> Truncate(x) as real <= x < (Truncate(x) + 1) as real
    ensures x < 0.0 ==> (Truncate(x) - 1) as real < x <= Truncate(x) as real
  {
  }

  lemma TruncateInt(n: int)
    ensures Truncate(n as real) == n
  {
  }

  lemma TruncateGrows(x: real, y: real)
    requires 0.0 <= x <= y
    ensures 0 <= Truncate(x) <= Truncate(y)
  {
  }

  lemma TimesGrows(k: real, x: real, y: real)
    requires k >= 0.0 && x <= y
    ensures Times(k, x) <= Times(k, y)
  {
    assert k * (y - x) >= 0.0;
  }

  lemma RoundKeepsOrder(round: real -> real, x: real, y: real)
    requires Rounds(round) && 0.0 <= x <= y
    ensures 0.0 <= round(x) <= round(y)
  {
    IntegerIsFloat(0);
    assert round(0.0) == 0.0;
  }

  // ----- Powers -----

  lemma TwoToNext(e: int)
    ensures TwoTo(e + 1) == 2.0 * TwoTo(e)
  {
    if e < 0 {
      assert Pow2(-e) == 2 * Pow2(-e - 1);
      HalvedFraction(Pow2(-e - 1) as real);
    }
  }

  lemma HalvedFraction(p: real)
    requires p > 0.0
    ensures 2.0 * (1.0 / (2.0 * p)) == 1.0 / p
  {
  }

  lemma {:induction false} TwoToAdds(a: int, b: int)
    ensures TwoTo(a + b) == Times(TwoTo(a), TwoTo(b))
    decreases if b >= 0 then b else -b
  {
    if b > 0 {
      TwoToAdds(a, b - 1);
      TwoToNext(a + b - 1);
      TwoToNext(b - 1);
      Doubled(TwoTo(a), TwoTo(b - 1));
    } else if b < 0 {
      TwoToAdds(a, b + 1);
      TwoToNext(a + b);
      TwoToNext(b);
      Doubled(TwoTo(a), TwoTo(b));
    }
  }

  lemma Doubled(x: real, y: real)
    ensures Times(x, 2.0 * y) == 2.0 * Times(x, y)
  {
  }

  lemma {:induction false} Pow2Adds(m: nat, n: nat)
    ensures Pow2(m + n) == Pow2(m) * Pow2(n)
  {
    if n > 0 {
      Pow2Adds(m, n - 1);
      assert m + n - 1 == m + (n - 1);
    }
  }

  lemma Pow2Constants()
    ensures Pow2(22) == 0x40_0000 && Pow2(23) == 0x80_0000 && Pow2(33) == 0x2_0000_0000 && Pow2(34) == 0x4_0000_0000
    ensures Pow2(52) == 0x10_0000_0000_0000
  {
    assert Pow2(5) == 32 && Pow2(2) == 4;
    Pow2Adds(5, 5);
    Pow2Adds(10, 10);
    Pow2Adds(20, 2);
    Pow2Adds(22, 10);
    Pow2Adds(32, 20);
    assert Pow2(23) == 2 * Pow2(22) && Pow2(33) == 2 * Pow2(32) && Pow2(34) == 2 * Pow2(33);
  }

  lemma {:induction false} TwoToGrows(m: int, n: int)
    requires m <= n
    ensures TwoTo(m) <= TwoTo(n)
    decreases n - m
  {
    if m < n {
      TwoToGrows(m, n - 1);
      TwoToNext(n - 1);
    }
  }

  lemma PowerOfTwo(e: int)
    ensures RealPower(2.0, e) == TwoTo(e)
  {
    PowerOfTwoUp(if e >= 0 then e else -e);
  }

  lemma {:induction false} PowerOfTwoUp(n: nat)
    ensures Power(2.0, n) == Pow2(n) as real
  {
    if n > 0 {
      PowerOfTwoUp(n - 1);
    }
  }

  lemma ScaledIsFloat(n: int, e: int)
    requires -TWO_53 <= n <= TWO_53
    ensures Representable(Times(n as real, TwoTo(e)))
  {
    assert Scaled(Times(n as real, TwoTo(e)), TWO_53, n, e);
  }

  lemma RealPowerNext(b: real, e: int)
    requires b >= 1.0
    ensures RealPower(b, e) <= RealPower(b, e + 1)
  {
    if e >= 0 {
      Larger(Power(b, e), b);
    } else {
      Larger(Power(b, -e - 1), b);
      Reciprocals(Power(b, -e - 1), Power(b, -e));
    }
  }

  lemma Larger(x: real, b: real)
    requires x >= 0.0 && b >= 1.0
    ensures b * x >= x
  {
    TimesGrows(x, 1.0, b);
  }

  lemma Reciprocals(x: real, y: real)
    requires 0.0 < x <= y
    ensures 1.0 / y <= 1.0 / x
  {
    assert 1.0 / x - 1.0 / y == (y - x) / (x * y);
  }

  lemma {:induction false} RealPowerGrows(b: real, m: int, n: int)
    requires b >= 1.0 && m <= n
    ensures RealPower(b, m) <= RealPower(b, n)
    decreases n - m
  {
    if m < n {
      RealPowerGrows(b, m, n - 1);
      RealPowerNext(b, n - 1);
    }
  }
}
