// CalculateBackoff, over any admissible float64 arithmetic (scheduler/scheduler.go).
module BackoffDelay {
  import opened Core
  import opened Float64Math
  import opened NearestEven

  const INT64_LIMIT: int := 0x8000_0000_0000_0000

  // The base of the power, if there is one.
  function Base(b: Backoff): real {
    if b.strategy.Exponential? then Value(b.multiplier) else 2.0
  }

  predicate ByPower(b: Backoff) {
    b.strategy.Exponential? || b.strategy.Unknown?
  }

  // float64(initial) * math.Pow(base, exponent).
  function Product(f: Floats, initial: Duration, base: real, exponent: int): real {
    f.round(Times(f.round(initial as real), f.pow(base, exponent)))
  }

  // The delay before the conversion and the cap.
  function Uncapped(f: Floats, attempt: int, b: Backoff): real {
    match b.strategy
    case Constant => b.initial as real
    case Linear => (attempt * b.initial) as real
    case _ => Product(f, b.initial, Base(b), attempt - 1)
  }

  // Where the conversion to int64 is defined and the product does not wrap.
  predicate Fits(f: Floats, attempt: int, b: Backoff) {
    -(INT64_LIMIT as real) <= Uncapped(f, attempt, b) < INT64_LIMIT as real
  }

  function CalculateBackoff(f: Floats, attempt: int, b: Backoff): Duration
    requires Fits(f, attempt, b)
  {
    var delay := match b.strategy
      case Constant => b.initial
      case Linear => attempt * b.initial
      case Exponential => Truncate(Product(f, b.initial, Value(b.multiplier), attempt - 1))
      case Unknown(_) => Truncate(Product(f, b.initial, 2.0, attempt - 1));
    if delay > b.max then b.max else delay
  }

  // The settings the documentation speaks of.
  predicate Ordinary(b: Backoff) {
    0 <= b.initial && 0 <= b.max && Base(b) >= 1.0
  }

  // ----- Range and order, however it rounds -----

  lemma ProductGrows(f: Floats, initial: Duration, base: real, m: int, n: int)
    requires Admissible(f) && initial >= 0 && base >= 1.0 && m <= n
    ensures 0.0 <= Product(f, initial, base, m) <= Product(f, initial, base, n)
  {
    var i, p, q := f.round(initial as real), f.pow(base, m), f.pow(base, n);
    assert i >= 0.0 by {
      RoundKeepsOrder(f.round, 0.0, initial as real);
    }
    TimesGrows(i, 0.0, p);
    TimesGrows(i, p, q);
    RoundKeepsOrder(f.round, Times(i, p), Times(i, q));
  }

  lemma UncappedGrows(f: Floats, m: int, n: int, b: Backoff)
    requires Admissible(f) && Ordinary(b) && 0 <= m <= n
    ensures 0.0 <= Uncapped(f, m, b) <= Uncapped(f, n, b)
  {
    if ByPower(b) {
      ProductGrows(f, b.initial, Base(b), m - 1, n - 1);
    } else {
      Multiples(m, n, b.initial);
    }
  }

  lemma Multiples(m: int, n: int, d: int)
    requires 0 <= m <= n && d >= 0
    ensures 0 <= m * d <= n * d
  {
    assert (n - m) * d >= 0;
  }

  // Every strategy is "convert, then cap".
  lemma ConvertedThenCapped(f: Floats, attempt: int, b: Backoff)
    requires Fits(f, attempt, b)
    ensures var v := Truncate(Uncapped(f, attempt, b));
            CalculateBackoff(f, attempt, b) == if v <= b.max then v else b.max
  {
    TruncateInt(b.initial);
    TruncateInt(attempt * b.initial);
  }

  // Strategy by strategy: the initial delay, that times the attempt, or that times the multiplier (two, for an
  // unknown strategy) to the attempt less one; and the maximum where that is larger.
  lemma DelayByStrategy(f: Floats, attempt: int, b: Backoff)
    requires Fits(f, attempt, b)
    ensures b.strategy == Constant ==> CalculateBackoff(f, attempt, b) == if b.initial <= b.max then b.initial else b.max
    ensures b.strategy == Linear ==>
              CalculateBackoff(f, attempt, b) == if attempt * b.initial <= b.max then attempt * b.initial else b.max
    ensures b.strategy == Exponential || b.strategy.Unknown? ==>
              var base := if b.strategy == Exponential then Value(b.multiplier) else 2.0;
              var v := Truncate(f.round(Times(f.round(b.initial as real), f.pow(base, attempt - 1))));
              CalculateBackoff(f, attempt, b) == if v <= b.max then v else b.max
  {
  }

  // Attempt 0 included: a Retry that resets the attempts may come between a claim and its late Fail.
  lemma BackoffInRange(f: Floats, attempt: int, b: Backoff)
    requires Admissible(f) && Ordinary(b) && attempt >= 0 && Fits(f, attempt, b)
    ensures 0 <= CalculateBackoff(f, attempt, b) <= b.max
  {
    ConvertedThenCapped(f, attempt, b);
    UncappedGrows(f, attempt, attempt, b);
    TruncateGrows(0.0, Uncapped(f, attempt, b));
  }

  // It never decreases with the attempt, and stays at the cap once it is there.
  lemma BackoffNeverDecreases(f: Floats, m: int, n: int, b: Backoff)
    requires Admissible(f) && Ordinary(b) && 0 <= m <= n && Fits(f, n, b)
    ensures Fits(f, m, b) && CalculateBackoff(f, m, b) <= CalculateBackoff(f, n, b)
    ensures CalculateBackoff(f, m, b) == b.max ==> CalculateBackoff(f, n, b) == b.max
  {
    UncappedGrows(f, m, n, b);
    ConvertedThenCapped(f, m, b);
    ConvertedThenCapped(f, n, b);
    TruncateGrows(Uncapped(f, m, b), Uncapped(f, n, b));
  }

  // ----- When the result is the truncated real value -----

  // The value without any rounding.
  function Exact(attempt: int, b: Backoff): real
    requires Base(b) >= 1.0
  {
    match b.strategy
    case Constant => b.initial as real
    case Linear => (attempt * b.initial) as real
    case _ => ExactProduct(b.initial, Base(b), attempt - 1)
  }

  function ExactProduct(initial: Duration, base: real, e: int): real
    requires base >= 1.0
  {
    Times(initial as real, RealPower(base, e))
  }

  lemma ExactIsPositive(attempt: int, b: Backoff)
    requires ByPower(b) && b.initial >= 0 && Base(b) >= 1.0
    ensures Exact(attempt, b) >= 0.0
  {
    TimesGrows(b.initial as real, 0.0, RealPower(Base(b), attempt - 1));
  }

  // With a duration and a power that are float64s, the delay before the cap is the truncated real value
  // if and only if the last of the 53 bits of the product is fine enough for its integer part.
  lemma TruncatesExactlyIff(f: Floats, attempt: int, b: Backoff)
    requires RoundsToNearest(f.round) && Raises(f.pow) && ByPower(b) && b.initial >= 0 && Base(b) >= 1.0
    requires Representable(b.initial as real) && Representable(RealPower(Base(b), attempt - 1))
    ensures Exact(attempt, b) >= 0.0
    ensures Truncate(Uncapped(f, attempt, b)) == Truncate(Exact(attempt, b)) <==> KeepsIntegerPart(Exact(attempt, b))
  {
    ExactIsPositive(attempt, b);
    OnlyTheProductRounds(f, attempt, b);
    IntegerPartKeptIff(f.round, Exact(attempt, b));
  }

  // As at the first and the second attempt, whatever the multiplier.
  lemma EarlyPowersAreFloats(b: Backoff)
    requires Base(b) >= 1.0 && -TWO_53 <= b.multiplier.num <= TWO_53
    ensures Representable(RealPower(Base(b), 0)) && Representable(RealPower(Base(b), 1))
  {
    IntegerIsFloat(1);
    IntegerIsFloat(2);
    assert Power(Base(b), 1) == Base(b) * Power(Base(b), 0);
    ValueIsFloat(b.multiplier);
  }

  lemma ValueIsFloat(f: Float64)
    requires -TWO_53 <= f.num <= TWO_53
    ensures Representable(Value(f))
  {
    Quotient(f.num as real, Pow2(f.scale) as real);
    var scale: int := f.scale;
    assert Scaled(Value(f), TWO_53, f.num, -scale);
  }

  lemma Quotient(x: real, y: real)
    requires y > 0.0
    ensures x / y == Times(x, 1.0 / y)
  {
  }

  lemma OnlyTheProductRounds(f: Floats, attempt: int, b: Backoff)
    requires RoundsToNearest(f.round) && Raises(f.pow) && ByPower(b) && Base(b) >= 1.0
    requires Representable(b.initial as real) && Representable(RealPower(Base(b), attempt - 1))
    ensures Uncapped(f, attempt, b) == f.round(Exact(attempt, b))
  {
    NearestRounds(f.round);
    ProductOfFloats(f, b.initial, Base(b), attempt - 1);
  }

  lemma ProductOfFloats(f: Floats, initial: Duration, base: real, e: int)
    requires Admissible(f) && base >= 1.0 && Representable(initial as real) && Representable(RealPower(base, e))
    ensures Product(f, initial, base, e) == f.round(ExactProduct(initial, base, e))
  {
    assert f.round(initial as real) == initial as real && f.pow(base, e) == RealPower(base, e);
  }

  // ----- The default settings -----

  predicate Doubling(b: Backoff) {
    b.initial == SECOND && (b.strategy.Unknown? || (b.strategy == Exponential && b.multiplier == Float64(2, 0)))
  }

  // One second doubled is computed without any rounding, and fits int64 exactly up to attempt 34.
  lemma DoublingFits(f: Floats, attempt: int, b: Backoff)
    requires Admissible(f) && Doubling(b) && attempt >= 0
    ensures Uncapped(f, attempt, b) == Times(SECOND as real, TwoTo(attempt - 1))
    ensures Fits(f, attempt, b) <==> attempt <= 34
  {
    assert Base(b) == 2.0;
    DoubledSecond(f, attempt - 1);
    SecondsInRange(attempt - 1);
  }

  lemma SecondsInRange(e: int)
    ensures 0.0 <= Times(SECOND as real, TwoTo(e))
    ensures Times(SECOND as real, TwoTo(e)) < INT64_LIMIT as real <==> e <= 33
  {
    Pow2Constants();
    if e <= 33 {
      TwoToGrows(e, 33);
    } else {
      TwoToGrows(34, e);
    }
  }

  lemma DoubledSecond(f: Floats, e: int)
    requires Admissible(f)
    ensures Product(f, SECOND, 2.0, e) == Times(SECOND as real, TwoTo(e))
  {
    PowerOfTwo(e);
    IntegerIsFloat(SECOND);
    assert TwoTo(e) == Times(1 as real, TwoTo(e));
    ScaledIsFloat(1, e);
    ProductOfFloats(f, SECOND, 2.0, e);
    ScaledIsFloat(SECOND, e);
  }
}
