// Two delays just below an integer: one that rounding moves, and one that it does not (scheduler/scheduler.go).
module SlantedDelay {
  import opened Core
  import opened BackoffDelay
  import opened Float64Math
  import opened NearestEven

  // One second, and a multiplier of 52 bits after the point.
  function Second(num: int): Backoff {
    Backoff(Exponential, SECOND, HOUR, Float64(num, 52))
  }

  // The float64 that is written 1.7, and the one just below that written 1.1.
  const SLANTED := Second(7_656_119_366_529_843)
  const UPRIGHT := Second(4_953_959_590_107_545)

  lemma MultiplierIsFloat(num: int)
    requires TWO_52 <= num <= TWO_53
    ensures Base(Second(num)) >= 1.0 && Base(Second(num)) == num as real / 4_503_599_627_370_496.0
    ensures Representable(RealPower(Base(Second(num)), 1)) && Representable(SECOND as real)
  {
    Pow2Constants();
    EarlyPowersAreFloats(Second(num));
    IntegerIsFloat(SECOND);
  }

  lemma SecondAttempt(num: int)
    requires TWO_52 <= num <= TWO_53
    ensures Base(Second(num)) >= 1.0
    ensures Exact(2, Second(num)) == 1_000_000_000.0 * num as real / 4_503_599_627_370_496.0
  {
    MultiplierIsFloat(num);
    var base := Base(Second(num));
    assert Power(base, 1) == base * Power(base, 0);
  }

  lemma SlantedKept()
    ensures Base(SLANTED) >= 1.0 && 0.0 <= Exact(2, SLANTED) && Truncate(Exact(2, SLANTED)) == 1_699_999_999
    ensures !KeepsIntegerPart(Exact(2, SLANTED))
  {
    SecondAttempt(7_656_119_366_529_843);
    Pow2Constants();
    var v := Exact(2, SLANTED);
    assert v.Floor == 1_699_999_999;
    PrecisionIs(1_700_000_000, 22);
    assert Times(1_700_000_000.0 - v, TwoTo(23)) < 1.0;
  }

  lemma UprightKept()
    ensures Base(UPRIGHT) >= 1.0 && 0.0 <= Exact(2, UPRIGHT) && Truncate(Exact(2, UPRIGHT)) == 1_099_999_999
    ensures KeepsIntegerPart(Exact(2, UPRIGHT))
  {
    SecondAttempt(4_953_959_590_107_545);
    Pow2Constants();
    var v := Exact(2, UPRIGHT);
    assert v.Floor == 1_099_999_999;
    PrecisionIs(1_100_000_000, 22);
    assert Times(1_100_000_000.0 - v, TwoTo(23)) > 1.0;
  }

  // The second delay of a job with one second and 1.7 is a nanosecond more than the truncated real value.
  lemma RoundingShows(f: Floats)
    requires RoundsToNearest(f.round) && Raises(f.pow)
    ensures Base(SLANTED) >= 1.0 && Truncate(Exact(2, SLANTED)) == 1_699_999_999
    ensures Fits(f, 2, SLANTED) && CalculateBackoff(f, 2, SLANTED) == 1_700_000_000
  {
    SlantedKept();
    MultiplierIsFloat(7_656_119_366_529_843);
    OnlyTheProductRounds(f, 2, SLANTED);
    IntegerPartKeptIff(f.round, Exact(2, SLANTED));
    TruncateInt(1_700_000_000);
  }

  // With a multiplier just below 1.1 the next integer is less than a last bit away as well, but more than
  // half of one: the delay is the truncated real value.
  lemma RoundingDoesNotShow(f: Floats)
    requires RoundsToNearest(f.round) && Raises(f.pow)
    ensures Base(UPRIGHT) >= 1.0 && Truncate(Exact(2, UPRIGHT)) == 1_099_999_999
    ensures Fits(f, 2, UPRIGHT) && CalculateBackoff(f, 2, UPRIGHT) == 1_099_999_999
  {
    UprightKept();
    MultiplierIsFloat(4_953_959_590_107_545);
    OnlyTheProductRounds(f, 2, UPRIGHT);
    IntegerPartKeptIff(f.round, Exact(2, UPRIGHT));
    InRange(Uncapped(f, 2, UPRIGHT));
  }

  lemma InRange(x: real)
    ensures Truncate(x) == 1_099_999_999 ==> 1_099_999_999.0 <= x < 1_100_000_000.0
  {
  }
}
