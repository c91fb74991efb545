// Rounding to the nearest float64, ties to even: what it gives, that there is such a rounding, and
// exactly when it leaves the integer part of a value alone.
module NearestEven {
  import opened Float64Math

  function Distance(x: real, y: real): real {
    if x <= y then y - x else x - y
  }

  // A float64 that none is closer to x than, and if another is as close, the even one of the two.
  ghost predicate IsNearest(r: real, x: real) {
    && Representable(r)
    && (forall y :: Representable(y) ==> Distance(r, x) <= Distance(y, x))
    && (forall y :: Representable(y) && y != r && Distance(y, x) == Distance(r, x) ==> EvenFloat(r))
  }

  // roundTiesToEven of IEEE 754 (section 4.3.1), with exponents that have no bounds.
  ghost predicate RoundsToNearest(round: real -> real) {
    forall x :: IsNearest(round(x), x)
  }

  lemma NearestRounds(round: real -> real)
    requires RoundsToNearest(round)
    ensures Rounds(round)
  {
    forall x | Representable(x) ensures round(x) == x {
      assert Distance(round(x), x) <= Distance(x, x);
    }
    forall x, y | x <= y ensures round(x) <= round(y) {
      assert Distance(round(x), x) <= Distance(round(y), x);
      assert Distance(round(y), y) <= Distance(round(x), y);
    }
  }

  // ----- The float64s around a value -----

  lemma UnitsMove(n: real, j: int, e: int)
    ensures Times(n, TwoTo(j)) == Times(Times(n, TwoTo(j - e)), TwoTo(e))
  {
    TwoToAdds(j - e, e);
    Regroups(n, TwoTo(j - e), TwoTo(e));
  }

  lemma Regroups(x: real, y: real, z: real)
    ensures Times(x, Times(y, z)) == Times(Times(x, y), z)
  {
  }

  lemma SameUnits(x: real, y: real, u: real)
    requires u > 0.0
    ensures Times(x, u) == Times(y, u) ==> x == y
    ensures Times(x, u) < Times(y, u) <==> x < y
  {
    assert (y - x) * u == Times(y, u) - Times(x, u);
    if x < y {
      assert (y - x) * u > 0.0;
    } else {
      assert (x - y) * u >= 0.0;
    }
  }

  lemma WholeUnits(n: int, d: nat)
    ensures Times(n as real, TwoTo(d)) == (n * Pow2(d)) as real
  {
  }

  lemma SmallUnits(n: int, limit: nat, d: int)
    requires -2 * limit <= n <= 2 * limit && d < 0
    ensures Times(n as real, TwoTo(d)) <= limit as real
  {
    TwoToGrows(d, -1);
    assert TwoTo(-1) == 0.5 by {
      assert Pow2(1) == 2 * Pow2(0);
    }
    if n > 0 {
      TimesGrows(n as real, TwoTo(d), 0.5);
    } else {
      TimesGrows(-n as real, 0.0, TwoTo(d));
      assert Times(-n as real, TwoTo(d)) == -Times(n as real, TwoTo(d));
    }
  }

  // Beyond `limit` units, a value with twice that significand is a whole number of units.
  lemma OnTheGrid(y: real, limit: nat, units: real, e: int) returns (whole: int)
    requires Significant(y, 2 * limit) && y == Times(units, TwoTo(e)) && units > limit as real
    ensures units == whole as real
  {
    var n: int, j: int :| Scaled(y, 2 * limit, n, j);
    UnitsMove(n as real, j, e);
    SameUnits(units, Times(n as real, TwoTo(j - e)), TwoTo(e));
    if j < e {
      SmallUnits(n, limit, j - e);
    } else {
      WholeUnits(n, j - e);
      whole := n * Pow2(j - e);
    }
  }

  lemma OddHalf(n: int, whole: int)
    requires n % 2 == 1
    ensures n as real / 2.0 != whole as real
  {
    assert n != 2 * whole;
  }

  // An odd significand that needs all 53 bits.
  lemma OddIsNotEven(n: int, e: int)
    requires TWO_52 < n && n % 2 == 1
    ensures !EvenFloat(Times(n as real, TwoTo(e)))
  {
    var y := Times(n as real, TwoTo(e));
    if EvenFloat(y) {
      TwoToNext(e);
      var half := n as real / 2.0;
      var whole := OnTheGrid(y, TWO_52 / 2, half, e + 1);
      OddHalf(n, whole);
    }
  }

  lemma EvenIsEven(n: int, e: int)
    requires -TWO_53 <= n <= TWO_53 && n % 2 == 0
    ensures EvenFloat(Times(n as real, TwoTo(e)))
  {
    TwoToNext(e);
    assert Times(n as real, TwoTo(e)) == Times((n / 2) as real, TwoTo(e + 1));
    assert Scaled(Times(n as real, TwoTo(e)), TWO_52, n / 2, e + 1);
  }

  // ----- What rounding to nearest gives -----

  // A number of units of the last of 53 bits, as a whole number of them.
  function HalfEven(units: real): int {
    var m := units.Floor;
    if units - m as real < 0.5 || (units - m as real == 0.5 && m % 2 == 0) then m else m + 1
  }

  lemma InUnits(y: real, u: real) returns (units: real)
    requires u > 0.0
    ensures y == Times(units, u)
  {
    units := y / u;
  }

  // No float64 lies strictly between two neighbours.
  lemma Neighbours(y: real, m: int, e: int)
    requires Representable(y) && m >= TWO_52
    ensures y <= Times(m as real, TwoTo(e)) || Times((m + 1) as real, TwoTo(e)) <= y
  {
    var units := InUnits(y, TwoTo(e));
    if m as real < units {
      var whole := OnTheGrid(y, TWO_52, units, e);
      NextWhole(m, whole);
    }
    InOrder(units, m as real, (m + 1) as real, TwoTo(e));
  }

  lemma NextWhole(m: int, n: int)
    requires (m as real) < n as real
    ensures (m + 1) as real <= n as real
  {
    assert m < n;
  }

  lemma InOrder(units: real, below: real, above: real, u: real)
    requires u > 0.0 && (units <= below || above <= units)
    ensures Times(units, u) <= Times(below, u) || Times(above, u) <= Times(units, u)
  {
    SameUnits(below, units, u);
    SameUnits(units, above, u);
  }

  lemma Nearer(round: real -> real, x: real, below: real, above: real)
    requires RoundsToNearest(round) && Representable(below) && Representable(above) && below < x < above
    requires round(x) <= below || above <= round(x)
    ensures x - below < above - x ==> round(x) == below
    ensures x - below > above - x ==> round(x) == above
    ensures x - below == above - x ==> (round(x) == below && EvenFloat(below)) || (round(x) == above && EvenFloat(above))
  {
    assert Distance(round(x), x) <= Distance(below, x) && Distance(round(x), x) <= Distance(above, x);
  }

  lemma Lengths(units: real, m: int, u: real)
    requires u > 0.0
    ensures units - m as real < 0.5 <==> Times(units, u) - Times(m as real, u) < Times((m + 1) as real, u) - Times(units, u)
    ensures units - m as real > 0.5 <==> Times(units, u) - Times(m as real, u) > Times((m + 1) as real, u) - Times(units, u)
  {
    SameUnits(units - m as real, (m + 1) as real - units, u);
    SameUnits((m + 1) as real - units, units - m as real, u);
    Differences(units, m as real, u);
    Differences((m + 1) as real, units, u);
  }

  lemma Differences(x: real, y: real, u: real)
    ensures Times(x - y, u) == Times(x, u) - Times(y, u)
  {
  }

  lemma Between(units: real, m: int, u: real)
    requires u > 0.0 && (m as real) < units < (m + 1) as real
    ensures Times(m as real, u) < Times(units, u) < Times((m + 1) as real, u)
  {
    SameUnits(m as real, units, u);
    SameUnits(units, (m + 1) as real, u);
  }

  // The choice between two neighbours, from their distances and their last bits.
  lemma Chosen(round: real -> real, x: real, below: real, above: real, part: real, even: bool)
    requires RoundsToNearest(round) && Representable(below) && Representable(above) && below < x < above
    requires round(x) <= below || above <= round(x)
    requires (part < 0.5 <==> x - below < above - x) && (part > 0.5 <==> x - below > above - x)
    requires if even then !EvenFloat(above) else !EvenFloat(below)
    ensures round(x) == if part < 0.5 || (part == 0.5 && even) then below else above
  {
    Nearer(round, x, below, above);
  }

  lemma OneIsOdd(m: int, e: int)
    requires TWO_52 <= m < TWO_53
    ensures if m % 2 == 0 then !EvenFloat(Times((m + 1) as real, TwoTo(e))) else !EvenFloat(Times(m as real, TwoTo(e)))
  {
    OddIsNotEven(if m % 2 == 0 then m + 1 else m, e);
  }

  // Both neighbours are float64s, and the result is not between them.
  lemma Surrounded(round: real -> real, x: real, m: int, e: int)
    requires RoundsToNearest(round) && TWO_52 <= m < TWO_53
    ensures var below, above := Times(m as real, TwoTo(e)), Times((m + 1) as real, TwoTo(e));
            Representable(below) && Representable(above) && (round(x) <= below || above <= round(x))
  {
    ScaledIsFloat(m, e);
    ScaledIsFloat(m + 1, e);
    Neighbours(round(x), m, e);
  }

  lemma RoundsBetween(round: real -> real, units: real, m: int, e: int)
    requires RoundsToNearest(round) && TWO_52 <= m < TWO_53 && (m as real) < units < (m + 1) as real
    ensures round(Times(units, TwoTo(e))) ==
            if units - m as real < 0.5 || (units - m as real == 0.5 && m % 2 == 0) then Times(m as real, TwoTo(e))
            else Times((m + 1) as real, TwoTo(e))
  {
    var x, below, above := Times(units, TwoTo(e)), Times(m as real, TwoTo(e)), Times((m + 1) as real, TwoTo(e));
    Surrounded(round, x, m, e);
    Between(units, m, TwoTo(e));
    Lengths(units, m, TwoTo(e));
    OneIsOdd(m, e);
    Chosen(round, x, below, above, units - m as real, m % 2 == 0);
  }

  // The value, cut to 53 bits.
  lemma RoundsByUnits(round: real -> real, units: real, e: int)
    requires RoundsToNearest(round) && TWO_52 as real <= units <= TWO_53 as real
    ensures round(Times(units, TwoTo(e))) == Times(HalfEven(units) as real, TwoTo(e))
  {
    var m := units.Floor;
    if units == m as real {
      ScaledIsFloat(m, e);
      NearestRounds(round);
    } else {
      RoundsBetween(round, units, m, e);
    }
  }

  // ----- When rounding leaves the integer part alone -----

  // How many of the 53 bits come after the point, just below n.
  function Precision(n: nat): (k: nat)
    requires 1 <= n <= TWO_53
    ensures TWO_52 < n * Pow2(k) <= TWO_53
    decreases TWO_53 - n
  {
    if n > TWO_52 then 0
    else
      var k := Precision(2 * n);
      assert n * (2 * Pow2(k)) == 2 * n * Pow2(k);
      k + 1
  }

  lemma {:induction false} Finer(n: nat, j: nat, k: nat)
    requires j < k
    ensures n * Pow2(k) >= 2 * (n * Pow2(j))
    decreases k
  {
    if j + 1 < k {
      Finer(n, j, k - 1);
    }
    assert n * Pow2(k) == 2 * (n * Pow2(k - 1));
  }

  lemma PrecisionIs(n: nat, k: nat)
    requires 1 <= n <= TWO_53 && TWO_52 < n * Pow2(k) <= TWO_53
    ensures Precision(n) == k
  {
    if k < Precision(n) {
      Finer(n, k, Precision(n));
    } else if Precision(n) < k {
      Finer(n, Precision(n), k);
    }
  }

  // Up to 2^53: the distance to the next integer is more than half of a last bit, or just half of it and
  // that integer is odd in its last bit. From there on: the integer part is a float64.
  ghost predicate KeepsIntegerPart(v: real)
    requires v >= 0.0
  {
    if v >= TWO_53 as real then Representable(v.Floor as real)
    else
      var n := v.Floor + 1;
      var halves := Times(n as real - v, TwoTo(Precision(n) + 1));
      halves > 1.0 || (halves == 1.0 && Precision(n) == 0 && n % 2 == 1)
  }

  lemma BackAgain(v: real, k: int)
    ensures v == Times(Times(v, TwoTo(k)), TwoTo(-k))
  {
    UnitsMove(v, 0, -k);
  }

  lemma WholeAgain(n: int, k: int)
    requires k >= 0
    ensures n as real == Times((n * Pow2(k)) as real, TwoTo(-k))
  {
    WholeUnits(n, k);
    BackAgain(n as real, k);
  }

  // The distance to n in halves of its last bit.
  lemma Halves(v: real, n: nat, k: int)
    requires k >= 0
    ensures Times(n as real - v, TwoTo(k + 1)) == 2.0 * ((n * Pow2(k)) as real - Times(v, TwoTo(k)))
  {
    TwoToNext(k);
    Doubled(n as real - v, TwoTo(k));
    Differences(n as real, v, TwoTo(k));
    WholeUnits(n, k);
  }

  lemma OddUnits(n: nat, k: nat)
    ensures (n * Pow2(k)) % 2 == 1 <==> n % 2 == 1 && k == 0
  {
    if k > 0 {
      assert n * Pow2(k) == 2 * (n * Pow2(k - 1));
    }
  }

  lemma HalfEvenBelow(units: real, n: int)
    requires (n - 1) as real <= units < n as real
    ensures HalfEven(units) == if n as real - units > 0.5 || (n as real - units == 0.5 && n % 2 == 1) then n - 1 else n
  {
    assert units.Floor == n - 1;
  }

  // A value within the last bit below n.
  lemma InLastBit(round: real -> real, v: real, n: nat, k: int)
    requires RoundsToNearest(round) && k >= 0 && TWO_52 < n * Pow2(k) <= TWO_53
    requires (n * Pow2(k) - 1) as real <= Times(v, TwoTo(k)) < (n * Pow2(k)) as real
    ensures var left := (n * Pow2(k)) as real - Times(v, TwoTo(k));
            round(v) == if left > 0.5 || (left == 0.5 && (n * Pow2(k)) % 2 == 1)
                        then Times((n * Pow2(k) - 1) as real, TwoTo(-k)) else n as real
  {
    BackAgain(v, k);
    WholeAgain(n, k);
    HalfEvenBelow(Times(v, TwoTo(k)), n * Pow2(k));
    RoundsByUnits(round, Times(v, TwoTo(k)), -k);
  }

  lemma OneLess(n: nat, k: int)
    requires k >= 0
    ensures (n - 1) as real <= Times((n * Pow2(k) - 1) as real, TwoTo(-k)) < n as real
  {
    WholeAgain(n, k);
    TwoToGrows(-k, 0);
    OneUnitLess((n * Pow2(k)) as real, n as real, TwoTo(-k));
  }

  lemma OneUnitLess(units: real, x: real, u: real)
    requires 0.0 < u <= 1.0 && Times(units, u) == x
    ensures x - 1.0 <= Times(units - 1.0, u) < x
  {
  }

  lemma WithinOne(x: real, n: int)
    requires n >= 1 && (n - 1) as real <= x < n as real
    ensures Truncate(x) == n - 1
  {
  }

  // Further below n than its last bit.
  lemma BelowTheLastBit(round: real -> real, v: real, n: nat, k: int)
    requires RoundsToNearest(round) && k >= 0 && TWO_52 < n * Pow2(k) <= TWO_53
    requires (n - 1) as real <= v && Times(v, TwoTo(k)) < (n * Pow2(k) - 1) as real
    ensures (n - 1) as real <= round(v) < n as real
  {
    var below := Times((n * Pow2(k) - 1) as real, TwoTo(-k));
    assert v <= below by {
      BackAgain(v, k);
      SameUnits(Times(v, TwoTo(k)), (n * Pow2(k) - 1) as real, TwoTo(-k));
    }
    assert below < n as real by {
      OneLess(n, k);
    }
    ScaledIsFloat(n * Pow2(k) - 1, -k);
    AtMostTheScaled(n, k);
    IntegerIsFloat(n - 1);
    NearestRounds(round);
    assert round((n - 1) as real) <= round(v) <= round(below);
  }

  lemma AtMostTheScaled(n: nat, k: int)
    requires k >= 0
    ensures n <= n * Pow2(k)
  {
    assert n * (Pow2(k) - 1) >= 0;
  }

  lemma BelowTheNextInteger(v: real, n: nat, k: int)
    requires k >= 0 && v < n as real
    ensures Times(v, TwoTo(k)) < (n * Pow2(k)) as real
  {
    WholeUnits(n, k);
    SameUnits(v, n as real, TwoTo(k));
  }

  lemma KeptInLastBit(round: real -> real, v: real, n: nat, k: int)
    requires RoundsToNearest(round) && n >= 1 && k >= 0 && TWO_52 < n * Pow2(k) <= TWO_53
    requires (n * Pow2(k) - 1) as real <= Times(v, TwoTo(k)) < (n * Pow2(k)) as real
    ensures var left := (n * Pow2(k)) as real - Times(v, TwoTo(k));
            if left > 0.5 || (left == 0.5 && (n * Pow2(k)) % 2 == 1) then Truncate(round(v)) == n - 1
            else round(v) == n as real
  {
    InLastBit(round, v, n, k);
    OneLess(n, k);
    WithinOne(Times((n * Pow2(k) - 1) as real, TwoTo(-k)), n);
  }

  lemma KeptInUnits(round: real -> real, v: real, n: nat, k: int)
    requires RoundsToNearest(round) && n >= 1 && k >= 0 && TWO_52 < n * Pow2(k) <= TWO_53
    requires (n - 1) as real <= v < n as real
    ensures var left := (n * Pow2(k)) as real - Times(v, TwoTo(k));
            if left > 0.5 || (left == 0.5 && (n * Pow2(k)) % 2 == 1) then Truncate(round(v)) == n - 1
            else round(v) == n as real
  {
    BelowTheNextInteger(v, n, k);
    if Times(v, TwoTo(k)) < (n * Pow2(k) - 1) as real {
      BelowTheLastBit(round, v, n, k);
      WithinOne(round(v), n);
    } else {
      KeptInLastBit(round, v, n, k);
    }
  }

  lemma SmallKept(round: real -> real, v: real)
    requires RoundsToNearest(round) && 0.0 <= v < TWO_53 as real
    ensures Truncate(round(v)) == Truncate(v) <==> KeepsIntegerPart(v)
    ensures !KeepsIntegerPart(v) ==> round(v) == (v.Floor + 1) as real
  {
    var n: nat := v.Floor + 1;
    KeptInUnits(round, v, n, Precision(n));
    InHalves(v, n);
    TruncateInt(n);
  }

  lemma InHalves(v: real, n: nat)
    requires 0.0 <= v < TWO_53 as real && n == v.Floor + 1
    ensures var units := n * Pow2(Precision(n));
            var left := units as real - Times(v, TwoTo(Precision(n)));
            KeepsIntegerPart(v) <==> left > 0.5 || (left == 0.5 && units % 2 == 1)
  {
    Halves(v, n, Precision(n));
    OddUnits(n, Precision(n));
  }

  // From 2^53 on every float64 is an even integer.
  lemma LargeIsEven(y: real) returns (half: int)
    requires Representable(y) && y >= TWO_53 as real
    ensures y == (2 * half) as real
  {
    if y == TWO_53 as real {
      half := TWO_52;
    } else {
      TwoToNext(0);
      half := OnTheGrid(y, TWO_52, y / 2.0, 1);
    }
  }

  lemma EvensApart(a: int, b: int, v: real)
    requires (2 * b) as real <= v < (2 * b + 1) as real && b <= a
    requires Distance((2 * a) as real, v) <= Distance((2 * b) as real, v)
    ensures a == b
  {
    assert a > b ==> (2 * a) as real >= (2 * b + 2) as real;
  }

  lemma LargeFloorKept(round: real -> real, v: real)
    requires RoundsToNearest(round) && v >= TWO_53 as real && Representable(v.Floor as real)
    ensures round(v) == v.Floor as real
  {
    NearestRounds(round);
    var floor := v.Floor as real;
    assert round(v) >= round(floor) == floor;
    var a := LargeIsEven(round(v));
    var b := LargeIsEven(floor);
    assert IsNearest(round(v), v);
    EvensApart(a, b, v);
  }

  lemma LargeIsWhole(round: real -> real, v: real) returns (whole: int)
    requires RoundsToNearest(round) && v >= TWO_53 as real
    ensures round(v) == whole as real && Representable(whole as real)
  {
    NearestRounds(round);
    IntegerIsFloat(TWO_53);
    assert round(v) >= round(TWO_53 as real);
    assert IsNearest(round(v), v);
    var half := LargeIsEven(round(v));
    whole := 2 * half;
  }

  lemma LargeKept(round: real -> real, v: real)
    requires RoundsToNearest(round) && v >= TWO_53 as real
    ensures Truncate(round(v)) == Truncate(v) <==> KeepsIntegerPart(v)
  {
    var whole := LargeIsWhole(round, v);
    TruncateInt(whole);
    if Representable(v.Floor as real) {
      LargeFloorKept(round, v);
      TruncateInt(v.Floor);
    }
  }

  lemma IntegerPartKeptIff(round: real -> real, v: real)
    requires RoundsToNearest(round) && v >= 0.0
    ensures Truncate(round(v)) == Truncate(v) <==> KeepsIntegerPart(v)
    ensures !KeepsIntegerPart(v) && v < TWO_53 as real ==> round(v) == (v.Floor + 1) as real
  {
    if v < TWO_53 as real {
      SmallKept(round, v);
    } else {
      LargeKept(round, v);
    }
  }

  // ----- There is such a rounding -----

  ghost predicate InPlace(x: real, e: int) {
    TWO_52 as real <= Times(x, TwoTo(e)) < TWO_53 as real
  }

  lemma {:induction false} MovedUp(x: real, e: int, n: nat) returns (f: int)
    requires Times(x, TwoTo(e)) < TWO_53 as real && Times(Times(x, TwoTo(e)), TwoTo(n)) >= TWO_52 as real
    ensures InPlace(x, f)
    decreases n
  {
    if Times(x, TwoTo(e)) >= TWO_52 as real {
      f := e;
    } else {
      Regroups(x, TwoTo(e), TwoTo(n));
      TwoToAdds(e, n);
      TwoToAdds(e + 1, n - 1);
      Regroups(x, TwoTo(e + 1), TwoTo(n - 1));
      TwoToNext(e);
      Doubled(x, TwoTo(e));
      f := MovedUp(x, e + 1, n - 1);
    }
  }

  lemma {:induction false} MovedDown(x: real, e: int, n: nat) returns (f: int)
    requires Times(x, TwoTo(e)) >= TWO_52 as real && x <= TwoTo(n - e)
    ensures InPlace(x, f)
    decreases n
  {
    if Times(x, TwoTo(e)) < TWO_53 as real {
      f := e;
    } else {
      assert n > 0 by {
        SameUnits(x, TwoTo(n - e), TwoTo(e));
        TwoToAdds(n - e, e);
      }
      TwoToNext(e - 1);
      Doubled(x, TwoTo(e - 1));
      f := MovedDown(x, e - 1, n - 1);
    }
  }

  lemma {:induction false} Pow2Exceeds(n: nat)
    ensures Pow2(n) > n
  {
    if n > 0 {
      Pow2Exceeds(n - 1);
    }
  }

  lemma LargeEnough(x: real) returns (n: nat)
    requires x > 0.0
    ensures Times(x, TwoTo(n)) >= TWO_52 as real
  {
    var q := TWO_52 as real / x;
    n := q.Floor + 1;
    Pow2Exceeds(n);
    TimesGrows(x, q, TwoTo(n));
  }

  lemma PlaceExists(x: real) returns (e: int)
    requires x > 0.0
    ensures InPlace(x, e)
  {
    if Times(x, TwoTo(0)) < TWO_53 as real {
      var n := LargeEnough(x);
      e := MovedUp(x, 0, n);
    } else {
      Pow2Exceeds(x.Floor + 1);
      e := MovedDown(x, 0, x.Floor + 1);
    }
  }

  ghost function Nearest(x: real): real {
    if x == 0.0 then 0.0
    else if x < 0.0 then -Rounded(-x)
    else Rounded(x)
  }

  ghost function Rounded(x: real): real
    requires x > 0.0
  {
    var e := Place(x);
    Times(HalfEven(Times(x, TwoTo(e))) as real, TwoTo(-e))
  }

  // How far to move a value for its 53 bits to be those before the point.
  ghost function Place(x: real): (e: int)
    requires x > 0.0
    ensures InPlace(x, e)
  {
    assert exists e :: InPlace(x, e) by {
      var e := PlaceExists(x);
    }
    var e :| InPlace(x, e);
    e
  }

  lemma NearerOfTwo(x: real, below: real, above: real, part: real, even: bool, y: real)
    requires below < x < above && (y <= below || above <= y)
    requires (part < 0.5 <==> x - below < above - x) && (part > 0.5 <==> x - below > above - x)
    ensures var r := if part < 0.5 || (part == 0.5 && even) then below else above;
            && Distance(r, x) <= Distance(y, x)
            && (y != r && Distance(y, x) == Distance(r, x) ==> part == 0.5)
  {
  }

  lemma NearerIsNearest(x: real, below: real, above: real, part: real, even: bool)
    requires Representable(below) && Representable(above) && below < x < above
    requires forall y :: Representable(y) ==> y <= below || above <= y
    requires (part < 0.5 <==> x - below < above - x) && (part > 0.5 <==> x - below > above - x)
    requires EvenFloat(if even then below else above)
    ensures IsNearest(if part < 0.5 || (part == 0.5 && even) then below else above, x)
  {
    var r := if part < 0.5 || (part == 0.5 && even) then below else above;
    forall y | Representable(y)
      ensures Distance(r, x) <= Distance(y, x)
      ensures y != r && Distance(y, x) == Distance(r, x) ==> EvenFloat(r)
    {
      NearerOfTwo(x, below, above, part, even, y);
    }
  }

  lemma NoneBetween(m: int, e: int)
    requires TWO_52 <= m < TWO_53
    ensures var below, above := Times(m as real, TwoTo(e)), Times((m + 1) as real, TwoTo(e));
            forall y :: Representable(y) ==> y <= below || above <= y
  {
    forall y | Representable(y)
      ensures y <= Times(m as real, TwoTo(e)) || Times((m + 1) as real, TwoTo(e)) <= y
    {
      Neighbours(y, m, e);
    }
  }

  lemma BothAreFloats(m: int, e: int)
    requires TWO_52 <= m < TWO_53
    ensures var below, above := Times(m as real, TwoTo(e)), Times((m + 1) as real, TwoTo(e));
            Representable(below) && Representable(above) && EvenFloat(if m % 2 == 0 then below else above)
  {
    ScaledIsFloat(m, e);
    ScaledIsFloat(m + 1, e);
    if m % 2 == 0 {
      EvenIsEven(m, e);
    } else {
      EvenIsEven(m + 1, e);
    }
  }

  lemma BetweenIsNearest(units: real, m: int, e: int)
    requires TWO_52 <= m < TWO_53 && (m as real) < units < (m + 1) as real
    ensures IsNearest(if units - m as real < 0.5 || (units - m as real == 0.5 && m % 2 == 0) then Times(m as real, TwoTo(e))
                      else Times((m + 1) as real, TwoTo(e)), Times(units, TwoTo(e)))
  {
    NoneBetween(m, e);
    BothAreFloats(m, e);
    Between(units, m, TwoTo(e));
    Lengths(units, m, TwoTo(e));
    NearerIsNearest(Times(units, TwoTo(e)), Times(m as real, TwoTo(e)), Times((m + 1) as real, TwoTo(e)),
                    units - m as real, m % 2 == 0);
  }

  lemma ItselfIsNearest(x: real)
    requires Representable(x)
    ensures IsNearest(x, x)
  {
  }

  lemma RoundedIsNearest(x: real)
    requires x > 0.0
    ensures IsNearest(Rounded(x), x)
  {
    var e := Place(x);
    var units := Times(x, TwoTo(e));
    BackAgain(x, e);
    var m := units.Floor;
    if units == m as real {
      ScaledIsFloat(m, -e);
      ItselfIsNearest(x);
    } else {
      BetweenIsNearest(units, m, -e);
    }
  }

  lemma Negated(n: int, u: real)
    ensures Times(-n as real, u) == -Times(n as real, u)
  {
    Differences(0.0, n as real, u);
  }

  lemma MirrorSignificant(x: real, limit: nat)
    requires Significant(x, limit)
    ensures Significant(-x, limit)
  {
    var n: int, e: int :| Scaled(x, limit, n, e);
    Negated(n, TwoTo(e));
    assert Scaled(-x, limit, -n, e);
  }

  lemma MirrorIsNearest(r: real, x: real)
    requires IsNearest(r, x)
    ensures IsNearest(-r, -x)
  {
    MirrorSignificant(r, TWO_53);
    forall y | Representable(y)
      ensures Distance(-r, -x) <= Distance(y, -x)
      ensures y != -r && Distance(y, -x) == Distance(-r, -x) ==> EvenFloat(-r)
    {
      MirrorSignificant(y, TWO_53);
      if EvenFloat(r) {
        MirrorSignificant(r, TWO_52);
      }
      assert Distance(r, x) <= Distance(-y, x);
    }
  }

  lemma NearestIsNearest()
    ensures RoundsToNearest(Nearest)
  {
    forall x: real ensures IsNearest(Nearest(x), x) {
      if x == 0.0 {
        IntegerIsFloat(0);
        ItselfIsNearest(0.0);
      } else if x < 0.0 {
        RoundedIsNearest(-x);
        MirrorIsNearest(Rounded(-x), -x);
      } else {
        RoundedIsNearest(x);
      }
    }
  }

  function ExactPower(b: real, e: int): real {
    if b >= 1.0 then RealPower(b, e) else 0.0
  }

  lemma SuchFloatsExist()
    ensures exists f: Floats :: RoundsToNearest(f.round) && Raises(f.pow)
  {
    NearestIsNearest();
    forall b, m, n | b >= 1.0 && m <= n ensures 0.0 <= ExactPower(b, m) <= ExactPower(b, n) {
      RealPowerGrows(b, m, n);
    }
    var f := Floats(Nearest, ExactPower);
    assert RoundsToNearest(f.round) && Raises(f.pow);
  }
}
