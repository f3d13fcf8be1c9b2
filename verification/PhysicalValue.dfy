/**
 * Physical values of ISO 15118-2: a 16-bit number and a power of ten. A value that is too large is
 * divided by ten until it fits.
 */
module PhysicalValues {
  const INT16_MAX := 32767
  const INT16_MIN := -32768
  const PHY_VALUE_MULT_MIN := -3
  const PHY_VALUE_MULT_MAX := 3

  predicate Fits(v: int) {
    INT16_MIN <= v <= INT16_MAX
  }

  function Abs(v: int): nat {
    if v < 0 then -v else v
  }

  /** Division as the machine does it, toward zero. */
  function Quotient(v: int, d: int): int
    requires d > 0
  {
    if v >= 0 then v / d else -(-v / d)
  }

  function Power10(m: nat): (p: nat)
    ensures p >= 1
  {
    if m == 0 then 1 else 10 * Power10(m - 1)
  }

  /** Dividing by ten again and again. */
  function Divided(v: int, m: nat): int
    decreases m
  {
    if m == 0 then v else Divided(Quotient(v, 10), m - 1)
  }

  lemma DividedTwice(v: nat, p: int)
    requires p > 0
    ensures v / 10 / p == v / (10 * p)
  {
    var q := v / 10 / p;
    var r, s := v / 10 % p, v % 10;
    assert v == 10 * (v / 10) + s && v / 10 == p * q + r;
    assert v == 10 * p * q + (10 * r + s) by {
      assert 10 * (p * q) == 10 * p * q;
    }
    assert 0 <= 10 * r + s < 10 * p;
    UniqueQuotient(v, 10 * p, q, 10 * r + s);
  }

  lemma UniqueQuotient(v: nat, d: int, q: int, r: int)
    requires d > 0 && v == d * q + r && 0 <= r < d
    ensures v / d == q
  {
    var e := v / d - q;
    assert d * e == r - v % d by {
      assert v == d * (v / d) + v % d && d * e == d * (v / d) - d * q;
    }
    assert e >= 1 ==> d * e >= d;
    assert e <= -1 ==> d * e <= -d;
  }

  /** Repeated truncation by ten is one truncation by a power of ten. */
  lemma {:induction false} DividedIsQuotient(v: int, m: nat)
    ensures Divided(v, m) == Quotient(v, Power10(m))
    decreases m
  {
    if m == 0 {
    } else {
      DividedIsQuotient(Quotient(v, 10), m - 1);
      DividedTwice(Abs(v), Power10(m - 1));
    }
  }

  /** A number that fits still fits when divided. */
  lemma {:induction false} FitsOnwards(v: int, m: nat)
    requires Fits(v)
    ensures Fits(Divided(v, m))
    decreases m
  {
    if m > 0 {
      FitsOnwards(Quotient(v, 10), m - 1);
    }
  }

  lemma {:induction false} DividedSplits(v: int, m: nat, n: nat)
    ensures Divided(Divided(v, m), n) == Divided(v, m + n)
    decreases m
  {
    if m > 0 {
      DividedSplits(Quotient(v, 10), m - 1, n);
    }
  }

  /** The least power of ten that makes a number fit. */
  predicate Least(v: int, m: nat) {
    Fits(Quotient(v, Power10(m))) && (m > 0 ==> !Fits(Quotient(v, Power10(m - 1))))
  }

  /** Nothing below the least one fits, and everything above does. */
  lemma LeastIsLeast(v: int, m: nat, n: nat)
    requires Least(v, m)
    ensures Fits(Quotient(v, Power10(n))) <==> n >= m
  {
    DividedIsQuotient(v, m);
    DividedIsQuotient(v, n);
    if n >= m {
      DividedSplits(v, m, n - m);
      FitsOnwards(Divided(v, m), n - m);
    } else {
      DividedIsQuotient(v, m - 1);
      if Fits(Divided(v, n)) {
        DividedSplits(v, n, m - 1 - n);
        FitsOnwards(Divided(v, n), m - 1 - n);
        assert false;
      }
    }
  }

  /** The value that a receiver computes. */
  function CalcPhysicalValue(value: int, multiplier: nat): int {
    value * Power10(multiplier)
  }

  datatype Unit = Hour | Minute | Second | Ampere | Volt | Watt | WattHour

  class PhysicalValue {
    var multiplier: int
    var unit: Unit
    var value: int

    constructor (unit: Unit)
      ensures multiplier == 0 && this.unit == unit && value == 0
    {
      multiplier, this.unit, value := 0, unit, 0;
    }

    /** Takes a value if three divisions by ten are enough; otherwise everything stays as it was. */
    method Populate(v: int, u: Unit) returns (ok: bool)
      modifies this
      ensures ok <==> Fits(Quotient(v, 1000))
      ensures ok ==> 0 <= multiplier <= 3 && -32768 <= value <= 32767
      ensures ok ==> Least(v, multiplier) && value == Quotient(v, Power10(multiplier)) && unit == u
      ensures !ok ==> multiplier == old(multiplier) && unit == old(unit) && value == old(value)
    {
      var multiplier0, unit0, value0 := multiplier, unit, value;
      unit := u;
      multiplier := 0;
      var left := v;
      DividedIsQuotient(v, 0);
      while left > INT16_MAX || left < INT16_MIN
        invariant multiplier >= 0 && unit == u && value == value0
        invariant left == Divided(v, multiplier) == Quotient(v, Power10(multiplier))
        invariant multiplier > 0 ==> !Fits(Quotient(v, Power10(multiplier - 1)))
        decreases Abs(left)
      {
        DividedSplits(v, multiplier, 1);
        DividedIsQuotient(v, multiplier + 1);
        assert Divided(left, 1) == Quotient(left, 10);
        multiplier := multiplier + 1;
        left := Quotient(left, 10);
      }
      LeastIsLeast(v, multiplier, 3);
      assert Power10(3) == 1000;
      if multiplier < PHY_VALUE_MULT_MIN || multiplier > PHY_VALUE_MULT_MAX {
        multiplier, unit, value := multiplier0, unit0, value0;
        return false;
      }
      value := left;
      return true;
    }
  }

  /** The values that three divisions by ten bring into 16 bits. */
  lemma TakenExactly(v: int)
    ensures Fits(Quotient(v, 1000)) <==> -32768999 <= v <= 32767999
  {
    QuotientBounds(Abs(v), 1000);
  }

  lemma QuotientBounds(n: nat, d: int)
    requires d > 0
    ensures n / d * d <= n < n / d * d + d
  {
    assert n == d * (n / d) + n % d;
  }

  lemma AbsOfQuotient(v: int, d: int)
    requires d > 0
    ensures Abs(Quotient(v, d)) == Abs(v) / d
  {
    QuotientBounds(Abs(v), d);
  }

  lemma AbsOfProduct(q: int, p: nat)
    ensures Abs(q * p) == Abs(q) * p
  {
    if q < 0 {
      assert q * p <= 0 && -(q * p) == (-q) * p;
    }
  }

  lemma SignOfProduct(q: int, p: nat)
    ensures (q >= 0 ==> q * p >= 0) && (q <= 0 ==> q * p <= 0)
  {
  }

  /** A number that does not fit when divided is large. */
  lemma TooLarge(v: int, p: int)
    requires p > 0 && !Fits(Quotient(v, p))
    ensures Abs(v) >= 32768 * p
  {
    AbsOfQuotient(v, p);
    QuotientBounds(Abs(v), p);
    assert Abs(v) / p * p >= 32768 * p;
  }

  /**
   * What is encoded is never larger than what was given, is less than one unit of its last digit
   * smaller, and is exact or wrong by less than one part in 3276.
   */
  lemma EncodingIsClose(v: int, m: nat)
    requires Least(v, m)
    ensures var decoded := CalcPhysicalValue(Quotient(v, Power10(m)), m);
      && Abs(decoded) <= Abs(v) < Abs(decoded) + Power10(m)
      && (v >= 0 ==> decoded >= 0) && (v <= 0 ==> decoded <= 0) && (m == 0 ==> decoded == v)
      && (m > 0 ==> (Abs(v) - Abs(decoded)) * 3276 < Abs(v))
  {
    var p := Power10(m);
    AbsOfQuotient(v, p);
    AbsOfProduct(Quotient(v, p), p);
    QuotientBounds(Abs(v), p);
    SignOfProduct(Quotient(v, p), p);
    if m > 0 {
      TooLarge(v, Power10(m - 1));
    }
  }
}
