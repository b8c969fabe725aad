/** Enough of IEEE 754 binary64 arithmetic (Python's `float`) to follow one
    conversion and one multiplication exactly. A finite double is kept as the
    exact fraction `num / den` it stands for; rounding is to nearest, ties to
    even, with a 53-bit significand. Subnormals, infinities and overflow are not
    modelled: the values here are money amounts far inside the normal range. */
module Floats {
  /** 2 to the power `n`, by repeated squaring. */
  function Pow2(n: nat): (r: nat)
    ensures r >= 1
  {
    if n == 0 then 1
    else
      var h := Pow2(n / 2);
      if n % 2 == 0 then h * h else 2 * h * h
  }

  /** The integer part of the base-2 logarithm of `n`. */
  function Log2(n: nat): nat
    requires n >= 1
  {
    if n < 2 then 0
    else if n >= 0x1_0000_0000 then 32 + Log2(n / 0x1_0000_0000)
    else if n >= 0x1_0000 then 16 + Log2(n / 0x1_0000)
    else if n >= 0x100 then 8 + Log2(n / 0x100)
    else if n >= 0x10 then 4 + Log2(n / 0x10)
    else 1 + Log2(n / 2)
  }

  /** `num / den` rounded to the nearest integer, a tie going to the even one. */
  function RoundHalfEven(num: nat, den: nat): nat
    requires den >= 1
  {
    var q := num / den;
    var r := num % den;
    if 2 * r > den || (2 * r == den && q % 2 == 1) then q + 1 else q
  }

  /** `a / b` is at least 2 to the power `k`. */
  function AtLeastScaled(a: nat, b: nat, k: int): bool
  {
    if k >= 0 then Pow2(k) * b <= a else b <= a * Pow2(-k)
  }

  /** The power `e` for which `a / b * 2^e` lies in [2^52, 2^53): the scale at
      which the 53-bit significand of `a / b` is an integer. */
  function DoubleExponent(a: nat, b: nat): int
    requires a >= 1 && b >= 1
  {
    var k0 := Log2(a) as int - Log2(b) as int;
    52 - (if AtLeastScaled(a, b, k0) then k0 else k0 - 1)
  }

  /** The double nearest to the positive fraction `a / b`, as an exact fraction. */
  function RoundDouble(a: nat, b: nat): (r: (nat, nat))
    requires a >= 1 && b >= 1
    ensures r.1 >= 1
  {
    var e := DoubleExponent(a, b);
    if e >= 0 then (RoundHalfEven(a * Pow2(e), b), Pow2(e))
    else (RoundHalfEven(a, b * Pow2(-e)) * Pow2(-e), 1)
  }

  /** Python's `int(x)` on a non-negative double: the integer part. */
  function Truncate(x: (nat, nat)): nat
    requires x.1 >= 1
  {
    x.0 / x.1
  }

  /** The exponent, once the base-2 logarithms and the leading comparison are known. */
  lemma ExponentAbove(a: nat, b: nat, k: nat)
    requires a >= 1 && b >= 1 && Log2(a) == Log2(b) + k
    requires AtLeastScaled(a, b, k)
    ensures DoubleExponent(a, b) == 52 - k
  {
    assert Log2(a) as int - Log2(b) as int == k;
  }

  // The powers and logarithms the computation for 19.99 goes through.

  lemma PowersUsed()
    ensures Pow2(4) == 16 && Pow2(11) == 2048
    ensures Pow2(42) == 4398046511104 && Pow2(48) == 281474976710656
  {
    assert Pow2(3) == 8 && Pow2(5) == 32 && Pow2(10) == 1024;
    assert Pow2(21) == 2097152 && Pow2(24) == 16777216 && Pow2(12) == 4096 && Pow2(6) == 64;
  }

  lemma SmallLogs()
    ensures Log2(1999) == 10 && Log2(100) == 6
  {
  }

  lemma LargeLogs()
    ensures Log2(562668478444601300) == 58 && Log2(281474976710656) == 48
  {
    assert Log2(131006240) == 26 by {
      SmallLogs();
    }
    assert Log2(65536) == 16 by {
      assert Log2(1) == 0;
    }
  }

  /** `float(Decimal("19.99"))` is 5626684784446013 / 2^48, a little below 19.99. */
  lemma DoubleOf1999Cents()
    ensures RoundDouble(1999, 100) == (5626684784446013, 281474976710656)
  {
    assert DoubleExponent(1999, 100) == 48 by {
      PowersUsed();
      SmallLogs();
    }
    PowersUsed();
    assert RoundHalfEven(562668478444601344, 100) == 5626684784446013;
  }

  /** The exponent of that double times 100: the product lies in [2^10, 2^11). */
  lemma ExponentOfHundredTimes1999Cents()
    ensures DoubleExponent(562668478444601300, 281474976710656) == 42
  {
    LargeLogs();
    ExponentAbove(562668478444601300, 281474976710656, 10);
  }

  lemma SignificandOfHundredTimes1999Cents()
    ensures RoundHalfEven(2474642138531474976009302835200, 281474976710656) == 8791694975696895
  {
  }

  /** That double times 100 rounds to 8791694975696895 / 2^42, which is
      1998.9999999999998. */
  lemma HundredTimesDoubleOf1999Cents()
    ensures RoundDouble(562668478444601300, 281474976710656) == (8791694975696895, 4398046511104)
  {
    ExponentOfHundredTimes1999Cents();
    PowersUsed();
    SignificandOfHundredTimes1999Cents();
  }
}
