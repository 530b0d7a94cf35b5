/** Java's fixed-width integer arithmetic, written out over unbounded integers. */
module JavaInt {

  const MinInt32: int := -0x8000_0000
  const MaxInt32: int := 0x7fff_ffff
  const TwoTo32: int := 0x1_0000_0000

  /** A value of Java's `int`. */
  type Int32 = x: int | MinInt32 <= x <= MaxInt32

  function Abs(x: int): (r: int)
    ensures 0 <= r && (r == x || r == -x)
  {
    if x < 0 then -x else x
  }

  lemma DivBound(n: int, m: int)
    requires 0 <= n && 1 <= m
    ensures 0 <= n / m <= n
  {
    if m > 1 {
      assert n / m * m <= n;
    }
  }

  /** Narrowing to `int` (a cast, or the result of `+=` on an `int` field): keep the
      low 32 bits in two's complement. */
  function Wrap32(x: int): Int32
  {
    (x - MinInt32) % TwoTo32 + MinInt32
  }

  /** Narrowing keeps the value modulo 2^32, and keeps a value already in range. */
  lemma Wrap32Facts(x: int)
    ensures (x - Wrap32(x)) % TwoTo32 == 0
    ensures MinInt32 <= x <= MaxInt32 ==> Wrap32(x) == x
  {
  }

  lemma {:induction false} ModShift(a: int, d: int)
    ensures (a + d * TwoTo32) % TwoTo32 == a % TwoTo32
    decreases Abs(d)
  {
    if d > 0 {
      ModShift(a, d - 1);
      assert a + d * TwoTo32 == (a + (d - 1) * TwoTo32) + TwoTo32;
    } else if d < 0 {
      ModShift(a, d + 1);
      assert a + d * TwoTo32 == (a + (d + 1) * TwoTo32) - TwoTo32;
    }
  }

  /** Two integers that agree modulo 2^32 narrow to the same `int`. */
  lemma Wrap32Congruent(x: int, y: int)
    requires (x - y) % TwoTo32 == 0
    ensures Wrap32(x) == Wrap32(y)
  {
    var d := (x - y) / TwoTo32;
    assert x - y == d * TwoTo32;
    ModShift(y - MinInt32, d);
    assert x - MinInt32 == (y - MinInt32) + d * TwoTo32;
  }

  /** Adding to an already wrapped `int` wraps like adding to the exact value. */
  lemma Wrap32Add(a: int, b: int)
    ensures Wrap32(Wrap32(a) + b) == Wrap32(a + b)
  {
    var w := Wrap32(a);
    var d := (a - w) / TwoTo32;
    assert a - w == d * TwoTo32;
    assert (a + b) - (w + b) == d * TwoTo32;
    ModShift(0, d);
    Wrap32Congruent(a + b, w + b);
  }

  /** Adding two wrapped values wraps like adding the exact ones. */
  lemma Wrap32AddBoth(a: int, b: int)
    ensures Wrap32(Wrap32(a) + Wrap32(b)) == Wrap32(a + b)
  {
    Wrap32Add(a, Wrap32(b));
    Wrap32Add(b, a);
  }

  /** Java's `/` on integers: the quotient rounded toward zero
      (section 15.17.2 of the Java Language Specification). */
  function TruncDiv(a: int, b: int): int
    requires b != 0
  {
    if 0 <= a then
      if 0 < b then a / b else -(a / -b)
    else
      if 0 < b then -((-a) / b) else (-a) / (-b)
  }

  /** The remainder `a - q * b` has the sign of `a` and is smaller than `b` in
      magnitude, and the quotient is no larger than `a` in magnitude. */
  lemma TruncDivBounds(a: int, b: int)
    requires b != 0
    ensures var q := TruncDiv(a, b);
      (0 <= a ==> 0 <= a - q * b < Abs(b)) && (a < 0 ==> -Abs(b) < a - q * b <= 0) && Abs(q) <= Abs(a)
  {
    var n, m := Abs(a), Abs(b);
    var q0 := n / m;
    DivRem(n, m);
    var q := TruncDiv(a, b);
    if 0 <= a && 0 < b {
      assert q == q0 && b == m;
    } else if 0 <= a {
      assert q == -q0 && b == -m;
      NegTimesNeg(q0, m);
    } else if 0 < b {
      assert q == -q0 && b == m && a == -n;
      NegTimes(q0, m);
    } else {
      assert q == q0 && b == -m && a == -n;
      NegTimes(m, q0);
    }
  }

  /** Euclidean division of naturals: the remainder is below the divisor and the
      quotient no larger than the dividend. */
  lemma DivRem(n: int, m: int)
    requires 0 <= n && 1 <= m
    ensures 0 <= n - n / m * m < m && 0 <= n / m <= n
  {
    DivBound(n, m);
  }

  lemma NegTimes(x: int, y: int)
    ensures (-x) * y == -(x * y) && y * (-x) == -(x * y)
  {
  }

  lemma NegTimesNeg(x: int, y: int)
    ensures (-x) * (-y) == x * y
  {
  }

  /** Java's `/` on two `int` operands, including the one overflow it has
      (`MinInt32 / -1` is `MinInt32`). */
  function Div32(a: Int32, b: Int32): (q: Int32)
    requires b != 0
    ensures a == MinInt32 && b == -1 ==> q == MinInt32
    ensures !(a == MinInt32 && b == -1) ==> q == TruncDiv(a, b)
  {
    TruncDivBounds(a, b);
    Wrap32Facts(TruncDiv(a, b));
    Wrap32(TruncDiv(a, b))
  }
}
