/** Go's 64-bit signed integers: the range of `int64` (and of `int` on the
    64-bit targets the service runs on), two's-complement wrap-around, and the
    truncating `/` and `%` operators. */
module GoInt {

  const MinInt64: int := -0x8000_0000_0000_0000
  const MaxInt64: int := 0x7fff_ffff_ffff_ffff
  const TwoTo64: int := 0x1_0000_0000_0000_0000

  type Int64 = x: int | MinInt64 <= x <= MaxInt64

  /** The value a Go `int64` holds after an arithmetic result `x` wraps around. */
  function Wrap64(x: int): (r: Int64)
    ensures MinInt64 <= x <= MaxInt64 ==> r == x
    ensures (x - r) % TwoTo64 == 0
  {
    var k := (x - MinInt64) % TwoTo64;
    assert x - (k + MinInt64) == TwoTo64 * ((x - MinInt64) / TwoTo64);
    k + MinInt64
  }

  /** The mathematical quotient rounded toward zero, as Go's `/` computes it
      before any wrap-around. */
  function TruncQuo(a: int, b: int): (q: int)
    requires b != 0
    ensures a >= 0 && b > 0 ==> q == a / b
  {
    if a >= 0 then (if b > 0 then a / b else -(a / -b))
    else (if b > 0 then -(-a / b) else -a / -b)
  }

  /** Go's `a / b` on `int64`: truncating; `MinInt64 / -1` wraps to `MinInt64`. */
  function Quo64(a: Int64, b: Int64): (q: Int64)
    requires b != 0
    ensures a >= 0 && b > 0 ==> q == a / b
  {
    QuotientBound(a, b);
    Wrap64(TruncQuo(a, b))
  }

  lemma QuotientBound(a: int, b: int)
    ensures a >= 0 && b > 0 ==> a / b <= a
  {
    if a >= 0 && b > 0 {
      var q, r := a / b, a % b;
      assert a == b * q + r && 0 <= r < b;
      MulNonNeg(b - 1, q);
      assert b * q == q + (b - 1) * q;
    }
  }

  lemma MulNonNeg(x: nat, y: nat)
    ensures x * y >= 0
    ensures x >= 1 ==> x * y >= y
  {
  }

  /** Go's `a % b` on `int64`: the remainder takes the sign of the dividend. */
  function Rem64(a: Int64, b: Int64): (r: int)
    requires b != 0
    ensures a >= 0 && b > 0 ==> r == a % b
    ensures a <= 0 ==> r <= 0
    ensures a >= 0 ==> r >= 0
    ensures b > 0 ==> -b < r < b
    ensures b < 0 ==> b < r && b < -r
  {
    RemSign(a, b);
    a - b * TruncQuo(a, b)
  }

  /** The truncated remainder has the dividend's sign and is smaller than
      the divisor in magnitude. */
  lemma RemSign(a: int, b: int)
    requires b != 0
    ensures a <= 0 ==> a - b * TruncQuo(a, b) <= 0
    ensures a >= 0 ==> 0 <= a - b * TruncQuo(a, b)
    ensures b > 0 ==> -b < a - b * TruncQuo(a, b) < b
    ensures b < 0 ==> b < a - b * TruncQuo(a, b) < -b
  {
    var n, d := if a < 0 then -a else a, if b < 0 then -b else b;
    var m := n - d * (n / d);
    assert 0 <= m < d;
    if a >= 0 && b > 0 {
      assert a - b * TruncQuo(a, b) == m;
    } else if a >= 0 {
      assert b * TruncQuo(a, b) == d * (n / d);
    } else if b > 0 {
      assert b * TruncQuo(a, b) == -(d * (n / d));
    } else {
      assert b * TruncQuo(a, b) == -(d * (n / d));
    }
  }

  lemma QuotientAntitone(a: nat, b: nat, c: nat)
    requires 0 < b <= c
    ensures a / c <= a / b
  {
    var q := a / c;
    assert a == c * q + a % c;
    assert c * q >= b * q by {
      MulNonNeg(c - b, q);
      assert c * q == b * q + (c - b) * q;
    }
    assert b * q <= a;
    if q > a / b {
      MulAtLeast(b, q, a / b + 1);
      assert false;
    }
  }

  lemma MulAtLeast(b: int, x: int, y: int)
    ensures b >= 0 && x >= y ==> b * x >= b * y
  {
    if b >= 0 && x >= y {
      MulNonNeg(b, x - y);
      assert b * x == b * y + b * (x - y);
    }
  }

  lemma DivUnique(a: int, b: int, q: int, r: int)
    requires b > 0 && 0 <= r < b && a == b * q + r
    ensures a / b == q
  {
    var q', r' := a / b, a % b;
    assert b * q + r == b * q' + r';
    if q' > q {
      MulAtLeast(b, q', q + 1);
      assert false;
    } else if q' < q {
      MulAtLeast(b, q, q' + 1);
      assert false;
    }
  }
}
