/** The parts of the Java runtime's semantics that the generator relies on:
    the range of `long`, truncating integer division, and the unchecked
    exceptions that end a run. */
module JavaLang {

  const LONG_MIN: int := -0x8000_0000_0000_0000
  const LONG_MAX: int := 0x7FFF_FFFF_FFFF_FFFF

  /** True when `x` fits a Java `long`. */
  predicate IsLong(x: int) {
    LONG_MIN <= x <= LONG_MAX
  }

  datatype Option<+T> = None | Some(value: T)

  /** The unchecked exceptions the core can throw: `Random.nextInt(0)` and
      `List.get` outside the list. */
  datatype Exception = IllegalArgument | IndexOutOfBounds

  datatype Result<+T> = Success(value: T) | Failure(error: Exception)

  function Abs(x: int): (r: nat)
    ensures r == x || r == -x
  {
    if x < 0 then -x else x
  }

  /** Java's `/` on integers with a positive divisor: the quotient rounded
      toward zero (Dafny's `/` rounds toward minus infinity for a negative
      dividend). */
  function TruncDiv(a: int, b: int): (q: int)
    requires b > 0
    ensures 0 <= a ==> 0 <= q && 0 <= a - q * b < b
    ensures a < 0 ==> q <= 0 && -b < a - q * b <= 0
  {
    TruncDivBounds(a, b);
    if a >= 0 then a / b else -((-a) / b)
  }

  lemma TruncDivBounds(a: int, b: int)
    requires b > 0
    ensures 0 <= a ==> 0 <= a / b && 0 <= a - (a / b) * b < b
    ensures a < 0 ==> 0 <= (-a) / b && -b < a + ((-a) / b) * b <= 0
  {
    if a >= 0 {
      FloorDivBounds(a, b);
    } else {
      FloorDivBounds(-a, b);
    }
  }

  lemma FloorDivBounds(m: int, b: int)
    requires m >= 0 && b > 0
    ensures 0 <= m / b && 0 <= m - (m / b) * b < b
  {
    var q, r := m / b, m % b;
    assert m == b * q + r && 0 <= r < b;
    assert q * b == b * q;
  }

  /** Quotient and remainder determine each other. */
  lemma DivUnique(a: int, d: int, q: int, r: int)
    requires d > 0 && 0 <= r < d && a == d * q + r
    ensures a / d == q
  {
    var q0, r0 := a / d, a % d;
    assert d * (q - q0) == r0 - r;
    if q > q0 {
      MulAtLeast(d, q - q0);
    } else if q < q0 {
      MulAtLeast(d, q0 - q);
    }
  }

  lemma MulAtLeast(d: int, x: int)
    requires d > 0 && x >= 1
    ensures d * x >= d
  {
  }

  lemma MulMonotone(m: int, x: int, y: int)
    requires m >= 0 && x <= y
    ensures m * x <= m * y
  {
  }

  /** Dividing twice is dividing once by the product, for a non-negative dividend. */
  lemma DivDiv(a: int, m: int, n: int)
    requires a >= 0 && m > 0 && n > 0
    ensures (a / m) / n == a / (m * n)
  {
    var q1, r1 := a / m, a % m;
    var q2, r2 := q1 / n, q1 % n;
    assert a == m * q1 + r1;
    assert q1 == n * q2 + r2;
    assert a == (m * n) * q2 + (m * r2 + r1) by {
      assert m * q1 == m * (n * q2) + m * r2;
    }
    MulMonotone(m, r2, n - 1);
    assert 0 <= m * r2 + r1 < m * n by {
      assert m * (n - 1) == m * n - m;
      assert m * r2 >= 0 by { MulMonotone(m, 0, r2); }
    }
    DivUnique(a, m * n, q2, m * r2 + r1);
  }

  /** Repeated truncating division (Java's `x /= n` in a loop) is one
      truncating division by the product. */
  lemma TruncDivTwice(a: int, m: int, n: int)
    requires m > 0 && n > 0
    ensures TruncDiv(TruncDiv(a, m), n) == TruncDiv(a, m * n)
  {
    if a >= 0 {
      DivDiv(a, m, n);
    } else {
      DivDiv(-a, m, n);
      assert TruncDiv(a, m) == -((-a) / m);
      if (-a) / m == 0 {
        assert TruncDiv(TruncDiv(a, m), n) == 0;
      }
    }
  }
}
