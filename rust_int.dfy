/** Rust integer semantics that differ from Dafny's: `/` and `%` truncate
    toward zero, and `as u8` keeps the low eight bits. */
module RustInt {

  /** Rust's `u8`. */
  type U8 = x: int | 0 <= x < 256

  /** Rust's signed `/`: the quotient truncated toward zero. */
  function TruncDiv(n: int, m: int): int
    requires m != 0
  {
    var a := if n < 0 then -n else n;
    var b := if m < 0 then -m else m;
    if (n < 0) == (m < 0) then a / b else -(a / b)
  }

  /** Rust's signed `%`: takes the sign of the dividend. */
  function TruncRem(n: int, m: int): int
    requires m != 0
  {
    n - m * TruncDiv(n, m)
  }

  /** On non-negative operands Rust's `/` and `%` are Dafny's. */
  lemma TruncNonNegative(n: int, m: int)
    requires n >= 0 && m > 0
    ensures TruncDiv(n, m) == n / m && TruncRem(n, m) == n % m
  {
  }

  /** The remainder is smaller than the divisor and has the dividend's
      sign. */
  lemma TruncRemBounds(n: int, m: int)
    requires m != 0
    ensures n == m * TruncDiv(n, m) + TruncRem(n, m)
    ensures n >= 0 ==> 0 <= TruncRem(n, m) < (if m < 0 then -m else m)
    ensures n < 0 ==> -(if m < 0 then -m else m) < TruncRem(n, m) <= 0
  {
    var a := if n < 0 then -n else n;
    var b := if m < 0 then -m else m;
    assert a == b * (a / b) + a % b;
    if n < 0 && m < 0 {
      assert TruncRem(n, m) == n - m * (a / b) == -(a - b * (a / b));
    } else if n < 0 {
      assert TruncRem(n, m) == n + m * (a / b) == -(a - b * (a / b));
    } else if m < 0 {
      assert TruncRem(n, m) == n + m * (a / b) == a - b * (a / b);
    }
  }

  /** The `modulo(n, m)` helper several source files define as
      `((n % m) + m) % m`: the remainder that takes the divisor's sign
      (`ModuloAsWritten` shows the two agree). */
  function Modulo(n: int, m: int): (r: int)
    requires m != 0
    ensures m > 0 ==> 0 <= r < m
    ensures m < 0 ==> m < r <= 0
  {
    if m > 0 then n % m else -((-n) % -m)
  }

  /** `Modulo` is the helper's formula with Rust's truncating `%`. */
  lemma ModuloAsWritten(n: int, m: int)
    requires m != 0
    ensures Modulo(n, m) == TruncRem(TruncRem(n, m) + m, m)
  {
    var r := TruncRem(n, m);
    var s := TruncRem(r + m, m);
    TruncRemBounds(n, m);
    TruncRemBounds(r + m, m);
    var q1, q2 := TruncDiv(n, m), TruncDiv(r + m, m);
    Recombine(n, m, q1, r, q2, s);
    ModuloUnique(n, m, q1 + q2 - 1, s);
  }

  /** Two division steps combine into one. */
  lemma Recombine(n: int, m: int, q1: int, r: int, q2: int, s: int)
    requires n == m * q1 + r && r + m == m * q2 + s
    ensures n == m * (q1 + q2 - 1) + s
  {
    MulSub(m, q1 + q2, 1);
    assert m * (q1 + q2) == m * q1 + m * q2;
  }

  /** A remainder with the divisor's sign is `Modulo`. */
  lemma ModuloUnique(n: int, m: int, k: int, s: int)
    requires m != 0 && n == m * k + s
    requires m > 0 ==> 0 <= s < m
    requires m < 0 ==> m < s <= 0
    ensures Modulo(n, m) == s
  {
    if m > 0 {
      EuclideanUnique(n, m, k, s);
    } else {
      assert -n == (-m) * k + -s;
      EuclideanUnique(-n, -m, k, -s);
    }
  }

  /** Euclidean division has one quotient and one remainder. */
  lemma EuclideanUnique(n: int, m: int, q: int, s: int)
    requires m > 0 && 0 <= s < m && n == m * q + s
    ensures n % m == s && n / m == q
  {
    var q0, s0 := n / m, n % m;
    assert n == m * q0 + s0;
    MulSub(m, q, q0);
    assert m * (q - q0) == s0 - s;
    if q > q0 {
      MulAtLeast(m, q - q0);
    } else if q < q0 {
      MulSub(m, q0, q);
      MulAtLeast(m, q0 - q);
    }
  }

  /** Adding a multiple of the divisor leaves the remainder alone. */
  lemma EuclideanShift(x: int, m: int, q: int)
    requires m > 0
    ensures (x + m * q) % m == x % m
  {
    EuclideanUnique(x + m * q, m, x / m + q, x % m);
  }

  lemma MulSub(m: int, a: int, b: int)
    ensures m * (a - b) == m * a - m * b
  {
  }

  lemma MulAtLeast(m: int, d: int)
    requires m > 0 && d >= 1
    ensures m * d >= m
  {
    MulSub(m, d, 1);
    assert m * (d - 1) >= 0;
  }

  /** For a divisor that divides `n`, Rust's `%` and `modulo` are zero
      whatever the signs. */
  lemma ModuloOfMultiple(k: int, m: int)
    requires m != 0
    ensures TruncRem(m * k, m) == 0
    ensures Modulo(m * k, m) == 0
  {
    TruncRemMultiple(k, m);
    if m > 0 {
      EuclideanUnique(m * k, m, k, 0);
    } else {
      assert -(m * k) == (-m) * k;
      EuclideanUnique(-(m * k), -m, k, 0);
    }
  }

  /** Taking away its `modulo` leaves a multiple of the divisor. */
  lemma ModuloOfDifference(n: int, m: int)
    requires m != 0
    ensures Modulo(n - Modulo(n, m), m) == 0
  {
    if m > 0 {
      assert n - Modulo(n, m) == m * (n / m);
      ModuloOfMultiple(n / m, m);
    } else {
      var q := (-n) / (-m);
      assert -n == (-m) * q + (-n) % (-m);
      assert n - Modulo(n, m) == m * q;
      ModuloOfMultiple(q, m);
    }
  }

  lemma TruncRemMultiple(k: int, m: int)
    requires m != 0
    ensures TruncRem(m * k, m) == 0
  {
    var n := m * k;
    var a := if n < 0 then -n else n;
    var b := if m < 0 then -m else m;
    var kk := if k < 0 then -k else k;
    AbsMul(m, k);
    assert a == b * kk;
    EuclideanUnique(a, b, kk, 0);
    assert a % b == 0;
  }

  lemma AbsMul(m: int, k: int)
    ensures (if m * k < 0 then -(m * k) else m * k) == (if m < 0 then -m else m) * (if k < 0 then -k else k)
  {
    if m < 0 && k < 0 {
      assert m * k == (-m) * (-k);
    } else if m < 0 {
      assert -(m * k) == (-m) * k;
    } else if k < 0 {
      assert -(m * k) == m * (-k);
    }
  }

  /** `x as u8` for an integer `x`: the low eight bits. */
  function AsU8(x: int): (b: int)
    ensures 0 <= b < 256
    ensures 0 <= x < 256 ==> b == x
  {
    x % 256
  }

  /** `as u32`: keeps the low 32 bits, so a negative `i32` becomes a large
      unsigned value. */
  function AsU32(x: int): (b: nat)
    ensures b < 0x1_0000_0000
    ensures 0 <= x < 0x1_0000_0000 ==> b == x
  {
    x % 0x1_0000_0000
  }
}
