/**
 * Shared vocabulary of the model: bytes, the fixed-width integer
 * conversions the C++ code performs, C++ integer division, and the numeric
 * constants of bsp.hpp.
 */
module Common {

  /** An 8-bit unsigned value (C++ `uint8_t`), as an integer. */
  type byte = x: int | 0 <= x < 256

  datatype Option<T> = None | Some(value: T)

  /** M_PI and M_2PI of bsp.hpp, as exact reals. */
  const PI: real := 3.14159265358979323846
  const TWO_PI: real := 6.28318530717958647692
  /** GRAVITY of bsp.hpp: the calibrated gravity constant. */
  const GRAVITY: real := 9.84

  const INT16_MIN: int := -32768
  const INT16_MAX: int := 32767

  predicate InInt16(x: int) { INT16_MIN <= x <= INT16_MAX }
  predicate InInt32(x: int) { -0x8000_0000 <= x <= 0x7FFF_FFFF }
  predicate InInt64(x: int) { -0x8000_0000_0000_0000 <= x <= 0x7FFF_FFFF_FFFF_FFFF }

  function Abs(x: int): nat
  {
    if x < 0 then -x else x
  }

  /**
   * `static_cast<int16_t>` of a 16-bit pattern: two's complement
   * reinterpretation of a value in [0, 2^16).
   */
  function ToInt16(u: int): (r: int)
    requires 0 <= u < 0x1_0000
    ensures InInt16(r)
    ensures r % 0x1_0000 == u
    ensures (r < 0) == (u >= 0x8000)
  {
    if u >= 0x8000 then u - 0x1_0000 else u
  }

  /** The 16-bit two's complement pattern of a signed 16-bit value. */
  function FromInt16(x: int): (u: int)
    requires InInt16(x)
    ensures 0 <= u < 0x1_0000
  {
    if x < 0 then x + 0x1_0000 else x
  }

  lemma Int16RoundTrip(x: int, u: int)
    requires InInt16(x) && 0 <= u < 0x1_0000
    ensures ToInt16(FromInt16(x)) == x
    ensures FromInt16(ToInt16(u)) == u
  {
  }

  /** (hi << 8) | lo for two bytes: the bit fields do not overlap. */
  function Word(hi: byte, lo: byte): (w: int)
    ensures 0 <= w < 0x1_0000
    ensures w / 256 == hi && w % 256 == lo
  {
    hi * 256 + lo
  }

  /** Reducing an addend modulo `m` first does not change the sum modulo `m`. */
  lemma ModAddLeft(a: int, b: int, m: int)
    requires m > 0
    ensures (a % m + b) % m == (a + b) % m
  {
    DivModUnique(a % m + b, m, (a + b) / m - a / m, (a + b) % m);
  }

  /**
   * (b0 << 12) | (b1 << 4) | (b2 >> 4): a 20-bit field sent most significant
   * byte first, whose last byte contributes only its high nibble.
   */
  function Field20(b0: byte, b1: byte, b2: byte): (r: nat)
    ensures r < 0x10_0000
    ensures r / 0x1000 == b0 && (r / 0x10) % 0x100 == b1 && r % 0x10 == b2 / 0x10
  {
    var r := b0 * 0x1000 + b1 * 0x10 + b2 / 0x10;
    DivModUnique(r, 0x1000, b0, b1 * 0x10 + b2 / 0x10);
    DivModUnique(r, 0x10, b0 * 0x100 + b1, b2 / 0x10);
    DivModUnique(b0 * 0x100 + b1, 0x100, b0, b1);
    r
  }

  /** Dafny's Euclidean division on non-negative operands. */
  lemma DivNat(n: int, d: int)
    requires n >= 0 && d > 0
    ensures n / d >= 0 && n == (n / d) * d + n % d && 0 <= n % d < d
  {
  }

  /** A quotient and remainder in range are the ones Dafny's `/` and `%` compute. */
  lemma DivModUnique(x: int, d: int, q: int, r: int)
    requires d > 0 && 0 <= r < d && x == q * d + r
    ensures x / d == q && x % d == r
  {
    var q', r' := x / d, x % d;
    assert (q - q') * d == r' - r;
    if q - q' >= 1 {
      assert false;
    } else if q - q' <= -1 {
      assert false;
    }
  }

  /**
   * C++ integer division: the quotient is truncated toward zero, whereas
   * Dafny's `/` on `int` is Euclidean.
   */
  function TruncDiv(a: int, b: int): (q: int)
    requires b != 0
    ensures Abs(q) == Abs(a) / Abs(b)
    ensures (a < 0) == (b < 0) ==> q >= 0
    ensures (a < 0) != (b < 0) ==> q <= 0
  {
    var q0 := Abs(a) / Abs(b);
    DivNat(Abs(a), Abs(b));
    if (a < 0) == (b < 0) then q0 else -q0
  }

  /** C++ `%`: the remainder that goes with TruncDiv. */
  function TruncMod(a: int, b: int): int
    requires b != 0
  {
    a - TruncDiv(a, b) * b
  }

  /**
   * The C++ division contract: the remainder is smaller than the divisor
   * and carries the sign of the dividend.
   */
  lemma TruncDivRemainder(a: int, b: int)
    requires b != 0
    ensures Abs(TruncMod(a, b)) < Abs(b)
    ensures TruncMod(a, b) == 0 || ((TruncMod(a, b) < 0) == (a < 0))
  {
    var n: int, d: int := Abs(a), Abs(b);
    var q0: int, r0: int := n / d, n % d;
    DivNat(n, d);
    var q := TruncDiv(a, b);
    if a >= 0 && b > 0 {
      assert q == q0;
      assert TruncMod(a, b) == r0;
    } else if a >= 0 {
      assert q == -q0 && b == -d;
      assert q * b == q0 * d;
      assert TruncMod(a, b) == r0;
    } else if b > 0 {
      assert q == -q0 && a == -n && b == d;
      assert q * b == -(q0 * d);
      assert TruncMod(a, b) == -r0;
    } else {
      assert q == q0 && a == -n && b == -d;
      assert q * b == -(q0 * d);
      assert TruncMod(a, b) == -r0;
    }
  }

  /** Clamp of std::clamp(x, lo, hi). */
  function Clamp(x: int, lo: int, hi: int): (r: int)
    requires lo <= hi
    ensures lo <= r <= hi
    ensures lo <= x <= hi ==> r == x
    ensures x < lo ==> r == lo
    ensures x > hi ==> r == hi
  {
    if x < lo then lo else if x > hi then hi else x
  }
}
