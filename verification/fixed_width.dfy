/**
 The C integer types the firmware uses, as subset types of `int`, together
 with the wrap-around and truncating-division rules of C that the tracking
 and CW code depend on. Dafny's `/` and `%` are Euclidean; C's truncate
 toward zero, so the two are defined here explicitly.
 */
module FixedWidth {

  const U16_MOD: int := 0x1_0000
  const U32_MOD: int := 0x1_0000_0000
  const U64_MOD: int := 0x1_0000_0000_0000_0000

  type u8 = x: int | 0 <= x < 0x100
  type u16 = x: int | 0 <= x < 0x1_0000
  type u32 = x: int | 0 <= x < 0x1_0000_0000
  type u64 = x: int | 0 <= x < 0x1_0000_0000_0000_0000
  type s32 = x: int | -0x8000_0000 <= x < 0x8000_0000

  /** Conversion of any integer to `u16`: the value modulo 2^16. */
  function ToU16(x: int): (r: u16)
    ensures (r - x) % U16_MOD == 0
  {
    x % U16_MOD
  }

  /** Fewer than 2^16 increments always change a `u16`; exactly 2^16 bring
      it back. */
  lemma ToU16Increments(x: u16, k: int)
    ensures 0 < k < U16_MOD ==> ToU16(x + k) != x
    ensures ToU16(x + U16_MOD) == x
  {
    if 0 < k < U16_MOD {
      if x + k < U16_MOD {
        DivModUnique(x + k, U16_MOD, 0, x + k);
      } else {
        DivModUnique(x + k, U16_MOD, 1, x + k - U16_MOD);
      }
    }
    DivModUnique(x + U16_MOD, U16_MOD, 1, x);
  }

  /** Conversion of any integer to `u32`: the value modulo 2^32. */
  function ToU32(x: int): (r: u32)
    ensures (r - x) % U32_MOD == 0
    ensures 0 <= x < U32_MOD ==> r == x
  {
    x % U32_MOD
  }

  /** Conversion of any integer to `u64`: the value modulo 2^64. */
  function ToU64(x: int): (r: u64)
    ensures (r - x) % U64_MOD == 0
    ensures 0 <= x < U64_MOD ==> r == x
  {
    x % U64_MOD
  }

  function Abs(x: int): nat {
    if x < 0 then -x else x
  }

  lemma DivNonNegative(x: nat, y: int)
    requires y > 0
    ensures x / y >= 0
  {
  }

  /** C's integer division: the quotient truncated toward zero, so its
      magnitude is the quotient of the magnitudes and it is negative only
      when the operands' signs differ. */
  function CDiv(a: int, b: int): (q: int)
    requires b != 0
    ensures Abs(q) == Abs(a) / Abs(b)
    ensures q < 0 ==> (a < 0) != (b < 0)
    ensures (a < 0) != (b < 0) ==> q <= 0
  {
    var x := Abs(a);
    var y := Abs(b);
    DivNonNegative(x, y);
    var m := x / y;
    if (a < 0) == (b < 0) then m else -m
  }

  lemma ModBounds(x: nat, y: int)
    requires y > 0
    ensures 0 <= x % y < y
    ensures x == (x / y) * y + x % y
  {
  }

  /** C's `%`: what the truncating division leaves over; smaller in
      magnitude than the divisor and carrying the sign of the dividend. */
  function CRem(a: int, b: int): (r: int)
    requires b != 0
    ensures Abs(r) < Abs(b)
    ensures a >= 0 ==> r >= 0
    ensures a < 0 ==> r <= 0
  {
    var x := Abs(a);
    var y := Abs(b);
    ModBounds(x, y);
    if a >= 0 then x % y else -(x % y)
  }

  /** The identity section 6.5.5 of the C standard requires of `/` and `%`. */
  lemma CDivRem(a: int, b: int)
    requires b != 0
    ensures a == CDiv(a, b) * b + CRem(a, b)
  {
    var x := Abs(a);
    var y := Abs(b);
    ModBounds(x, y);
    var m := x / y;
    if b > 0 {
      assert y == b;
    } else {
      assert y == -b;
      assert m * y == -(m * b);
    }
  }

  // ---------------------------------------------------------------------
  // Division and remainder by a positive divisor
  // ---------------------------------------------------------------------

  lemma DivModUnique(x: int, d: int, q: int, r: int)
    requires d > 0 && 0 <= r < d && x == q * d + r
    ensures x / d == q && x % d == r
  {
    var q0 := x / d;
    var r0 := x % d;
    assert x == q0 * d + r0;
    assert (q - q0) * d == r0 - r;
    if q - q0 >= 1 {
      assert false;
    } else if q - q0 <= -1 {
      assert false;
    }
  }

  lemma DivAddMultiple(k: int, m: int, d: int)
    requires d > 0
    ensures (k * d + m) / d == k + m / d
    ensures (k * d + m) % d == m % d
  {
    assert m == (m / d) * d + m % d;
    assert k * d + m == (k + m / d) * d + m % d;
    DivModUnique(k * d + m, d, k + m / d, m % d);
  }

  lemma ModAddMod(q: int, y: int, d: int)
    requires d > 0
    ensures (q % d + y) % d == (q + y) % d
  {
    assert q == (q / d) * d + q % d;
    DivAddMultiple(q / d, q % d + y, d);
    assert q + y == (q / d) * d + (q % d + y);
  }

  lemma MulNonNegative(a: nat, b: nat)
    ensures a * b >= 0
  {
  }

  lemma MulLeft(a: int, b: int, c: nat)
    requires a <= b
    ensures a * c <= b * c
  {
    MulNonNegative(b - a, c);
    assert (b - a) * c == b * c - a * c;
  }

  lemma Distributes(a: int, b: int, c: int)
    ensures (a + b) * c == a * c + b * c
  {
  }
}
