/** What the divider must compute, and the arithmetic of non-restoring division. */
module Division {
  import opened Arithmetic
  import opened Divider

  // ---- the specification: section 7.2 of the RISC-V Unprivileged ISA, version 20191213 ----

  /** The signed value of a register (two's complement). */
  function Signed(x: U32): int {
    if x < 0x8000_0000 then x else x - 0x1_0000_0000
  }

  /** The signed value is the one in range that the register holds modulo 2^32. */
  lemma SignedLaw(x: U32)
    ensures -0x8000_0000 <= Signed(x) < 0x8000_0000 && Signed(x) % 0x1_0000_0000 == x
    ensures forall a :: -0x8000_0000 <= a < 0x8000_0000 && a % 0x1_0000_0000 == x ==> a == Signed(x)
  {
  }

  /** The sign test of the circuit is bit 31 of the register, and tells the sign. */
  lemma TopIsSign(x: U32)
    ensures Top(x) <==> Bit(x, 31)
    ensures Top(x) <==> Signed(x) < 0
  {
    Powers();
    BitIsDown(x, 31);
  }

  /** A 32-bit register holding the integer `x` (two's complement). */
  function Encode(x: int): U32 {
    x % M32
  }

  function Abs(x: int): nat {
    if x < 0 then -x else x
  }

  /** Division rounding towards zero, and the remainder with the sign of the dividend. */
  function Quotient(a: int, b: int): int
    requires b != 0
  {
    if (a < 0) == (b < 0) then Abs(a) / Abs(b) else -(Abs(a) / Abs(b))
  }

  function Remainder(a: int, b: int): int
    requires b != 0
  {
    if a < 0 then -(Abs(a) % Abs(b)) else Abs(a) % Abs(b)
  }

  lemma TruncatingDivision(a: int, b: int)
    requires b != 0
    ensures a == b * Quotient(a, b) + Remainder(a, b)
    ensures Abs(Remainder(a, b)) < Abs(b)
    ensures Remainder(a, b) != 0 ==> (Remainder(a, b) < 0) == (a < 0)
  {
    var q, r := Abs(a) / Abs(b), Abs(a) % Abs(b);
    assert Abs(a) == Abs(b) * q + r;
    assert b * -q == -(b * q) && -b * q == -(b * q);
  }

  /** No multiple of b but zero is smaller than b. */
  lemma SmallMultiple(b: int, e: int)
    requires 0 - Abs(b) < b * e < Abs(b)
    ensures e == 0
  {
    assert Abs(b * e) == Abs(e) * Abs(b) by {
      assert (0 - b) * e == 0 - b * e && b * (0 - e) == 0 - b * e && (0 - b) * (0 - e) == b * e;
    }
    if e != 0 {
      MulMono(1, Abs(e), Abs(b));
    }
  }

  lemma Distribute(b: int, q: int, q': int)
    ensures b * (q - q') == b * q - b * q'
  {
  }

  lemma SameDivision(b: int, q: int, r: int, q': int, r': int, negative: bool)
    requires b * q + r == b * q' + r' && Abs(r) < Abs(b) && Abs(r') < Abs(b)
    requires (r != 0 ==> (r < 0) == negative) && (r' != 0 ==> (r' < 0) == negative)
    ensures q == q' && r == r'
  {
    Distribute(b, q, q');
    SmallMultiple(b, q - q');
  }

  /** And this determines them. */
  lemma TruncatingUnique(a: int, b: int, q: int, r: int)
    requires b != 0 && a == b * q + r && Abs(r) < Abs(b) && (r != 0 ==> (r < 0) == (a < 0))
    ensures q == Quotient(a, b) && r == Remainder(a, b)
  {
    TruncatingDivision(a, b);
    SameDivision(b, q, r, Quotient(a, b), Remainder(a, b), a < 0);
  }

  /** DIV, DIVU, REM and REMU: dividing by zero gives all ones and the dividend, and the signed
      overflow -2^31 / -1 gives -2^31 and 0. */
  function DivResult(op1: U32, op2: U32, signed: bool, rem: bool): U32 {
    if op2 == 0 then
      if rem then op1 else M32 - 1
    else if signed && Signed(op1) == -M31 && Signed(op2) == -1 then
      if rem then 0 else M31
    else
      var a, b := Value(op1, signed), Value(op2, signed);
      Encode(if rem then Remainder(a, b) else Quotient(a, b))
  }

  function Value(x: U32, signed: bool): int {
    if signed then Signed(x) else x
  }

  /** What the specification says, by the equation between registers read as signed numbers: for every divisor
      but zero, the overflow included. */
  lemma SignedResults(a: int, b: int, q: int, r: int)
    requires -0x8000_0000 <= a < 0x8000_0000 && -0x8000_0000 <= b < 0x8000_0000 && b != 0
    requires a == b * q + r && (-b < r < b || b < r < -b) && (r == 0 || (r < 0 <==> a < 0))
    ensures DivResult(a % 0x1_0000_0000, b % 0x1_0000_0000, true, false) == q % 0x1_0000_0000
    ensures DivResult(a % 0x1_0000_0000, b % 0x1_0000_0000, true, true) == r % 0x1_0000_0000
  {
    SignedLaw(a % 0x1_0000_0000);
    SignedLaw(b % 0x1_0000_0000);
    TruncatingUnique(a, b, q, r);
  }

  lemma UnsignedResults(a: U32, b: U32, q: nat, r: nat)
    requires a == b * q + r && r < b
    ensures DivResult(a, b, false, false) == q && DivResult(a, b, false, true) == r
  {
    TruncatingUnique(a, b, q, r);
    MulMono(1, b, q);
  }

  lemma ZeroResults(a: U32, signed: bool)
    ensures DivResult(a, 0, signed, false) == 0xFFFF_FFFF && DivResult(a, 0, signed, true) == a
  {
  }

  // ---- the iteration on integers ----

  /** The top k bits of a 32-bit number, and the bits below them. */
  function Prefix(mag: U32, k: nat): nat
    requires k <= 32
  {
    Down(mag, 32 - k)
  }

  function Rest(mag: U32, k: nat): nat
    requires k <= 32
  {
    Low(mag, 32 - k)
  }

  /** The k-th bit from the top. */
  function NextBit(mag: U32, k: nat): nat
    requires k < 32
  {
    Down(mag, 31 - k) % 2
  }

  lemma SplitBit(mag: nat, d: nat)
    requires d >= 1
    ensures mag / (2 * d) == mag / d / 2 && mag % (2 * d) == mag / d % 2 * d + mag % d && mag % d < d
  {
    DivNat(mag, d);
    var q, r := mag / d, mag % d;
    SplitProduct(q, d);
    MulMono(q % 2, 1, d);
    DivUnique(q / 2, q % 2 * d + r, 2 * d);
  }

  lemma SplitProduct(q: nat, d: nat)
    ensures q * d == q / 2 * (2 * d) + q % 2 * d
  {
    var h, b := q / 2, q % 2;
    assert q == 2 * h + b;
    assert (2 * h + b) * d == h * (2 * d) + b * d;
  }

  lemma TakeBit(mag: U32, k: nat)
    requires k < 32
    ensures Prefix(mag, k + 1) == 2 * Prefix(mag, k) + NextBit(mag, k)
    ensures Rest(mag, k) == NextBit(mag, k) * Pow2(31 - k) + Rest(mag, k + 1)
    ensures Rest(mag, k + 1) < Pow2(31 - k)
  {
    assert Pow2(32 - k) == 2 * Pow2(31 - k);
    SplitBit(mag, Pow2(31 - k));
  }

  /** The signed partial sum after k steps: subtract the divisor when the last sum was not
      negative, else add it. */
  function PartialSum(mag: U32, d: nat, k: nat): int
    requires k <= 32
  {
    if k == 0 then 0
    else
      var s := PartialSum(mag, d, k - 1);
      2 * s + NextBit(mag, k - 1) + if s >= 0 then 0 - d else d
  }

  /** The quotient bits after k steps: one bit for each sum, set when it was not negative. */
  function Quotients(mag: U32, d: nat, k: nat): nat
    requires k <= 32
  {
    if k == 0 then 0
    else 2 * Quotients(mag, d, k - 1) + Num(PartialSum(mag, d, k) >= 0)
  }

  /** The remainder a sum stands for: a negative one is one divisor short. */
  function Corrected(s: int, d: nat): int {
    if s >= 0 then s else s + d
  }

  /** One step of the iteration on integers. */
  lemma SumStep(prefix: nat, q: nat, s: int, b: nat, d: nat)
    requires d >= 1 && 0 - d <= s < d && b <= 1
    requires prefix == q * d + Corrected(s, d)
    ensures var s' := 2 * s + b + (if s >= 0 then 0 - d else d);
            && 0 - d <= s' < d
            && 2 * prefix + b == (2 * q + Num(s' >= 0)) * d + Corrected(s', d)
  {
    assert (2 * q) * d == 2 * (q * d);
    assert (2 * q + 1) * d == 2 * (q * d) + d;
  }

  /** After every step the sum lies in [-d, d) and is congruent to the consumed prefix of the
      dividend; the bits so far are its floor quotient. */
  lemma {:induction false} SumLaw(mag: U32, d: nat, k: nat)
    requires d >= 1 && k <= 32
    ensures 0 - d <= PartialSum(mag, d, k) < d
    ensures Prefix(mag, k) == Quotients(mag, d, k) * d + Corrected(PartialSum(mag, d, k), d)
    ensures Quotients(mag, d, k) == Prefix(mag, k) / d
    ensures Corrected(PartialSum(mag, d, k), d) == Prefix(mag, k) % d
  {
    if k == 0 {
      Powers();
      assert Prefix(mag, 0) == 0;
    } else {
      SumLaw(mag, d, k - 1);
      TakeBit(mag, k - 1);
      SumStep(Prefix(mag, k - 1), Quotients(mag, d, k - 1), PartialSum(mag, d, k - 1), NextBit(mag, k - 1), d);
    }
    DivUnique(Quotients(mag, d, k), Corrected(PartialSum(mag, d, k), d), d);
  }

  /** Dividing by zero: the sums are the prefixes and every quotient bit is one. */
  lemma {:induction false} ZeroLaw(mag: U32, k: nat)
    requires k <= 32
    ensures PartialSum(mag, 0, k) == Prefix(mag, k)
    ensures Quotients(mag, 0, k) == Pow2(k) - 1
  {
    if k == 0 {
      Powers();
    } else {
      ZeroLaw(mag, k - 1);
      TakeBit(mag, k - 1);
    }
  }

  lemma {:induction false} PrefixBound(mag: U32, k: nat)
    requires k <= 32
    ensures Prefix(mag, k) < Pow2(k)
  {
    if k == 0 {
      Powers();
    } else {
      PrefixBound(mag, k - 1);
      TakeBit(mag, k - 1);
    }
  }

  /** Whatever the divisor, a sum fits in 33 bits read as a signed number. */
  lemma SumFits(mag: U32, d: U32, k: nat)
    requires k <= 32
    ensures -M32 < PartialSum(mag, d, k) < M32
  {
    if d == 0 {
      PrefixBound(mag, k);
      Powers();
      PowMono(k, 32);
      ZeroLaw(mag, k);
    } else {
      SumLaw(mag, d, k);
    }
  }

  /** The quotient bits after k steps fit in k bits. */
  lemma QuotientFits(mag: U32, d: U32, k: nat)
    requires k <= 32
    ensures Quotients(mag, d, k) < Pow2(k)
  {
    PrefixBound(mag, k);
    if d == 0 {
      ZeroLaw(mag, k);
    } else {
      SumLaw(mag, d, k);
      QuotientBelow(Prefix(mag, k), d);
    }
  }

  lemma QuotientBelow(x: nat, d: nat)
    requires d >= 1
    ensures x / d <= x
  {
    MulMono(1, d, x / d);
    assert x / d * d + x % d == x;
    assert d * (x / d) == x / d * d;
  }
}
