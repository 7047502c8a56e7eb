/** Division by a divisor that is not a literal, powers of two, and bits of a number. */
module Arithmetic {
  lemma MulMono(x: nat, y: nat, d: nat)
    requires x <= y
    ensures x * d <= y * d
    ensures x < y ==> x * d + d <= y * d
  {
    if x < y {
      assert (x + 1) * d <= y * d;
    }
  }

  /** Quotient and remainder are determined by their defining equation. */
  lemma DivUnique(q: nat, r: nat, d: nat)
    requires r < d
    ensures (q * d + r) / d == q && (q * d + r) % d == r
  {
    var a := q * d + r;
    assert a == a / d * d + a % d;
    if a / d > q {
      MulMono(q, a / d, d);
    } else {
      MulMono(a / d, q, d);
    }
  }

  lemma DivNat(a: nat, d: nat)
    requires d >= 1
    ensures 0 <= a / d && 0 <= a % d < d && a == a / d * d + a % d
  {
    if a / d < 0 {
      MulMono(1, 0 - a / d, d);
    }
  }

  lemma DivLess(a: nat, n: nat, d: nat)
    requires d >= 1 && a < n * d
    ensures a / d < n && a % d < d && a == a / d * d + a % d
  {
    if a / d >= n {
      MulMono(n, a / d, d);
    }
  }

  /** `q` whole blocks of size `d` and a part of one fit in `n` blocks. */
  lemma Below(q: nat, r: nat, n: nat, d: nat)
    requires q < n && r < d
    ensures q * d + r < n * d
  {
    MulMono(q, n, d);
  }

  function Num(b: bool): nat {
    if b then 1 else 0
  }

  function Pow2(n: nat): (p: nat)
    ensures p >= 1
  {
    if n == 0 then 1 else 2 * Pow2(n - 1)
  }

  /** Shifting right. */
  function Down(x: nat, n: nat): nat {
    DivNat(x, Pow2(n));
    x / Pow2(n)
  }

  /** The low n bits of a number. */
  function Low(x: nat, n: nat): nat {
    DivNat(x, Pow2(n));
    x % Pow2(n)
  }

  predicate Bit(x: nat, i: nat) {
    if i == 0 then x % 2 == 1 else Bit(x / 2, i - 1)
  }

  lemma Powers()
    ensures Pow2(31) == 0x8000_0000 && Pow2(32) == 0x1_0000_0000 && Pow2(33) == 0x2_0000_0000
  {
    assert Pow2(8) == 256;
    assert Pow2(16) == 0x1_0000;
    assert Pow2(24) == 0x100_0000;
  }

  lemma {:induction false} PowAdd(i: nat, j: nat)
    ensures Pow2(i) * Pow2(j) == Pow2(i + j)
  {
    if i == 0 {
    } else {
      PowAdd(i - 1, j);
      assert 2 * Pow2(i - 1) * Pow2(j) == 2 * (Pow2(i - 1) * Pow2(j));
    }
  }

  lemma {:induction false} PowMono(i: nat, j: nat)
    requires i <= j
    ensures Pow2(i) <= Pow2(j)
  {
    if i == j {
    } else {
      PowMono(i, j - 1);
    }
  }

  /** A number below 2 * d splits off its top half. */
  lemma Halve(q: nat, d: nat, r: nat)
    requires r < d
    ensures (q * d + r) % (2 * d) == q % 2 * d + r
  {
    assert q * d == q / 2 * (2 * d) + q % 2 * d by {
      assert q == q / 2 * 2 + q % 2;
      assert (q / 2 * 2 + q % 2) * d == q / 2 * (2 * d) + q % 2 * d;
    }
    assert q % 2 * d + r < 2 * d by {
      MulMono(q % 2, 1, d);
    }
    DivUnique(q / 2, q % 2 * d + r, 2 * d);
  }

  lemma DownHalf(x: nat, n: nat)
    ensures Down(x, n + 1) == Down(x / 2, n)
  {
    var d := Pow2(n);
    DivNat(x / 2, d);
    var q, r := x / 2 / d, x / 2 % d;
    assert x == q * (2 * d) + (2 * r + x % 2) by {
      assert 2 * (q * d) == q * (2 * d);
    }
    DivUnique(q, 2 * r + x % 2, 2 * d);
  }

  /** Bit `i` is the lowest bit after shifting right by `i`. */
  lemma {:induction false} BitIsDown(x: nat, i: nat)
    ensures Bit(x, i) == (Down(x, i) % 2 == 1)
    decreases i
  {
    if i == 0 {
      assert Pow2(0) == 1;
    } else {
      DownHalf(x, i - 1);
      BitIsDown(x / 2, i - 1);
    }
  }

  lemma LowBits(x: nat, i: nat)
    ensures x % Pow2(i + 1) == x % Pow2(i) + if Bit(x, i) then Pow2(i) else 0
  {
    BitIsDown(x, i);
    DivNat(x, Pow2(i));
    HalveCases(Down(x, i), Pow2(i), x % Pow2(i));
  }

  lemma HalveCases(q: nat, d: nat, r: nat)
    requires r < d
    ensures (q * d + r) % (2 * d) == r + if q % 2 == 1 then d else 0
  {
    Halve(q, d, r);
    if q % 2 == 0 {
      assert q % 2 * d == 0;
    }
  }

  // ---- bit vectors, bit 0 first ----

  type Bits = seq<bool>

  /** The number a bit vector stands for. */
  function ToNat(d: Bits): nat {
    if d == [] then 0 else Num(d[0]) + 2 * ToNat(d[1..])
  }

  lemma {:induction false} NatSnoc(d: Bits, b: bool)
    ensures ToNat(d + [b]) == ToNat(d) + if b then Pow2(|d|) else 0
  {
    if d == [] {
      assert (d + [b])[1..] == [];
    } else {
      NatSnoc(d[1..], b);
      assert (d + [b])[1..] == d[1..] + [b];
    }
  }

  lemma {:induction false} NatConcat(a: Bits, b: Bits)
    ensures ToNat(a + b) == ToNat(a) + ToNat(b) * Pow2(|a|)
  {
    if a == [] {
      assert a + b == b;
    } else {
      NatConcat(a[1..], b);
      assert (a + b)[1..] == a[1..] + b;
      assert 2 * (ToNat(b) * Pow2(|a| - 1)) == ToNat(b) * Pow2(|a|);
    }
  }

  lemma {:induction false} NatBelow(d: Bits)
    ensures ToNat(d) < Pow2(|d|)
  {
    if d == [] {
    } else {
      NatBelow(d[1..]);
    }
  }

  lemma {:induction false} BitZero(i: nat)
    ensures !Bit(0, i)
  {
    if i == 0 {
    } else {
      BitZero(i - 1);
    }
  }

  /** Bit `i` of the number is element `i` of the vector. */
  lemma {:induction false} BitOfNat(d: Bits, i: nat)
    ensures Bit(ToNat(d), i) == (i < |d| && d[i])
  {
    if i == 0 {
    } else if d == [] {
      BitZero(i);
    } else {
      BitOfNat(d[1..], i - 1);
    }
  }

  /** Numbers with the same bits are equal. */
  lemma {:induction false} SameBits(x: nat, y: nat)
    requires forall i: nat :: Bit(x, i) == Bit(y, i)
    ensures x == y
    decreases x + y
  {
    assert Bit(x, 0) == Bit(y, 0);
    if x + y == 0 {
    } else {
      forall i: nat
        ensures Bit(x / 2, i) == Bit(y / 2, i)
      {
        assert Bit(x, i + 1) == Bit(y, i + 1);
      }
      SameBits(x / 2, y / 2);
    }
  }
}
