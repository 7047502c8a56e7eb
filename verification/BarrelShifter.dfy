/** The barrel shifter (rtl/barrel_shifter.py).  A word is a bit vector, bit 0 first. */
module BarrelShifter {
  import opened Arithmetic

  function Fill(f: bool, n: nat): (s: Bits)
    ensures |s| == n && forall k :: 0 <= k < n ==> s[k] == f
  {
    seq(n, k => f)
  }

  /** Shift towards the top by `n`, filling from below. */
  function ShiftLeft(d: Bits, f: bool, n: nat): (s: Bits)
    ensures |s| == |d|
  {
    seq(|d|, k requires 0 <= k < |d| => if k < n then f else d[k - n])
  }

  /** Shift towards the bottom by `n`, filling from above. */
  function ShiftRight(d: Bits, f: bool, n: nat): (s: Bits)
    ensures |s| == |d|
  {
    seq(|d|, k requires 0 <= k < |d| => if k + n < |d| then d[k + n] else f)
  }

  function Reverse(d: Bits): (r: Bits)
    ensures |r| == |d|
  {
    seq(|d|, k requires 0 <= k < |d| => d[|d| - 1 - k])
  }

  // ---- the circuit ----

  /** Bit `i` of the amount adds two to the power `low + i` to the shift. */
  lemma NextAmount(amount: Bits, i: nat, low: nat)
    requires i < |amount|
    ensures ToNat(amount[..i + 1]) * Pow2(low) == ToNat(amount[..i]) * Pow2(low) + if amount[i] then Pow2(low + i) else 0
  {
    NatSnoc(amount[..i], amount[i]);
    assert amount[..i + 1] == amount[..i] + [amount[i]];
    PowAdd(i, low);
    Distribute(ToNat(amount[..i]), if amount[i] then Pow2(i) else 0, Pow2(low));
  }

  lemma Distribute(x: nat, y: nat, p: nat)
    ensures (x + y) * p == x * p + y * p
  {
  }

  lemma ShiftIsConcat(d: Bits, f: bool, n: nat)
    ensures ShiftLeft(d, f, n) == if n <= |d| then Fill(f, n) + d[..|d| - n] else Fill(f, |d|)
  {
  }

  /** The loop of `left_shift_comb`: bit `i` of `amount` shifts by two to the power `low + i`. */
  method LeftShiftComb(d: Bits, amount: Bits, fill: bool, low: nat) returns (temp: Bits)
    ensures temp == ShiftLeft(d, fill, ToNat(amount) * Pow2(low))
  {
    temp := d;
    var p, i := low, 0;
    while i < |amount|
      invariant 0 <= i <= |amount| && p == low + i
      invariant temp == ShiftLeft(d, fill, ToNat(amount[..i]) * Pow2(low))
    {
      var shift := Pow2(p);
      NextAmount(amount, i, low);
      ShiftTwice(d, fill, ToNat(amount[..i]) * Pow2(low), shift);
      if amount[i] {
        ShiftIsConcat(temp, fill, shift);
        temp := if shift <= |temp| then Fill(fill, shift) + temp[..|temp| - shift] else Fill(fill, |temp|);
      }
      p := p + 1;
      i := i + 1;
    }
    assert amount[..i] == amount;
  }

  /** The loop of `reverse`. */
  method ReverseBits(d: Bits) returns (r: Bits)
    ensures r == Reverse(d)
  {
    r := Fill(false, |d|);
    var i := 0;
    while i < |d|
      invariant 0 <= i <= |d| && |r| == |d|
      invariant forall k :: 0 <= k < i ==> r[|d| - 1 - k] == d[k]
    {
      r := r[|d| - i - 1 := d[i]];
      i := i + 1;
    }
  }

  datatype In = In(en: bool, data: Bits, amount: Bits, right: bool, fill: bool)

  datatype Regs = Regs(stage: Bits, amount: Bits, fill: bool, ready: bool, right: bool)

  /** What the shifter is asked for. */
  function Request(i: In): Bits {
    if i.right then ShiftRight(i.data, i.fill, ToNat(i.amount)) else ShiftLeft(i.data, i.fill, ToNat(i.amount))
  }

  /** One clock edge, with the pipeline register after the first `split` amount bits. */
  function Step(r: Regs, i: In, split: nat): Regs
    requires split <= |i.amount|
  {
    var input := if i.right then Reverse(i.data) else i.data;
    if i.en then
      Regs(ShiftLeft(input, i.fill, ToNat(i.amount[..split])), i.amount[split..], i.fill, true, i.right)
    else
      r.(ready := false, right := i.right)
  }

  /** The output after the pipeline register. */
  function Output(r: Regs, split: nat): Bits {
    var out := ShiftLeft(r.stage, r.fill, ToNat(r.amount) * Pow2(split));
    if r.right then Reverse(out) else out
  }

  class PipelinedShifter {
    const split: nat
    var stage: Bits
    var amount: Bits
    var fill: bool
    var ready: bool
    var right: bool

    constructor (split: nat, width: nat, amountWidth: nat)
      requires 0 < split <= amountWidth
      ensures this.split == split && !ready
    {
      this.split := split;
      stage, amount := Fill(false, width), Fill(false, amountWidth - split);
      fill, ready, right := false, false, false;
    }

    function Registers(): Regs
      reads this
    {
      Regs(stage, amount, fill, ready, right)
    }

    method Clock(i: In)
      requires split <= |i.amount|
      modifies this
      ensures Registers() == Step(old(Registers()), i, split)
    {
      var input := i.data;
      if i.right {
        input := ReverseBits(i.data);
      }
      var first := LeftShiftComb(input, i.amount[..split], i.fill, 0);
      assert Pow2(0) == 1;
      if i.en {
        amount := i.amount[split..];
        fill := i.fill;
        stage := first;
      }
      ready := i.en;
      right := i.right;
    }

    method Read() returns (d: Bits)
      ensures d == Output(Registers(), split)
    {
      d := LeftShiftComb(stage, amount, fill, split);
      if right {
        d := ReverseBits(d);
      }
    }
  }

  // ---- laws ----

  lemma {:induction false} NatFill(f: bool, n: nat)
    ensures ToNat(Fill(f, n)) == if f then Pow2(n) - 1 else 0
  {
    if n == 0 {
    } else {
      NatFill(f, n - 1);
      assert Fill(f, n)[1..] == Fill(f, n - 1);
    }
  }

  /** Shifting in two stages is shifting by the sum. */
  lemma ShiftTwice(d: Bits, f: bool, a: nat, b: nat)
    ensures ShiftLeft(ShiftLeft(d, f, a), f, b) == ShiftLeft(d, f, a + b)
  {
  }

  /** Reversal before and after turns a left shift into a right shift. */
  lemma ReverseShift(d: Bits, f: bool, n: nat)
    ensures Reverse(ShiftLeft(Reverse(d), f, n)) == ShiftRight(d, f, n)
  {
  }

  lemma SplitAmount(amount: Bits, split: nat)
    requires split <= |amount|
    ensures ToNat(amount[..split]) + ToNat(amount[split..]) * Pow2(split) == ToNat(amount)
  {
    NatConcat(amount[..split], amount[split..]);
    assert amount[..split] + amount[split..] == amount;
  }

  /** For every word, amount, direction, fill bit and position of the pipeline register: one edge
      after an enabled request the output is ready and is the requested shift, whatever the
      inputs are by then. */
  lemma PipelinedShift(r: Regs, i: In, split: nat)
    requires split <= |i.amount|
    ensures var r' := Step(r, i, split);
            r'.ready == i.en && (i.en ==> Output(r', split) == Request(i))
  {
    var input := if i.right then Reverse(i.data) else i.data;
    ShiftTwice(input, i.fill, ToNat(i.amount[..split]), ToNat(i.amount[split..]) * Pow2(split));
    SplitAmount(i.amount, split);
    ReverseShift(i.data, i.fill, ToNat(i.amount));
  }

  /** The shifter built without a pipeline register answers in the same cycle. */
  function Combinational(i: In): Bits {
    var input := if i.right then Reverse(i.data) else i.data;
    var out := ShiftLeft(input, i.fill, ToNat(i.amount));
    if i.right then Reverse(out) else out
  }

  /** Wherever the pipeline register is put, the result is that of the shifter without one. */
  lemma SplitIrrelevant(r: Regs, i: In, split: nat)
    requires 0 < split <= |i.amount| && i.en
    ensures Output(Step(r, i, split), split) == Combinational(i) == Request(i)
  {
    PipelinedShift(r, i, split);
    ReverseShift(i.data, i.fill, ToNat(i.amount));
  }

  // ---- the shifts as arithmetic ----

  /** What shifting out does to the number: the top part goes, the rest moves up. */
  lemma DropTop(keep: nat, lost: nat, p: nat, q: nat, low: nat)
    requires keep < p && low < q
    ensures ((keep + lost * p) * q + low) % (p * q) == keep * q + low
  {
    Below(keep, low, p, q);
    MulShuffle(keep, lost, p, q);
    DivUnique(lost, keep * q + low, p * q);
  }

  /** Left shift: multiply by 2^n and drop the overflow, with the fill bits below. */
  lemma {:induction false} LeftShiftValue(d: Bits, f: bool, n: nat)
    requires n <= |d|
    ensures ToNat(ShiftLeft(d, f, n)) == (ToNat(d) * Pow2(n) + if f then Pow2(n) - 1 else 0) % Pow2(|d|)
  {
    var keep, lost := d[..|d| - n], d[|d| - n..];
    assert ShiftLeft(d, f, n) == Fill(f, n) + keep;
    NatConcat(Fill(f, n), keep);
    NatFill(f, n);
    NatConcat(keep, lost);
    assert d == keep + lost;
    PowAdd(|d| - n, n);
    NatBelow(keep);
    DropTop(ToNat(keep), ToNat(lost), Pow2(|d| - n), Pow2(n), if f then Pow2(n) - 1 else 0);
  }

  lemma MulShuffle(keep: nat, lost: nat, p: nat, q: nat)
    ensures (keep + lost * p) * q == lost * (p * q) + keep * q
  {
  }

  /** Right shift: divide by 2^n rounding down, with the fill bits on top. */
  lemma RightShiftValue(d: Bits, f: bool, n: nat)
    requires n <= |d|
    ensures ToNat(ShiftRight(d, f, n)) == ToNat(d) / Pow2(n) + if f then Pow2(|d|) - Pow2(|d| - n) else 0
  {
    var lost, keep := d[..n], d[n..];
    assert ShiftRight(d, f, n) == keep + Fill(f, n);
    assert d == lost + keep;
    NatConcat(keep, Fill(f, n));
    NatFill(f, n);
    NatConcat(lost, keep);
    NatBelow(lost);
    DivUnique(ToNat(keep), ToNat(lost), Pow2(n));
    PowAdd(n, |d| - n);
    assert (Pow2(n) - 1) * Pow2(|d| - n) == Pow2(n) * Pow2(|d| - n) - Pow2(|d| - n);
  }

  /** With the sign bit as fill, a right shift divides the signed value rounding down. */
  lemma ArithmeticShift(d: Bits, n: nat)
    requires |d| > 0 && n <= |d|
    ensures SignedValue(ShiftRight(d, d[|d| - 1], n)) == SignedValue(d) / Pow2(n)
  {
    var f := d[|d| - 1];
    RightShiftValue(d, f, n);
    assert ShiftRight(d, f, n)[|d| - 1] == f;
    if f {
      PowAdd(n, |d| - n);
      DivShift(ToNat(d), Pow2(n), Pow2(|d| - n));
    }
  }

  lemma DivShift(x: nat, p: nat, q: nat)
    requires p >= 1
    ensures (x - p * q) / p == x / p - q
  {
    var k := x / p - q;
    assert x - p * q == p * k + x % p by {
      assert p * k == p * (x / p) - p * q;
    }
    DivUniqueInt(x - p * q, k, x % p, p);
  }

  lemma DivUniqueInt(z: int, k: int, r: nat, p: nat)
    requires r < p && z == p * k + r
    ensures z / p == k
  {
    var e := k - z / p;
    assert p * e == p * k - p * (z / p);
    SmallProduct(p, e);
  }

  lemma SmallProduct(p: nat, e: int)
    requires 0 - p < p * e < p
    ensures e == 0
  {
    if e >= 1 {
      MulMono(1, e, p);
    } else if e <= 0 - 1 {
      assert (0 - e) * p == 0 - p * e;
      MulMono(1, 0 - e, p);
    }
  }

  /** Two's complement. */
  function SignedValue(d: Bits): int
    requires |d| > 0
  {
    ToNat(d) - if d[|d| - 1] then Pow2(|d|) else 0
  }
}
