/** Address masks of the data bus interconnect and the check that no two of them overlap
    (rtl/uncore/dbus_interconnect.py).
 */
module AddressDecode {
  import opened Arithmetic

  /** Address bits `lower` .. `upper` - 1 must equal `value`. */
  datatype AdrMask = AdrMask(upper: nat, lower: nat, value: nat)

  predicate Valid(m: AdrMask, xlen: nat) {
    m.lower < m.upper <= xlen && m.value < Pow2(m.upper - m.lower)
  }

  /** The address decoder of one slave. */
  predicate Decodes(m: AdrMask, adr: nat)
    requires m.lower <= m.upper
  {
    Low(Down(adr, m.lower), m.upper - m.lower) == m.value
  }

  // ---- bitwise operations ----

  function And(x: nat, y: nat): nat
    decreases x
  {
    if x == 0 || y == 0 then 0 else Num(x % 2 == 1 && y % 2 == 1) + 2 * And(x / 2, y / 2)
  }

  function Or(x: nat, y: nat): nat
    decreases x + y
  {
    if x + y == 0 then 0 else Num(x % 2 == 1 || y % 2 == 1) + 2 * Or(x / 2, y / 2)
  }

  function Xor(x: nat, y: nat): nat
    decreases x + y
  {
    if x + y == 0 then 0 else Num((x % 2 == 1) != (y % 2 == 1)) + 2 * Xor(x / 2, y / 2)
  }

  function ShiftUp(x: nat, n: nat): nat {
    x * Pow2(n)
  }

  function Ones(n: nat): nat {
    Pow2(n) - 1
  }

  // ---- the source's definitions ----

  function BaseAddress(m: AdrMask): nat {
    ShiftUp(m.value, m.lower)
  }

  function AddressMask(m: AdrMask, xlen: nat): nat
    requires m.lower <= m.upper
  {
    And(ShiftUp(Ones(m.upper - m.lower), m.lower), Ones(xlen))
  }

  /** First and last address of the mapped range. */
  function MappedRange(m: AdrMask, xlen: nat): (nat, nat)
    requires m.lower <= m.upper
  {
    (BaseAddress(m), Or(BaseAddress(m), Xor(Ones(xlen), AddressMask(m, xlen))))
  }

  function Min(x: nat, y: nat): nat {
    if x < y then x else y
  }

  function Max(x: nat, y: nat): nat {
    if x < y then y else x
  }

  predicate Overlap(a: AdrMask, b: AdrMask, xlen: nat)
    requires a.lower <= a.upper && b.lower <= b.upper
  {
    var low := Min(a.lower, b.lower);
    var width := Max(a.upper, b.upper) - low;
    var aValue := And(Down(BaseAddress(a), low), Ones(width));
    var bValue := And(Down(BaseAddress(b), low), Ones(width));
    var aMask := Down(AddressMask(a, xlen), low);
    var bMask := Down(AddressMask(b, xlen), low);
    And(aValue, bMask) == And(bValue, aMask)
  }

  // ---- bits of the operations ----

  lemma {:induction false} BitOfAnd(x: nat, y: nat, i: nat)
    ensures Bit(And(x, y), i) == (Bit(x, i) && Bit(y, i))
    decreases x
  {
    if i == 0 {
    } else if x == 0 || y == 0 {
      BitZero(i);
    } else {
      BitOfAnd(x / 2, y / 2, i - 1);
    }
  }

  lemma {:induction false} BitOfOr(x: nat, y: nat, i: nat)
    ensures Bit(Or(x, y), i) == (Bit(x, i) || Bit(y, i))
    decreases x + y
  {
    if i == 0 {
    } else if x + y == 0 {
      BitZero(i);
    } else {
      BitOfOr(x / 2, y / 2, i - 1);
    }
  }

  lemma {:induction false} BitOfXor(x: nat, y: nat, i: nat)
    ensures Bit(Xor(x, y), i) == (Bit(x, i) != Bit(y, i))
    decreases x + y
  {
    if i == 0 {
    } else if x + y == 0 {
      BitZero(i);
    } else {
      BitOfXor(x / 2, y / 2, i - 1);
    }
  }

  lemma {:induction false} BitOfShiftUp(x: nat, n: nat, i: nat)
    ensures Bit(ShiftUp(x, n), i) == (i >= n && Bit(x, i - n))
    decreases n
  {
    if n == 0 {
      assert Pow2(0) == 1;
    } else {
      assert ShiftUp(x, n) == 2 * ShiftUp(x, n - 1);
      if i > 0 {
        BitOfShiftUp(x, n - 1, i - 1);
      }
    }
  }

  lemma {:induction false} BitOfDown(x: nat, n: nat, i: nat)
    ensures Bit(Down(x, n), i) == Bit(x, i + n)
    decreases n
  {
    if n == 0 {
      assert Pow2(0) == 1;
    } else {
      DownHalf(x, n - 1);
      BitOfDown(x / 2, n - 1, i);
    }
  }

  lemma {:induction false} BitOfOnes(n: nat, i: nat)
    ensures Bit(Ones(n), i) == (i < n)
    decreases n
  {
    if i == 0 {
    } else if n == 0 {
      BitZero(i);
    } else {
      assert Ones(n) == 2 * Ones(n - 1) + 1;
      BitOfOnes(n - 1, i - 1);
    }
  }

  lemma {:induction false} BitAbove(x: nat, n: nat, i: nat)
    requires x < Pow2(n) && n <= i
    ensures !Bit(x, i)
    decreases n
  {
    if n == 0 {
      BitZero(i);
    } else {
      BitAbove(x / 2, n - 1, i - 1);
    }
  }

  // ---- masks by bits ----

  predicate InField(m: AdrMask, i: nat) {
    m.lower <= i < m.upper
  }

  lemma BitOfBase(m: AdrMask, xlen: nat, i: nat)
    requires Valid(m, xlen)
    ensures Bit(BaseAddress(m), i) == (InField(m, i) && Bit(m.value, i - m.lower))
  {
    BitOfShiftUp(m.value, m.lower, i);
    if i >= m.upper {
      BitAbove(m.value, m.upper - m.lower, i - m.lower);
    }
  }

  lemma BitOfMask(m: AdrMask, xlen: nat, i: nat)
    requires Valid(m, xlen)
    ensures Bit(AddressMask(m, xlen), i) == InField(m, i)
  {
    BitOfAnd(ShiftUp(Ones(m.upper - m.lower), m.lower), Ones(xlen), i);
    BitOfOnes(xlen, i);
    BitOfShiftUp(Ones(m.upper - m.lower), m.lower, i);
    if i >= m.lower {
      BitOfOnes(m.upper - m.lower, i - m.lower);
    }
  }

  /** An address decodes exactly when its field bits are those of the base address. */
  ghost predicate FieldMatches(m: AdrMask, adr: nat) {
    forall i: nat :: InField(m, i) ==> Bit(adr, i) == Bit(BaseAddress(m), i)
  }

  lemma LowHalf(x: nat, n: nat)
    ensures Low(x, n + 1) / 2 == Low(x / 2, n) && Low(x, n + 1) % 2 == x % 2
  {
    var d := Pow2(n);
    DivNat(x / 2, d);
    var q, r := x / 2 / d, x / 2 % d;
    assert x == q * (2 * d) + (2 * r + x % 2) by {
      assert 2 * (q * d) == q * (2 * d);
    }
    DivUnique(q, 2 * r + x % 2, 2 * d);
  }

  lemma {:induction false} BitOfLow(x: nat, n: nat, i: nat)
    ensures Bit(Low(x, n), i) == (i < n && Bit(x, i))
    decreases n
  {
    if n == 0 {
      assert Pow2(0) == 1;
      BitZero(i);
    } else {
      LowHalf(x, n - 1);
      if i > 0 {
        BitOfLow(x / 2, n - 1, i - 1);
      }
    }
  }

  lemma DecodesIffMatches(m: AdrMask, xlen: nat, adr: nat)
    requires Valid(m, xlen)
    ensures Decodes(m, adr) <==> FieldMatches(m, adr)
  {
    var field := Low(Down(adr, m.lower), m.upper - m.lower);
    forall i: nat
      ensures Bit(field, i) == (i < m.upper - m.lower && Bit(adr, i + m.lower))
    {
      BitOfLow(Down(adr, m.lower), m.upper - m.lower, i);
      BitOfDown(adr, m.lower, i);
    }
    if Decodes(m, adr) {
      forall i: nat | InField(m, i)
        ensures Bit(adr, i) == Bit(BaseAddress(m), i)
      {
        BitOfBase(m, xlen, i);
        assert Bit(field, i - m.lower) == Bit(adr, i);
      }
    }
    if FieldMatches(m, adr) {
      forall i: nat
        ensures Bit(field, i) == Bit(m.value, i)
      {
        BitOfBase(m, xlen, i + m.lower);
        if i >= m.upper - m.lower {
          BitAbove(m.value, m.upper - m.lower, i);
        }
      }
      SameBits(field, m.value);
    }
  }

  /** The bases agree where both masks look. */
  ghost predicate Agree(a: AdrMask, b: AdrMask) {
    forall i: nat :: InField(a, i) && InField(b, i) ==> Bit(BaseAddress(a), i) == Bit(BaseAddress(b), i)
  }

  lemma OverlapSide(a: AdrMask, b: AdrMask, xlen: nat, low: nat, width: nat, i: nat)
    requires Valid(a, xlen) && Valid(b, xlen) && low <= a.lower && a.upper <= low + width
    ensures Bit(And(And(Down(BaseAddress(a), low), Ones(width)), Down(AddressMask(b, xlen), low)), i)
         == (Bit(BaseAddress(a), i + low) && InField(b, i + low))
    ensures Bit(BaseAddress(a), i + low) ==> InField(a, i + low)
  {
    BitOfAnd(And(Down(BaseAddress(a), low), Ones(width)), Down(AddressMask(b, xlen), low), i);
    BitOfAnd(Down(BaseAddress(a), low), Ones(width), i);
    BitOfDown(BaseAddress(a), low, i);
    BitOfDown(AddressMask(b, xlen), low, i);
    BitOfOnes(width, i);
    BitOfMask(b, xlen, i + low);
    BitOfBase(a, xlen, i + low);
  }

  lemma OverlapIffAgree(a: AdrMask, b: AdrMask, xlen: nat)
    requires Valid(a, xlen) && Valid(b, xlen)
    ensures Overlap(a, b, xlen) <==> Agree(a, b)
  {
    var low := Min(a.lower, b.lower);
    var width := Max(a.upper, b.upper) - low;
    var left := And(And(Down(BaseAddress(a), low), Ones(width)), Down(AddressMask(b, xlen), low));
    var right := And(And(Down(BaseAddress(b), low), Ones(width)), Down(AddressMask(a, xlen), low));
    if Overlap(a, b, xlen) {
      forall i: nat | InField(a, i) && InField(b, i)
        ensures Bit(BaseAddress(a), i) == Bit(BaseAddress(b), i)
      {
        OverlapSide(a, b, xlen, low, width, i - low);
        OverlapSide(b, a, xlen, low, width, i - low);
      }
    }
    if Agree(a, b) {
      forall i: nat
        ensures Bit(left, i) == Bit(right, i)
      {
        OverlapSide(a, b, xlen, low, width, i);
        OverlapSide(b, a, xlen, low, width, i);
      }
      SameBits(left, right);
    }
  }

  /** An address with the field of `a`, and the field of `b` elsewhere. */
  function Common(a: AdrMask, b: AdrMask, xlen: nat): Bits {
    seq(xlen, i requires 0 <= i < xlen => if InField(a, i) then Bit(BaseAddress(a), i) else Bit(BaseAddress(b), i))
  }

  /** The overlap check is exact: it is true for two masks just when some address decodes to both. */
  lemma OverlapIff(a: AdrMask, b: AdrMask, xlen: nat)
    requires Valid(a, xlen) && Valid(b, xlen)
    ensures Overlap(a, b, xlen) <==> exists adr: nat :: adr < Pow2(xlen) && Decodes(a, adr) && Decodes(b, adr)
  {
    OverlapIffAgree(a, b, xlen);
    if Agree(a, b) {
      var adr := ToNat(Common(a, b, xlen));
      NatBelow(Common(a, b, xlen));
      forall i: nat
        ensures InField(a, i) ==> Bit(adr, i) == Bit(BaseAddress(a), i)
        ensures InField(b, i) ==> Bit(adr, i) == Bit(BaseAddress(b), i)
      {
        BitOfNat(Common(a, b, xlen), i);
      }
      DecodesIffMatches(a, xlen, adr);
      DecodesIffMatches(b, xlen, adr);
      assert Decodes(a, adr) && Decodes(b, adr);
    }
    forall adr: nat | Decodes(a, adr) && Decodes(b, adr)
      ensures Agree(a, b)
    {
      DecodesIffMatches(a, xlen, adr);
      DecodesIffMatches(b, xlen, adr);
      assert FieldMatches(a, adr) && FieldMatches(b, adr);
    }
  }

  // ---- the range a mask reports ----

  /** A number whose bits all occur in another is not larger. */
  lemma {:induction false} SubsetBits(x: nat, y: nat)
    requires forall i: nat :: Bit(x, i) ==> Bit(y, i)
    ensures x <= y
    decreases x
  {
    if x == 0 {
    } else {
      forall i: nat
        ensures Bit(x / 2, i) ==> Bit(y / 2, i)
      {
        assert Bit(x, i + 1) ==> Bit(y, i + 1);
      }
      SubsetBits(x / 2, y / 2);
      assert Bit(x, 0) ==> Bit(y, 0);
    }
  }

  /** Every address a mask decodes lies in the range reported for it. */
  lemma DecodedInRange(m: AdrMask, xlen: nat, adr: nat)
    requires Valid(m, xlen) && adr < Pow2(xlen) && Decodes(m, adr)
    ensures MappedRange(m, xlen).0 <= adr <= MappedRange(m, xlen).1
  {
    DecodesIffMatches(m, xlen, adr);
    var free := Xor(Ones(xlen), AddressMask(m, xlen));
    forall i: nat
      ensures Bit(BaseAddress(m), i) ==> Bit(adr, i)
      ensures Bit(adr, i) ==> Bit(Or(BaseAddress(m), free), i)
    {
      BitOfBase(m, xlen, i);
      BitOfMask(m, xlen, i);
      BitOfOr(BaseAddress(m), free, i);
      BitOfXor(Ones(xlen), AddressMask(m, xlen), i);
      BitOfOnes(xlen, i);
      if i >= xlen {
        BitAbove(adr, xlen, i);
      }
    }
    SubsetBits(BaseAddress(m), adr);
    SubsetBits(adr, Or(BaseAddress(m), free));
  }

  // ---- validation of a mapping ----

  datatype Option<T> = None | Some(value: T)

  /** One slot of the interconnect: is a slave connected, its mask, is the slot registered. */
  datatype Slot = Slot(connected: bool, mask: Option<AdrMask>, registered: bool)

  predicate SlotOk(s: Slot, xlen: nat) {
    if s.connected then s.mask.Some? && Valid(s.mask.value, xlen) else s.mask.None? && !s.registered
  }

  predicate Selects(s: Slot, adr: nat) {
    s.connected && s.mask.Some? && s.mask.value.lower <= s.mask.value.upper && Decodes(s.mask.value, adr)
  }

  predicate PairOk(s: Slot, s': Slot, xlen: nat) {
    s.connected && s'.connected && SlotOk(s, xlen) && SlotOk(s', xlen) ==> !Overlap(s.mask.value, s'.mask.value, xlen)
  }

  /** The checks made before an interconnect is built; `false` stands for a failed assertion. */
  method Validate(slots: seq<Slot>, xlen: nat) returns (ok: bool)
    ensures ok <==>
      && (forall k :: 0 <= k < |slots| ==> SlotOk(slots[k], xlen))
      && (forall k, j :: 0 <= k < j < |slots| ==> PairOk(slots[k], slots[j], xlen))
  {
    for k := 0 to |slots|
      invariant forall n :: 0 <= n < k ==> SlotOk(slots[n], xlen)
    {
      if !SlotOk(slots[k], xlen) {
        return false;
      }
    }
    for k := 0 to |slots|
      invariant forall n, j :: 0 <= n < k && n < j < |slots| ==> PairOk(slots[n], slots[j], xlen)
    {
      for j := k + 1 to |slots|
        invariant forall n :: k < n < j ==> PairOk(slots[k], slots[n], xlen)
      {
        if slots[k].connected && slots[j].connected {
          assert SlotOk(slots[k], xlen) && SlotOk(slots[j], xlen);
          if Overlap(slots[k].mask.value, slots[j].mask.value, xlen) {
            return false;
          }
        }
      }
    }
    ok := true;
  }

  /** A mapping passes validation exactly when its slots are well formed and no address selects
      two of them; and then each selected slot's range holds the address. */
  lemma ValidatedIff(slots: seq<Slot>, xlen: nat)
    requires forall k :: 0 <= k < |slots| ==> SlotOk(slots[k], xlen)
    ensures (forall k, j :: 0 <= k < j < |slots| ==> PairOk(slots[k], slots[j], xlen))
      <==> (forall adr: nat, k, j :: adr < Pow2(xlen) && 0 <= k < j < |slots| ==>
              !(Selects(slots[k], adr) && Selects(slots[j], adr)))
    ensures forall adr: nat, k :: adr < Pow2(xlen) && 0 <= k < |slots| && Selects(slots[k], adr) ==>
              MappedRange(slots[k].mask.value, xlen).0 <= adr <= MappedRange(slots[k].mask.value, xlen).1
  {
    forall k, j | 0 <= k < j < |slots|
      ensures PairOk(slots[k], slots[j], xlen) <==>
        (forall adr: nat :: adr < Pow2(xlen) ==> !(Selects(slots[k], adr) && Selects(slots[j], adr)))
    {
      assert SlotOk(slots[k], xlen) && SlotOk(slots[j], xlen);
      if slots[k].connected && slots[j].connected {
        var a, b := slots[k].mask.value, slots[j].mask.value;
        OverlapIff(a, b, xlen);
        forall adr: nat | adr < Pow2(xlen)
          ensures Selects(slots[k], adr) == Decodes(a, adr) && Selects(slots[j], adr) == Decodes(b, adr)
        {
        }
        if Overlap(a, b, xlen) {
          var adr: nat :| adr < Pow2(xlen) && Decodes(a, adr) && Decodes(b, adr);
          assert Selects(slots[k], adr) && Selects(slots[j], adr);
        }
      }
    }
    forall adr: nat, k | adr < Pow2(xlen) && 0 <= k < |slots| && Selects(slots[k], adr)
      ensures MappedRange(slots[k].mask.value, xlen).0 <= adr <= MappedRange(slots[k].mask.value, xlen).1
    {
      DecodedInRange(slots[k].mask.value, xlen, adr);
    }
  }
}
