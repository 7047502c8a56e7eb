/** The non-restoring divider (rtl/divider.py): registers, combinational signals and one clock edge. */
module Divider {
  import opened Arithmetic

  const M16: int := 0x1_0000
  const M31: int := 0x8000_0000
  const M32: int := 0x1_0000_0000
  const M33: int := 0x2_0000_0000

  type U16 = x: nat | x < M16
  type U17 = x: nat | x < 0x2_0000
  type U32 = x: nat | x < M32
  type U33 = x: nat | x < M33

  datatype In = In(ce: bool, op1: U32, op2: U32, signed: bool, rem: bool)

  /** Two's complement in two halves; the carry into the high half is bit 16 of `sumLow`. */
  datatype Complementor = Complementor(sumLow: U17, dHigh: U16)

  datatype Control = Control(fsmCe: bool, wantRemainder: bool, invRes: bool)

  datatype Fsm = Fsm(dividend: U32, divisor: U33, partial: U33, subtract: bool, cnt: nat, ceo: bool)

  datatype Restore = Restore(corrector: U32, carry: bool, remainderPos: U32)

  datatype Regs = Regs(compl: Complementor, control: Control, fsm: Fsm, restore: Restore)

  predicate Top(x: U32) {
    x >= M31
  }

  /** Bitwise exclusive-or of a word with one control bit in every position. */
  function Inverted32(x: U32, c: bool): U32 {
    if c then M32 - 1 - x else x
  }

  function Inverted33(x: U33, c: bool): U33 {
    if c then M33 - 1 - x else x
  }

  /** A 32-bit register shifted left by one, and the bit shifted out. */
  function ShiftLeft(x: U32, low: bool): U32 {
    x % M31 * 2 + Num(low)
  }

  predicate ShiftedOut(x: U32) {
    x / M31 == 1
  }

  function LowWord(x: U33): U32 {
    x % M32
  }

  /** A word with one more bit below it. */
  function Append(x: U32, low: bool): U33 {
    x * 2 + Num(low)
  }

  // ---- combinational signals ----

  function ComplOut(c: Complementor): U32 {
    (c.dHigh + c.sumLow / M16) % M16 * M16 + c.sumLow % M16
  }

  predicate Negative(f: Fsm) {
    f.divisor >= M32
  }

  function Sum(f: Fsm): U33 {
    (f.partial + Inverted33(f.divisor, f.subtract) + Num(f.subtract)) % M33
  }

  predicate SumPositive(f: Fsm) {
    Sum(f) < M32
  }

  function ResultPos(r: Regs): U32 {
    if r.control.wantRemainder then r.restore.remainderPos else r.fsm.dividend
  }

  function ComplInv(r: Regs, i: In): bool {
    if i.ce then Top(i.op1) && i.signed else r.control.invRes
  }

  function ComplMux(r: Regs, i: In): U32 {
    if i.ce then i.op1 else ResultPos(r)
  }

  // ---- one clock edge ----

  function ComplStep(inv: bool, d: U32): Complementor {
    var prepared := Inverted32(d, inv);
    Complementor(prepared % M16 + Num(inv), prepared / M16)
  }

  function ControlStep(c: Control, i: In): Control {
    if !i.ce then c.(fsmCe := false)
    else Control(true, i.rem,
                 i.signed && if i.rem then Top(i.op1) else Top(i.op1) != Top(i.op2) && i.op2 != 0)
  }

  /** The state machine, given the adder's result. */
  function FsmNext(f: Fsm, c: Control, complOut: U32, i: In, sum: U33, positive: bool): Fsm {
    var divisor := if i.ce then i.op2 + (if Top(i.op2) && i.signed then M32 else 0) else f.divisor;
    if c.fsmCe then
      Fsm(ShiftLeft(complOut, false), divisor, Num(ShiftedOut(complOut)), !Negative(f), if c.wantRemainder then 34 else 33, f.cnt == 1)
    else
      Fsm(ShiftLeft(f.dividend, positive), divisor, Append(LowWord(sum), ShiftedOut(f.dividend)),
          positive != Negative(f), if f.cnt > 0 then f.cnt - 1 else 0, f.cnt == 1)
  }

  function FsmStep(f: Fsm, c: Control, complOut: U32, i: In): Fsm {
    FsmNext(f, c, complOut, i, Sum(f), SumPositive(f))
  }

  function RestoreStep(o: Restore, f: Fsm): Restore {
    Restore(if SumPositive(f) then 0 else Inverted32(f.divisor % M32, Negative(f)),
            Negative(f) && !SumPositive(f),
            (f.partial / 2 + o.corrector + Num(o.carry)) % M32)
  }

  function Step(r: Regs, i: In): Regs {
    Regs(ComplStep(ComplInv(r, i), ComplMux(r, i)), ControlStep(r.control, i),
         FsmStep(r.fsm, r.control, ComplOut(r.compl), i), RestoreStep(r.restore, r.fsm))
  }

  // ---- the circuit ----

  /** The low n bits of `x`, inverted when `c` is set. */
  function InvertedLow(x: nat, c: bool, n: nat): nat {
    if c then Pow2(n) - 1 - x % Pow2(n) else x % Pow2(n)
  }

  lemma InvertedNext(x: nat, c: bool, i: nat)
    ensures InvertedLow(x, c, i + 1) == InvertedLow(x, c, i) + if Bit(x, i) != c then Pow2(i) else 0
  {
    LowBits(x, i);
  }

  class DividerUnit {
    var sumLow: U17
    var dHigh: U16
    var fsmCe: bool
    var wantRemainder: bool
    var invRes: bool
    var dividend: U32
    var divisor: U33
    var partial: U33
    var subtract: bool
    var cnt: nat
    var ceo: bool
    var corrector: U32
    var carry: bool
    var remainderPos: U32

    constructor ()
      ensures Registers() == Regs(Complementor(0, 0), Control(false, false, false),
                                  Fsm(0, 0, 0, false, 0, false), Restore(0, false, 0))
    {
      sumLow, dHigh := 0, 0;
      fsmCe, wantRemainder, invRes := false, false, false;
      dividend, divisor, partial, subtract, cnt, ceo := 0, 0, 0, false, 0, false;
      corrector, carry, remainderPos := 0, false, 0;
    }

    function FsmRegs(): Fsm
      reads `dividend, `divisor, `partial, `subtract, `cnt, `ceo
    {
      Fsm(dividend, divisor, partial, subtract, cnt, ceo)
    }

    function Registers(): Regs
      reads this
    {
      Regs(Complementor(sumLow, dHigh), Control(fsmCe, wantRemainder, invRes), FsmRegs(),
           Restore(corrector, carry, remainderPos))
    }

    /** The bit loop of the complementor, of the adder input and of the remainder corrector. */
    static method InvertBits(x: nat, c: bool, n: nat) returns (temp: nat)
      requires x < Pow2(n)
      ensures temp == if c then Pow2(n) - 1 - x else x
    {
      DivUnique(0, x, Pow2(n));
      temp := 0;
      var i := 0;
      while i < n
        invariant 0 <= i <= n
        invariant temp == InvertedLow(x, c, i)
      {
        InvertedNext(x, c, i);
        if Bit(x, i) != c {
          temp := temp + Pow2(i);
        }
        i := i + 1;
      }
    }

    method ClockComplementor(inv: bool, d: U32)
      modifies this`sumLow, this`dHigh
      ensures Complementor(sumLow, dHigh) == ComplStep(inv, d)
    {
      Powers();
      var prepared := InvertBits(d, inv, 32);
      sumLow := prepared % M16 + Num(inv);
      dHigh := prepared / M16;
    }

    method Adder() returns (sum: U33, positive: bool)
      ensures sum == Sum(FsmRegs()) && positive == SumPositive(FsmRegs())
    {
      Powers();
      var addend := InvertBits(divisor, subtract, 33);
      sum := (partial + addend + Num(subtract)) % M33;
      positive := sum < M32;
    }

    method ClockRestoration(positive: bool)
      requires positive == SumPositive(FsmRegs())
      modifies this`remainderPos, this`corrector, this`carry
      ensures Restore(corrector, carry, remainderPos)
           == RestoreStep(old(Restore(corrector, carry, remainderPos)), old(FsmRegs()))
    {
      Powers();
      var flipped := InvertBits(divisor % M32, divisor >= M32, 32);
      remainderPos := (partial / 2 + corrector + Num(carry)) % M32;
      corrector := if positive then 0 else flipped;
      carry := divisor >= M32 && !positive;
    }

    method ClockFsm(i: In, complOut: U32, sum: U33, positive: bool)
      modifies this`ceo, this`divisor, this`dividend, this`partial, this`subtract, this`cnt
      ensures FsmRegs() == FsmNext(old(FsmRegs()), Control(fsmCe, wantRemainder, invRes), complOut, i, sum, positive)
    {
      var negative := divisor >= M32;
      ceo := cnt == 1;
      if i.ce {
        divisor := i.op2 + if Top(i.op2) && i.signed then M32 else 0;
      }
      ClockIteration(complOut, sum, positive, negative);
    }

    method ClockIteration(complOut: U32, sum: U33, positive: bool, negative: bool)
      modifies `dividend, `partial, `subtract, `cnt
      ensures dividend == if fsmCe then ShiftLeft(complOut, false) else ShiftLeft(old(dividend), positive)
      ensures partial == if fsmCe then Num(ShiftedOut(complOut)) else Append(LowWord(sum), ShiftedOut(old(dividend)))
      ensures subtract == if fsmCe then !negative else positive != negative
      ensures cnt == if fsmCe then (if wantRemainder then 34 else 33) else if old(cnt) > 0 then old(cnt) - 1 else 0
    {
      if fsmCe {
        dividend := ShiftLeft(complOut, false);
        partial := Num(ShiftedOut(complOut));
        subtract := !negative;
        cnt := if wantRemainder then 34 else 33;
      } else {
        partial := Append(LowWord(sum), ShiftedOut(dividend));
        subtract := positive != negative;
        dividend := ShiftLeft(dividend, positive);
        if cnt > 0 {
          cnt := cnt - 1;
        }
      }
    }

    method ClockControl(i: In)
      modifies this`fsmCe, this`wantRemainder, this`invRes
      ensures Control(fsmCe, wantRemainder, invRes) == ControlStep(old(Control(fsmCe, wantRemainder, invRes)), i)
    {
      fsmCe := i.ce;
      if i.ce {
        wantRemainder := i.rem;
        if i.rem {
          invRes := Top(i.op1) && i.signed;
        } else {
          invRes := Top(i.op1) != Top(i.op2) && i.signed && i.op2 != 0;
        }
      }
    }

    /** One rising edge. */
    method Clock(i: In)
      modifies this
      ensures Registers() == Step(old(Registers()), i)
    {
      ghost var before := Registers();
      var complInv := if i.ce then Top(i.op1) && i.signed else invRes;
      var complMux := if i.ce then i.op1 else if wantRemainder then remainderPos else dividend;
      ClockDatapath(i, ComplOut(Complementor(sumLow, dHigh)));
      ClockControl(i);
      ClockComplementor(complInv, complMux);
      assert complInv == ComplInv(before, i) && complMux == ComplMux(before, i);
    }

    method ClockDatapath(i: In, complOut: U32)
      modifies `remainderPos, `corrector, `carry, `ceo, `divisor, `dividend, `partial, `subtract, `cnt
      ensures FsmRegs() == FsmStep(old(FsmRegs()), Control(fsmCe, wantRemainder, invRes), complOut, i)
      ensures Restore(corrector, carry, remainderPos)
           == RestoreStep(old(Restore(corrector, carry, remainderPos)), old(FsmRegs()))
    {
      var sum, positive := Adder();
      ClockRestoration(positive);
      ClockFsm(i, complOut, sum, positive);
    }
  }
}
