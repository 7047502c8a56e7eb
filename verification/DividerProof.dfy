/** The circuit computes what section 7.2 of the RISC-V Unprivileged ISA asks for. */
module DividerProof {
  import opened Arithmetic
  import opened Divider
  import opened Division
  import Sequences

  /** A 33-bit divisor register holds plus or minus `d`. */
  predicate Holds(divisor: U33, d: U32, neg: bool) {
    if neg then 1 <= d <= M31 && divisor == M33 - d else divisor == d
  }

  /** The registers after k iterations on dividend `mag` and divisor +-d. */
  ghost predicate Iterating(f: Fsm, mag: U32, d: U32, neg: bool, k: nat)
    requires k <= 32
  {
    SumHeld(f, mag, d, neg, k) && DividendHeld(f.dividend, mag, d, k)
  }

  /** The partial sum, with the next dividend bit below it. */
  ghost predicate SumHeld(f: Fsm, mag: U32, d: U32, neg: bool, k: nat)
    requires k <= 32
  {
    var s := PartialSum(mag, d, k);
    && Holds(f.divisor, d, neg)
    && f.subtract == ((s >= 0) != neg)
    && f.partial / 2 == s % M32
    && (k < 32 ==> f.partial == (2 * s + NextBit(mag, k)) % M33)
  }

  /** The rest of the dividend, with the quotient bits so far below it. */
  ghost predicate DividendHeld(dividend: U32, mag: U32, d: U32, k: nat)
    requires k <= 32
  {
    dividend == if k < 32 then Rest(mag, k + 1) * Pow2(k + 1) + Quotients(mag, d, k) else Quotients(mag, d, 32)
  }

  lemma WrapSign(s: int)
    requires 0 - M32 < s < M32
    ensures s % M33 == if s >= 0 then s else s + M33
    ensures s % M32 == if s >= 0 then s else s + M32
    ensures s % M33 % M32 == s % M32
  {
  }

  lemma WrapDouble(s: int, b: nat)
    requires 0 - M32 < s < M32 && b <= 1
    ensures (2 * s + b) % M33 == s % M32 * 2 + b
  {
    WrapSign(s);
  }

  lemma WrapTurn(z: int)
    ensures (z + M33) % M33 == z % M33
  {
  }

  lemma WrapPlus(x: int, y: int)
    ensures (x % M33 + y) % M33 == (x + y) % M33
  {
  }

  /** Adding an inverted register plus one is subtracting it, in 33 wrapping bits. */
  lemma WrapSum(x: int, partial: U33, divisor: U33, d: U32, neg: bool, minus: bool)
    requires Holds(divisor, d, neg) && partial == x % M33
    ensures (partial + Inverted33(divisor, minus != neg) + Num(minus != neg)) % M33
         == (x + if minus then 0 - d else d) % M33
  {
    var y := if minus then 0 - d else d;
    var sum := partial + Inverted33(divisor, minus != neg) + Num(minus != neg);
    assert sum == partial + y || sum == partial + y + M33;
    WrapTurn(partial + y);
    WrapPlus(x, y);
  }

  lemma SumOf(f: Fsm, s: int, b: nat, d: U32, neg: bool)
    requires Holds(f.divisor, d, neg)
    requires f.subtract == ((s >= 0) != neg) && f.partial == (2 * s + b) % M33
    ensures Sum(f) == (2 * s + b + if s >= 0 then 0 - d else d) % M33
  {
    WrapSum(2 * s + b, f.partial, f.divisor, d, neg, s >= 0);
  }

  lemma SumReads(f: Fsm, t: int)
    requires 0 - M32 < t < M32 && Sum(f) == t % M33
    ensures SumPositive(f) == (t >= 0) && Sum(f) % M32 == t % M32
  {
    WrapSign(t);
  }

  /** The 33-bit sum is the next partial sum, and its top bit is the sign. */
  lemma SumIs(f: Fsm, mag: U32, d: U32, neg: bool, k: nat)
    requires k < 32 && SumHeld(f, mag, d, neg, k)
    ensures Sum(f) == PartialSum(mag, d, k + 1) % M33
    ensures SumPositive(f) == (PartialSum(mag, d, k + 1) >= 0)
    ensures Sum(f) % M32 == PartialSum(mag, d, k + 1) % M32
  {
    SumFits(mag, d, k + 1);
    SumOf(f, PartialSum(mag, d, k), NextBit(mag, k), d, neg);
    SumReads(f, PartialSum(mag, d, k + 1));
  }

  /** One iteration of the adder and the partial remainder, on the sums `s` and `s'` they stand for. */
  lemma NextSum(f: Fsm, f': Fsm, s: int, b: nat, s': int, d: U32, neg: bool)
    requires Holds(f.divisor, d, neg) && f'.divisor == f.divisor
    requires f.subtract == ((s >= 0) != neg) && f.partial == (2 * s + b) % M33
    requires s' == 2 * s + b + (if s >= 0 then 0 - d else d) && 0 - M32 < s' < M32
    requires f'.partial == Append(LowWord(Sum(f)), ShiftedOut(f.dividend))
    requires f'.subtract == (SumPositive(f) != Negative(f))
    ensures SumPositive(f) == (s' >= 0) && f'.subtract == ((s' >= 0) != neg)
    ensures f'.partial / 2 == s' % M32 && f'.partial == (2 * s' + Num(ShiftedOut(f.dividend))) % M33
  {
    SumOf(f, s, b, d, neg);
    SumReads(f, s');
    PartialStep(Sum(f), s', Num(ShiftedOut(f.dividend)));
  }

  lemma ShiftTop(bit: nat, rest: nat, high: nat, low: nat, q: nat, dividend: nat)
    requires high * low == M31 && rest < high && q < low
    requires dividend == (bit * high + rest) * low + q
    ensures dividend / M31 == bit && dividend % M31 == rest * low + q
  {
    assert (bit * high + rest) * low == bit * (high * low) + rest * low;
    Below(rest, q, high, low);
    DivUnique(bit, rest * low + q, M31);
  }

  /** The dividend register: the next bit is on top, and shifting it out makes room for the
      next quotient bit. */
  lemma ShiftDividend(mag: U32, d: U32, k: nat, dividend: U32)
    requires k < 31
    requires dividend == Rest(mag, k + 1) * Pow2(k + 1) + Quotients(mag, d, k)
    ensures dividend / M31 == NextBit(mag, k + 1)
    ensures dividend % M31 * 2 == Rest(mag, k + 2) * Pow2(k + 2) + 2 * Quotients(mag, d, k)
  {
    QuotientFits(mag, d, k);
    Powers();
    TakeBit(mag, k + 1);
    PowAdd(30 - k, k + 1);
    ShiftTop(NextBit(mag, k + 1), Rest(mag, k + 2), Pow2(30 - k), Pow2(k + 1), Quotients(mag, d, k), dividend);
    Double(Rest(mag, k + 2), k + 1);
  }

  lemma Double(rest: nat, k: nat)
    ensures rest * Pow2(k + 1) == 2 * (rest * Pow2(k))
  {
  }

  lemma NothingLeft(mag: U32)
    ensures Rest(mag, 32) == 0
  {
    TakeBit(mag, 31);
    assert Pow2(0) == 1;
  }

  /** In the last iteration only quotient bits are left. */
  lemma LastDividend(mag: U32, d: U32, dividend: U32)
    requires dividend == Rest(mag, 32) * Pow2(32) + Quotients(mag, d, 31)
    ensures dividend % M31 == Quotients(mag, d, 31)
  {
    QuotientFits(mag, d, 31);
    Powers();
    NothingLeft(mag);
    assert dividend == Quotients(mag, d, 31);
  }

  /** The quotient bit enters the dividend register. */
  lemma DividendStep(mag: U32, d: U32, k: nat, dividend: U32)
    requires k < 32 && DividendHeld(dividend, mag, d, k)
    ensures DividendHeld(ShiftLeft(dividend, PartialSum(mag, d, k + 1) >= 0), mag, d, k + 1)
    ensures k < 31 ==> Num(ShiftedOut(dividend)) == NextBit(mag, k + 1)
  {
    if k < 31 {
      ShiftDividend(mag, d, k, dividend);
    } else {
      LastDividend(mag, d, dividend);
    }
  }

  lemma PartialStep(sum: U33, s: int, b: nat)
    requires 0 - M32 < s < M32 && sum % M32 == s % M32 && b <= 1
    ensures (sum % M32 * 2 + b) / 2 == s % M32 && sum % M32 * 2 + b == (2 * s + b) % M33
  {
    WrapDouble(s, b);
  }

  /** The partial remainder after an iteration. */
  lemma IterationSum(f: Fsm, f': Fsm, mag: U32, d: U32, neg: bool, k: nat)
    requires k < 32 && SumHeld(f, mag, d, neg, k) && f'.divisor == f.divisor
    requires k < 31 ==> Num(ShiftedOut(f.dividend)) == NextBit(mag, k + 1)
    requires f'.partial == Append(LowWord(Sum(f)), ShiftedOut(f.dividend))
    requires f'.subtract == (SumPositive(f) != Negative(f))
    ensures SumPositive(f) == (PartialSum(mag, d, k + 1) >= 0) && SumHeld(f', mag, d, neg, k + 1)
  {
    SumFits(mag, d, k + 1);
    NextSum(f, f', PartialSum(mag, d, k), NextBit(mag, k), PartialSum(mag, d, k + 1), d, neg);
  }

  lemma IterationStep(f: Fsm, c: Control, out: U32, i: In, mag: U32, d: U32, neg: bool, k: nat)
    requires k < 32 && Iterating(f, mag, d, neg, k) && !c.fsmCe && !i.ce
    ensures Iterating(FsmStep(f, c, out, i), mag, d, neg, k + 1)
  {
    DividendStep(mag, d, k, f.dividend);
    IterationSum(f, FsmStep(f, c, out, i), mag, d, neg, k);
  }

  // ---- from the sampling edge to the result ----

  lemma CarryJoins(hi: U16, lo: U16, c: bool)
    ensures (hi + (lo + Num(c)) / M16) % M16 * M16 + (lo + Num(c)) % M16 == (hi * M16 + lo + Num(c)) % M32
  {
    if lo + Num(c) < M16 {
      assert (lo + Num(c)) / M16 == 0 && (lo + Num(c)) % M16 == lo + Num(c);
    } else {
      assert (lo + Num(c)) / M16 == 1 && (lo + Num(c)) % M16 == 0;
      if hi == M16 - 1 {
        assert (hi + 1) % M16 == 0;
      } else {
        assert (hi + 1) % M16 == hi + 1;
      }
    }
  }

  lemma ComplementorAdds(inv: bool, x: U32)
    ensures ComplOut(ComplStep(inv, x)) == (Inverted32(x, inv) + Num(inv)) % M32
  {
    var p := Inverted32(x, inv);
    assert p == p / M16 * M16 + p % M16;
    CarryJoins(p / M16, p % M16, inv);
  }

  lemma EncodeNegative(x: U32)
    ensures Encode(0 - x) == if x == 0 then 0 else M32 - x
  {
    assert x > 0 ==> (0 - x) % M32 == M32 - x;
  }

  /** The two-half complementor negates modulo 2^32. */
  lemma ComplementorNegates(inv: bool, x: U32)
    ensures ComplOut(ComplStep(inv, x)) == if inv then Encode(0 - x) else x
  {
    ComplementorAdds(inv, x);
    EncodeNegative(x);
  }

  function Magnitude(x: U32, signed: bool): U32 {
    if Top(x) && signed then M32 - x else x
  }

  /** State after n edges. */
  function Run(r: Regs, ins: seq<In>, n: nat): Regs
    requires n <= |ins|
  {
    if n == 0 then r else Step(Run(r, ins, n - 1), ins[n - 1])
  }

  /** One operation: `ce_i` in the first cycle only.  The operand lines may change afterwards. */
  predicate OneOperation(ins: seq<In>) {
    |ins| >= 36 && ins[0].ce && forall k :: 1 <= k < |ins| ==> !ins[k].ce
  }

  function Latency(rem: bool): nat {
    if rem then 35 else 34
  }

  /** The loop counter at the start of the iterations. */
  function Count(rem: bool): nat {
    if rem then 34 else 33
  }

  /** The second edge loads the prepared dividend. */
  lemma LoadStarts(f: Fsm, c: Control, mag: U32, i: In, d: U32, neg: bool)
    requires Holds(f.divisor, d, neg) && c.fsmCe && !i.ce
    ensures Iterating(FsmStep(f, c, mag, i), mag, d, neg, 0)
  {
    Powers();
    assert Pow2(1) == 2;
    assert NextBit(mag, 0) == mag / M31;
    assert Rest(mag, 1) == mag % M31;
  }

  /** Whether the magnitude result has to be negated. */
  predicate InvRes(i: In) {
    i.signed && if i.rem then Top(i.op1) else Top(i.op1) != Top(i.op2) && i.op2 != 0
  }

  /** An operation for inputs `i` after k iterations. */
  ghost predicate Working(s: Regs, i: In, k: nat) {
    && k <= Count(i.rem)
    && s.fsm.cnt == Count(i.rem) - k
    && !s.fsm.ceo
    && s.control == Control(false, i.rem, InvRes(i))
    && (k <= 32 ==>
          Iterating(s.fsm, Magnitude(i.op1, i.signed), Magnitude(i.op2, i.signed), Top(i.op2) && i.signed, k))
  }

  /** The sampling edge. */
  lemma Sampled(r: Regs, i: In)
    requires i.ce && r.fsm.cnt == 0
    ensures var r1 := Step(r, i);
            && r1.control == Control(true, i.rem, InvRes(i))
            && Holds(r1.fsm.divisor, Magnitude(i.op2, i.signed), Top(i.op2) && i.signed)
            && !r1.fsm.ceo && r1.fsm.cnt != 1
            && ComplOut(r1.compl) == Magnitude(i.op1, i.signed)
  {
    ComplementorNegates(Top(i.op1) && i.signed, i.op1);
  }

  lemma Started(r: Regs, i: In, i': In)
    requires i.ce && !i'.ce && r.fsm.cnt == 0
    ensures !Step(r, i).fsm.ceo && Working(Step(Step(r, i), i'), i, 0)
  {
    var r1 := Step(r, i);
    var r2 := Step(r1, i');
    ComplementorNegates(Top(i.op1) && i.signed, i.op1);
    Sampled(r, i);
    assert r2.control == r1.control.(fsmCe := false);
    assert r2.fsm == FsmStep(r1.fsm, r1.control, ComplOut(r1.compl), i');
    LoadStarts(r1.fsm, r1.control, ComplOut(r1.compl), i', Magnitude(i.op2, i.signed), Top(i.op2) && i.signed);
  }

  lemma WorkingStep(s: Regs, i: In, k: nat, i': In)
    requires Working(s, i, k) && !i'.ce && k < Count(i.rem) - 1
    ensures Working(Step(s, i'), i, k + 1)
  {
    if k < 32 {
      IterationStep(s.fsm, s.control, ComplOut(s.compl), i',
                    Magnitude(i.op1, i.signed), Magnitude(i.op2, i.signed), Top(i.op2) && i.signed, k);
    }
  }

  ghost function WorkingIn(r: Regs, ins: seq<In>): nat -> bool
    requires OneOperation(ins)
  {
    (k: nat) => k < Count(ins[0].rem) ==> Working(Run(r, ins, k + 2), ins[0], k)
  }

  lemma RunNext(r: Regs, ins: seq<In>, n: nat)
    requires n < |ins|
    ensures Run(r, ins, n + 1) == Step(Run(r, ins, n), ins[n])
  {
  }

  lemma WorkingFirst(r: Regs, ins: seq<In>)
    requires OneOperation(ins) && r.fsm.cnt == 0
    ensures WorkingIn(r, ins)(0)
  {
    RunNext(r, ins, 0);
    RunNext(r, ins, 1);
    Started(r, ins[0], ins[1]);
  }

  lemma WorkingNext(r: Regs, ins: seq<In>, k: nat)
    requires OneOperation(ins) && WorkingIn(r, ins)(k)
    ensures WorkingIn(r, ins)(k + 1)
  {
    if k + 1 < Count(ins[0].rem) {
      RunNext(r, ins, k + 2);
      WorkingStep(Run(r, ins, k + 2), ins[0], k, ins[k + 2]);
    }
  }

  /** Edge by edge: the iterations, the counter, and no early completion. */
  lemma Running(r: Regs, ins: seq<In>, k: nat)
    requires OneOperation(ins) && r.fsm.cnt == 0 && k < Count(ins[0].rem)
    ensures Working(Run(r, ins, k + 2), ins[0], k)
  {
    WorkingFirst(r, ins);
    forall n | 0 <= n < k && WorkingIn(r, ins)(n)
      ensures WorkingIn(r, ins)(n + 1)
    {
      WorkingNext(r, ins, n);
    }
    Sequences.Holds(WorkingIn(r, ins), k);
  }

  /** The corrector registers hold the divisor's magnitude after a negative sum, else nothing. */
  lemma CorrectorIs(f: Fsm, o: Restore, d: U32, neg: bool)
    requires Holds(f.divisor, d, neg)
    ensures RestoreStep(o, f).corrector + Num(RestoreStep(o, f).carry) == if SumPositive(f) then 0 else d
  {
  }

  /** The one-step correction turns the last sum into the remainder. */
  lemma CorrectRemainder(f: Fsm, f': Fsm, o: Restore, s: int, d: U32, neg: bool)
    requires Holds(f.divisor, d, neg) && SumPositive(f) == (s >= 0) && f'.partial / 2 == s % M32
    ensures RestoreStep(RestoreStep(o, f), f').remainderPos == Corrected(s, d) % M32
  {
    CorrectorIs(f, o, d, neg);
    WrapAdd(s, if s >= 0 then 0 else d);
  }

  lemma WrapAdd(s: int, c: nat)
    ensures (s % M32 + c) % M32 == (s + c) % M32
  {
  }

  /** What the iterations leave behind: quotient and remainder of the magnitudes, and for a zero
      divisor all ones and the dividend. */
  lemma FinalSums(mag: U32, d: U32)
    ensures Quotients(mag, d, 32) == if d == 0 then M32 - 1 else mag / d
    ensures Corrected(PartialSum(mag, d, 32), d) == if d == 0 then mag else mag % d
  {
    Powers();
    assert Prefix(mag, 32) == mag;
    if d == 0 {
      ZeroLaw(mag, 32);
    } else {
      SumLaw(mag, d, 32);
    }
  }

  /** The magnitude result when the last edge comes. */
  function Magnitudes(i: In): nat {
    var mag, d := Magnitude(i.op1, i.signed), Magnitude(i.op2, i.signed);
    if i.rem then (if d == 0 then mag else mag % d) else if d == 0 then M32 - 1 else mag / d
  }

  /** Restoring the sign of the magnitudes' quotient or remainder gives the specified result. */
  lemma SignedResult(i: In)
    ensures Encode(if InvRes(i) then 0 - Magnitudes(i) else Magnitudes(i)) == DivResult(i.op1, i.op2, i.signed, i.rem)
  {
    var mag, d := Magnitude(i.op1, i.signed), Magnitude(i.op2, i.signed);
    if i.op2 != 0 {
      var a, b := Value(i.op1, i.signed), Value(i.op2, i.signed);
      assert mag == Abs(a) && d == Abs(b);
      QuotientBelow(mag, d);
      if b == -1 {
        assert mag / 1 == mag && mag % 1 == 0;
      }
    }
  }

  lemma ReadyAt(r: Regs, ins: seq<In>, n: nat)
    requires OneOperation(ins) && r.fsm.cnt == 0 && 1 <= n <= Latency(ins[0].rem) + 1
    ensures Run(r, ins, n).fsm.ceo <==> n == Latency(ins[0].rem) + 1
  {
    if n == Latency(ins[0].rem) + 1 {
      Running(r, ins, Count(ins[0].rem) - 1);
    } else if n >= 2 {
      Running(r, ins, n - 2);
    } else {
      Started(r, ins[0], ins[1]);
      assert Run(r, ins, 1) == Step(r, ins[0]);
    }
  }

  /** Started from any state whose counter is zero, and left alone afterwards, the divider raises
      `ce_o` 34 edges (quotient) or 35 edges (remainder) after the sampling edge and not before,
      and its result is then the architectural one, for all operands. */
  lemma DividerCorrect(r: Regs, ins: seq<In>)
    requires OneOperation(ins) && r.fsm.cnt == 0
    ensures var i := ins[0];
            var done := if i.rem then 36 else 35;
            && (forall n :: 1 <= n <= done ==> (Run(r, ins, n).fsm.ceo <==> n == done))
            && ComplOut(Run(r, ins, done).compl) == DivResult(i.op1, i.op2, i.signed, i.rem)
  {
    forall n | 1 <= n <= Latency(ins[0].rem) + 1
      ensures Run(r, ins, n).fsm.ceo <==> n == Latency(ins[0].rem) + 1
    {
      ReadyAt(r, ins, n);
    }
    LastEdge(r, ins);
    SignedResult(ins[0]);
  }

  /** Signed division of any numbers in range, with quotient and remainder given by their equation. */
  lemma DividesSigned(r: Regs, ins: seq<In>, a: int, b: int, q: int, m: int)
    requires OneOperation(ins) && r.fsm.cnt == 0 && ins[0].signed
    requires -0x8000_0000 <= a < 0x8000_0000 && -0x8000_0000 <= b < 0x8000_0000
    requires ins[0].op1 == a % 0x1_0000_0000 && ins[0].op2 == b % 0x1_0000_0000
    requires b != 0 && a == b * q + m && (-b < m < b || b < m < -b) && (m == 0 || (m < 0 <==> a < 0))
    ensures ComplOut(Run(r, ins, if ins[0].rem then 36 else 35).compl) == (if ins[0].rem then m else q) % 0x1_0000_0000
  {
    DividerCorrect(r, ins);
    SignedResults(a, b, q, m);
  }

  /** And unsigned. */
  lemma DividesUnsigned(r: Regs, ins: seq<In>, q: nat, m: nat)
    requires OneOperation(ins) && r.fsm.cnt == 0 && !ins[0].signed
    requires ins[0].op1 == ins[0].op2 * q + m && m < ins[0].op2
    ensures ComplOut(Run(r, ins, if ins[0].rem then 36 else 35).compl) == if ins[0].rem then m else q
  {
    DividerCorrect(r, ins);
    UnsignedResults(ins[0].op1, ins[0].op2, q, m);
  }

  lemma LastIteration(f: Fsm, mag: U32, d: U32, neg: bool)
    requires Iterating(f, mag, d, neg, 31)
    ensures SumPositive(f) == (PartialSum(mag, d, 32) >= 0)
  {
    SumIs(f, mag, d, neg, 31);
  }

  /** What the last iteration leaves for the result: its sign, its sum and the quotient bits. */
  lemma LastSum(r: Regs, ins: seq<In>)
    requires OneOperation(ins) && r.fsm.cnt == 0
    ensures var mag, d := Magnitude(ins[0].op1, ins[0].signed), Magnitude(ins[0].op2, ins[0].signed);
            var s := PartialSum(mag, d, 32);
            var r33, r34 := Run(r, ins, 33), Run(r, ins, 34);
            && Holds(r33.fsm.divisor, d, Top(ins[0].op2) && ins[0].signed)
            && SumPositive(r33.fsm) == (s >= 0) && r34.fsm.partial / 2 == s % M32
            && r34.fsm.dividend == Quotients(mag, d, 32)
            && r34.control == Control(false, ins[0].rem, InvRes(ins[0]))
  {
    Running(r, ins, 31);
    Running(r, ins, 32);
    LastIteration(Run(r, ins, 33).fsm, Magnitude(ins[0].op1, ins[0].signed), Magnitude(ins[0].op2, ins[0].signed),
                  Top(ins[0].op2) && ins[0].signed);
  }

  lemma TwoEdges(r: Regs, ins: seq<In>, n: nat)
    requires OneOperation(ins) && 1 <= n && n + 2 <= |ins|
    ensures var s, s', s'' := Run(r, ins, n), Run(r, ins, n + 1), Run(r, ins, n + 2);
            && s''.restore == RestoreStep(RestoreStep(s.restore, s.fsm), s'.fsm)
            && s''.control == s'.control.(fsmCe := false)
  {
    assert Run(r, ins, n + 1) == Step(Run(r, ins, n), ins[n]);
  }

  lemma BeforeLastEdge(r: Regs, ins: seq<In>)
    requires OneOperation(ins) && r.fsm.cnt == 0
    ensures var s := Run(r, ins, Latency(ins[0].rem));
            s.control == Control(false, ins[0].rem, InvRes(ins[0])) && ResultPos(s) == Encode(Magnitudes(ins[0]))
  {
    LastSum(r, ins);
    if ins[0].rem {
      TwoEdges(r, ins, 33);
      RemainderReady(Run(r, ins, 33), Run(r, ins, 34), Run(r, ins, 35), ins[0]);
    } else {
      QuotientReady(Run(r, ins, 34), ins[0]);
    }
  }

  lemma QuotientReady(s: Regs, i: In)
    requires !i.rem && s.control == Control(false, i.rem, InvRes(i))
    requires s.fsm.dividend == Quotients(Magnitude(i.op1, i.signed), Magnitude(i.op2, i.signed), 32)
    ensures ResultPos(s) == Encode(Magnitudes(i))
  {
    FinalSums(Magnitude(i.op1, i.signed), Magnitude(i.op2, i.signed));
  }

  lemma RemainderReady(s: Regs, s': Regs, s'': Regs, i: In)
    requires i.rem && s'.control == Control(false, i.rem, InvRes(i))
    requires s''.restore == RestoreStep(RestoreStep(s.restore, s.fsm), s'.fsm)
    requires s''.control == s'.control.(fsmCe := false)
    requires var mag, d := Magnitude(i.op1, i.signed), Magnitude(i.op2, i.signed);
             var sum := PartialSum(mag, d, 32);
             && Holds(s.fsm.divisor, d, Top(i.op2) && i.signed)
             && SumPositive(s.fsm) == (sum >= 0) && s'.fsm.partial / 2 == sum % M32
    ensures s''.control == Control(false, i.rem, InvRes(i)) && ResultPos(s'') == Encode(Magnitudes(i))
  {
    var mag, d := Magnitude(i.op1, i.signed), Magnitude(i.op2, i.signed);
    FinalSums(mag, d);
    CorrectRemainder(s.fsm, s'.fsm, s.restore, PartialSum(mag, d, 32), d, Top(i.op2) && i.signed);
  }

  /** The last edge sends the magnitude result through the complementor. */
  lemma LastEdge(r: Regs, ins: seq<In>)
    requires OneOperation(ins) && r.fsm.cnt == 0
    ensures var pos := Magnitudes(ins[0]);
            ComplOut(Run(r, ins, Latency(ins[0].rem) + 1).compl) == Encode(if InvRes(ins[0]) then 0 - pos else pos)
  {
    var last := Run(r, ins, Latency(ins[0].rem));
    BeforeLastEdge(r, ins);
    assert Run(r, ins, Latency(ins[0].rem) + 1) == Step(last, ins[Latency(ins[0].rem)]);
    ComplementorNegates(last.control.invRes, ResultPos(last));
    WrapNegate(Magnitudes(ins[0]));
  }

  lemma WrapShift(y: int, k: int)
    ensures Encode(y + M32 * k) == Encode(y)
  {
    var q, q' := y / M32, (y + M32 * k) / M32;
    assert M32 * q' + Encode(y + M32 * k) == M32 * (q + k) + Encode(y);
  }

  lemma WrapNegate(x: int)
    ensures Encode(0 - Encode(x)) == Encode(0 - x)
  {
    WrapShift(0 - x, x / M32);
  }
}
