/** In-order execution: what the pipelined core must be indistinguishable from. */
module Isa {
  import opened Sequences

  const M32: int := 0x1_0000_0000

  type Word = x: int | 0 <= x < M32

  type Reg = x: nat | x < 32

  type Registers = s: seq<Word> | |s| == 32 witness seq(32, k => 0)

  /** Classes of instructions.  `Alu` covers register, immediate and upper-immediate operations,
      `Shift` those that use the barrel shifter. */
  datatype Kind = Alu | Shift | Load | Store | Branch | Jal | Jalr | Fence

  /** A decoded instruction: register numbers, the immediates that replace operands, and the
      destination of a branch or JAL. */
  datatype Decoded = Decoded(kind: Kind, rd: Reg, rs1: Reg, rs2: Reg, immediate1: bool, imm1: Word,
                             immediate2: bool, imm2: Word, dest: Word)

  /** What the decoder guarantees: base registers, compared and stored operands are never
      replaced by an immediate, and the offset of JALR always is one. */
  predicate WellFormed(i: Decoded) {
    && (i.kind in {Branch, Load, Store, Jalr} ==> !i.immediate1)
    && (i.kind in {Branch, Store} ==> !i.immediate2)
    && (i.kind == Jalr ==> i.immediate2)
  }

  type Instr = i: Decoded | WellFormed(i) witness Decoded(Fence, 0, 0, 0, false, 0, false, 0, 0)

  /** An access to data memory: the instruction with its base and the stored operand. */
  datatype Access = Access(instr: Instr, base: Word, data: Word)

  /** A program with the functions whose details do not matter to the pipeline: decoding, the
      ALU, branch conditions, and a memory that answers a load from all accesses up to it. */
  datatype Program = Program(text: Word -> nat, decode: (Word, nat) -> Instr, alu: (Instr, Word, Word) -> Word,
                             condition: (Instr, Word, Word) -> bool, memory: seq<Access> -> Word)

  function At(p: Program, pc: Word): Instr {
    p.decode(pc, p.text(pc))
  }

  function Next(pc: Word): Word {
    (pc + 4) % M32
  }

  /** The instruction reads the register: this steers forwarding and the interlock. */
  predicate Uses1(i: Instr) {
    i.kind in {Branch, Load, Store, Jalr} || (i.kind in {Alu, Shift} && !i.immediate1)
  }

  predicate Uses2(i: Instr) {
    i.kind in {Branch, Store} || (i.kind in {Alu, Shift} && !i.immediate2)
  }

  function Read(regs: Registers, r: Reg): Word {
    if r == 0 then 0 else regs[r]
  }

  /** The operands that have an effect; zero stands for an operand that is never looked at. */
  function Operand1(regs: Registers, i: Instr): Word {
    if i.immediate1 then i.imm1 else if Uses1(i) then Read(regs, i.rs1) else 0
  }

  function Operand2(regs: Registers, i: Instr): Word {
    if i.immediate2 then i.imm2 else if Uses2(i) then Read(regs, i.rs2) else 0
  }

  /** A write of the register file port; register 0 ignores it. */
  datatype Write = Write(rd: Reg, value: Word)

  function Apply(regs: Registers, w: Write): Registers {
    if w.rd == 0 then regs else regs[w.rd := w.value]
  }

  function ApplyAll(regs: Registers, ws: seq<Write>): Registers {
    if ws == [] then regs else Apply(ApplyAll(regs, ws[..|ws| - 1]), ws[|ws| - 1])
  }

  lemma ApplyOne(regs: Registers, w: Write)
    ensures ApplyAll(regs, [w]) == Apply(regs, w)
  {
    assert [w][..0] == [];
  }

  lemma {:induction false} ApplyConcat(regs: Registers, a: seq<Write>, b: seq<Write>)
    ensures ApplyAll(regs, a + b) == ApplyAll(ApplyAll(regs, a), b)
    decreases |b|
  {
    if b == [] {
      assert a + b == a;
    } else {
      assert (a + b)[..|a + b| - 1] == a + b[..|b| - 1];
      ApplyConcat(regs, a, b[..|b| - 1]);
    }
  }

  /** What one instruction is given: its address and the operands it looks at. */
  datatype Event = Event(pc: Word, instr: Instr, op1: Word, op2: Word)

  datatype State = State(pc: Word, regs: Registers, accesses: seq<Access>)

  function EventOf(p: Program, s: State): Event {
    var i := At(p, s.pc);
    Event(s.pc, i, Operand1(s.regs, i), Operand2(s.regs, i))
  }

  function AccessOf(e: Event): seq<Access> {
    match e.instr.kind
    case Load => [Access(e.instr, e.op1, 0)]
    case Store => [Access(e.instr, e.op1, e.op2)]
    case _ => []
  }

  /** The register write of an instruction, given the accesses up to and including its own. */
  function WriteOf(p: Program, e: Event, accesses: seq<Access>): seq<Write> {
    match e.instr.kind
    case Load => [Write(e.instr.rd, p.memory(accesses))]
    case Jal => [Write(e.instr.rd, Next(e.pc))]
    case Jalr => [Write(e.instr.rd, Next(e.pc))]
    case Alu => [Write(e.instr.rd, p.alu(e.instr, e.op1, e.op2))]
    case Shift => [Write(e.instr.rd, p.alu(e.instr, e.op1, e.op2))]
    case _ => []
  }

  function Target(p: Program, e: Event): Word {
    match e.instr.kind
    case Jal => e.instr.dest
    case Jalr => p.alu(e.instr, e.op1, e.op2)
    case Branch => if p.condition(e.instr, e.op1, e.op2) then e.instr.dest else Next(e.pc)
    case _ => Next(e.pc)
  }

  /** One instruction, in order. */
  function Retire(p: Program, s: State): State {
    var e := EventOf(p, s);
    var accesses := s.accesses + AccessOf(e);
    State(Target(p, e), ApplyAll(s.regs, WriteOf(p, e, accesses)), accesses)
  }

  function After(p: Program, s: State, n: nat): State {
    if n == 0 then s else Retire(p, After(p, s, n - 1))
  }

  function EventAt(p: Program, s: State, n: nat): Event {
    EventOf(p, After(p, s, n))
  }

  /** The write, if any, of instruction n. */
  function WriteAt(p: Program, s: State, n: nat): seq<Write> {
    WriteOf(p, EventAt(p, s, n), After(p, s, n + 1).accesses)
  }

  /** The first n instructions. */
  function EventLog(p: Program, s: State, n: nat): seq<Event> {
    Joined(Events(p, s), n)
  }

  function Events(p: Program, s: State): nat -> seq<Event> {
    (k: nat) => [EventAt(p, s, k)]
  }

  /** The register writes of the first n instructions. */
  function WriteLog(p: Program, s: State, n: nat): seq<Write> {
    Joined(Writes(p, s), n)
  }

  function Writes(p: Program, s: State): nat -> seq<Write> {
    (k: nat) => WriteAt(p, s, k)
  }

  // ---- the ISA, written out for each class of instructions ----

  /** What the ISA reads: register 0 is zero, and an immediate stands for its operand. */
  function IsaOperand(regs: Registers, immediate: bool, imm: Word, r: Reg): Word {
    if immediate then imm else if r == 0 then 0 else regs[r]
  }

  /** The instruction at the program counter, with the operands it looks at. */
  function IsaEvent(p: Program, s: State): Event {
    var i := p.decode(s.pc, p.text(s.pc));
    var x1 := IsaOperand(s.regs, i.immediate1, i.imm1, i.rs1);
    var x2 := IsaOperand(s.regs, i.immediate2, i.imm2, i.rs2);
    match i.kind
    case Alu | Shift | Branch | Store | Jalr => Event(s.pc, i, x1, x2)
    case Load => Event(s.pc, i, x1, if i.immediate2 then i.imm2 else 0)
    case Jal | Fence => Event(s.pc, i, if i.immediate1 then i.imm1 else 0, if i.immediate2 then i.imm2 else 0)
  }

  /** Loads and stores access memory; nothing else does. */
  function IsaAccess(e: Event): seq<Access> {
    match e.instr.kind
    case Load => [Access(e.instr, e.op1, 0)]
    case Store => [Access(e.instr, e.op1, e.op2)]
    case Alu | Shift | Branch | Jal | Jalr | Fence => []
  }

  /** Results, loaded words and links are written; stores, branches and fences write nothing. */
  function IsaWrite(p: Program, e: Event, accesses: seq<Access>): seq<Write> {
    match e.instr.kind
    case Alu | Shift => [Write(e.instr.rd, p.alu(e.instr, e.op1, e.op2))]
    case Load => [Write(e.instr.rd, p.memory(accesses + [Access(e.instr, e.op1, 0)]))]
    case Jal | Jalr => [Write(e.instr.rd, (e.pc + 4) % 0x1_0000_0000)]
    case Store | Branch | Fence => []
  }

  /** Jumps go to their destination, branches if their condition holds; JALR clears the lowest bit of
      the sum. */
  function IsaTarget(p: Program, e: Event): Word {
    match e.instr.kind
    case Jal => e.instr.dest
    case Jalr => var sum := p.alu(e.instr, e.op1, e.op2); sum - sum % 2
    case Branch => if p.condition(e.instr, e.op1, e.op2) then e.instr.dest else (e.pc + 4) % 0x1_0000_0000
    case Alu | Shift | Load | Store | Fence => (e.pc + 4) % 0x1_0000_0000
  }

  /** One instruction as the ISA has it; register 0 is never written. */
  function IsaRetire(p: Program, s: State): State {
    var e := IsaEvent(p, s);
    var w := IsaWrite(p, e, s.accesses);
    State(IsaTarget(p, e),
          if w == [] || w[0].rd == 0 then s.regs else s.regs[w[0].rd := w[0].value],
          s.accesses + IsaAccess(e))
  }

  function IsaAfter(p: Program, s: State, n: nat): State {
    if n == 0 then s else IsaRetire(p, IsaAfter(p, s, n - 1))
  }

  function IsaEvents(p: Program, s: State): nat -> seq<Event> {
    (k: nat) => [IsaEvent(p, IsaAfter(p, s, k))]
  }

  function IsaWrites(p: Program, s: State): nat -> seq<Write> {
    (k: nat) => IsaWrite(p, IsaEvent(p, IsaAfter(p, s, k)), IsaAfter(p, s, k).accesses)
  }

  lemma EventIsIsa(p: Program, s: State)
    ensures EventOf(p, s) == IsaEvent(p, s) && IsaEvent(p, s).pc == s.pc
  {
  }

  /** What the code does with an instruction is what the ISA does, but for the target of JALR. */
  lemma RetireIsIsa(p: Program, s: State)
    ensures EventOf(p, s) == IsaEvent(p, s)
    ensures WriteOf(p, EventOf(p, s), Retire(p, s).accesses) == IsaWrite(p, IsaEvent(p, s), s.accesses)
    ensures var e := IsaEvent(p, s);
            Retire(p, s) == IsaRetire(p, s).(pc := if e.instr.kind == Jalr then p.alu(e.instr, e.op1, e.op2)
                                                   else IsaTarget(p, e))
  {
    var w := WriteOf(p, EventOf(p, s), Retire(p, s).accesses);
    if w != [] {
      ApplyOne(s.regs, w[0]);
    }
  }

  /** The instructions one by one: memory. */
  lemma RetireAccesses(p: Program, s: State)
    ensures var i := p.decode(s.pc, p.text(s.pc));
            var x1 := if i.rs1 == 0 then 0 else s.regs[i.rs1];
            var x2 := if i.rs2 == 0 then 0 else s.regs[i.rs2];
            && (i.kind == Store ==> Retire(p, s).accesses == s.accesses + [Access(i, x1, x2)])
            && (i.kind == Load ==> Retire(p, s).accesses == s.accesses + [Access(i, x1, 0)])
            && (i.kind in {Alu, Shift, Branch, Jal, Jalr, Fence} ==> Retire(p, s).accesses == s.accesses)
  {
    RetireIsIsa(p, s);
  }

  /** The instructions one by one: the next address. */
  lemma RetireTargets(p: Program, s: State)
    ensures var i := p.decode(s.pc, p.text(s.pc));
            var x1 := if i.rs1 == 0 then 0 else s.regs[i.rs1];
            var x2 := if i.rs2 == 0 then 0 else s.regs[i.rs2];
            var pc := Retire(p, s).pc;
            && (i.kind == Jal ==> pc == i.dest)
            && (i.kind == Jalr ==> pc == p.alu(i, x1, i.imm2))
            && (i.kind == Branch && p.condition(i, x1, x2) ==> pc == i.dest)
            && (i.kind == Branch && !p.condition(i, x1, x2) ==> pc == (s.pc + 4) % 0x1_0000_0000)
            && (i.kind in {Alu, Shift, Load, Store, Fence} ==> pc == (s.pc + 4) % 0x1_0000_0000)
  {
    RetireIsIsa(p, s);
  }

  /** The instructions one by one: the registers. */
  lemma RetireWrites(p: Program, s: State)
    ensures var i := p.decode(s.pc, p.text(s.pc));
            var x1 := if i.immediate1 then i.imm1 else if i.rs1 == 0 then 0 else s.regs[i.rs1];
            var x2 := if i.immediate2 then i.imm2 else if i.rs2 == 0 then 0 else s.regs[i.rs2];
            var regs := Retire(p, s).regs;
            && (i.kind in {Store, Branch, Fence} || i.rd == 0 ==> regs == s.regs)
            && (i.kind in {Alu, Shift} && i.rd > 0 ==> regs == s.regs[i.rd := p.alu(i, x1, x2)])
            && (i.kind == Load && i.rd > 0 ==> regs == s.regs[i.rd := p.memory(s.accesses + [Access(i, x1, 0)])])
            && (i.kind in {Jal, Jalr} && i.rd > 0 ==> regs == s.regs[i.rd := (s.pc + 4) % 0x1_0000_0000])
  {
    RetireIsIsa(p, s);
  }

  /** A JALR whose sum is odd. */
  predicate OddJump(p: Program, e: Event) {
    e.instr.kind == Jalr && p.alu(e.instr, e.op1, e.op2) % 2 == 1
  }

  /** Instruction k is not one. */
  function EvenIn(p: Program, s: State): nat -> bool {
    (k: nat) => !OddJump(p, EventAt(p, s, k))
  }

  /** None of the first n instructions is one. */
  ghost predicate NoOddJump(p: Program, s: State, n: nat) {
    forall k :: 0 <= k < n ==> EvenIn(p, s)(k)
  }

  /** One instruction agrees with the ISA exactly if it is not a JALR with an odd sum. */
  lemma RetireIffEven(p: Program, s: State)
    ensures Retire(p, s) == IsaRetire(p, s) <==> !OddJump(p, EventOf(p, s))
    ensures OddJump(p, EventOf(p, s)) ==> Retire(p, s).pc != IsaRetire(p, s).pc
  {
    RetireIsIsa(p, s);
  }

  function States(p: Program, s: State): nat -> State {
    (k: nat) => After(p, s, k)
  }

  function IsaStates(p: Program, s: State): nat -> State {
    (k: nat) => IsaAfter(p, s, k)
  }

  lemma StepAgrees(p: Program, s: State, k: nat)
    ensures StepsAlike(States(p, s), IsaStates(p, s), EvenIn(p, s), k)
    ensures After(p, s, k) == IsaAfter(p, s, k) && !EvenIn(p, s)(k) ==>
              After(p, s, k + 1).pc != IsaAfter(p, s, k + 1).pc
  {
    RetireIffEven(p, After(p, s, k));
  }

  /** The first n steps are the ISA's exactly if none of these instructions is a JALR with an odd sum. */
  lemma AgreesIffEven(p: Program, s: State, n: nat)
    ensures (forall m :: 0 <= m <= n ==> States(p, s)(m) == IsaStates(p, s)(m)) <==> NoOddJump(p, s, n)
  {
    forall k | 0 <= k < n
      ensures StepsAlike(States(p, s), IsaStates(p, s), EvenIn(p, s), k)
    {
      StepAgrees(p, s, k);
    }
    SameWhile(States(p, s), IsaStates(p, s), EvenIn(p, s), n);
  }

  lemma EventAgrees(p: Program, s: State, k: nat)
    ensures EntriesAlike(States(p, s), IsaStates(p, s), Events(p, s), IsaEvents(p, s), k)
    ensures Events(p, s)(k)[0].pc == After(p, s, k).pc && IsaEvents(p, s)(k)[0].pc == IsaAfter(p, s, k).pc
  {
    EventIsIsa(p, After(p, s, k));
    EventIsIsa(p, IsaAfter(p, s, k));
  }

  lemma StepShows(p: Program, s: State, k: nat)
    ensures Shows(States(p, s), IsaStates(p, s), EvenIn(p, s), Events(p, s), IsaEvents(p, s), k)
  {
    StepAgrees(p, s, k);
    EventAgrees(p, s, k + 1);
  }

  /** The sequences of instructions are the ISA's exactly if no JALR before the last one has an odd sum. */
  lemma LogsAgreeIffEven(p: Program, s: State, n: nat)
    ensures EventLog(p, s, n + 1) == Joined(IsaEvents(p, s), n + 1) <==> NoOddJump(p, s, n)
  {
    var a, b, ok := States(p, s), IsaStates(p, s), EvenIn(p, s);
    forall k | 0 <= k < n
      ensures StepsAlike(a, b, ok, k) && Shows(a, b, ok, Events(p, s), IsaEvents(p, s), k)
    {
      StepAgrees(p, s, k);
      StepShows(p, s, k);
    }
    forall k | 0 <= k <= n
      ensures EntriesAlike(a, b, Events(p, s), IsaEvents(p, s), k)
    {
      EventAgrees(p, s, k);
    }
    SameLogs(a, b, ok, Events(p, s), IsaEvents(p, s), n);
  }

  lemma WriteAgrees(p: Program, s: State, k: nat)
    requires States(p, s)(k) == IsaStates(p, s)(k) && States(p, s)(k + 1) == IsaStates(p, s)(k + 1)
    ensures Writes(p, s)(k) == IsaWrites(p, s)(k)
  {
    RetireIsIsa(p, After(p, s, k));
  }

  /** Without odd JALRs the register writes are the ISA's. */
  lemma EvenWritesAgree(p: Program, s: State, n: nat)
    requires NoOddJump(p, s, n)
    ensures WriteLog(p, s, n) == Joined(IsaWrites(p, s), n)
  {
    AgreesIffEven(p, s, n);
    forall k | 0 <= k < n
      ensures Writes(p, s)(k) == IsaWrites(p, s)(k)
    {
      WriteAgrees(p, s, k);
    }
    JoinedSame(Writes(p, s), IsaWrites(p, s), n);
  }

  /** A program that departs: a JALR at address 0 with offset 1 goes to 1, where the ISA goes to 0. */
  lemma OddOffsetDeparts(p: Program, s: State)
    requires s.pc == 0 && At(p, 0) == Decoded(Jalr, 0, 0, 0, false, 0, true, 1, 0)
    requires p.alu(At(p, 0), 0, 1) == 1
    ensures Retire(p, s).pc == 1 && IsaRetire(p, s).pc == 0
  {
    assert EventOf(p, s) == Event(0, At(p, 0), 0, 1);
  }
}
