/** The four-stage back end: decode register, execute with its functional units, registered
    writeback (rtl/pipelined_backend.py), and the register file behind it (rtl/regfile.py). */
module Backend {
  import opened Isa

  /** Forwarding instead of the interlock; a two-cycle instead of a combinational shifter. */
  datatype Config = Config(bypass: bool, pipelinedShifter: bool)

  // ---- registers, stage by stage ----

  datatype FileRegs = FileRegs(registers: Registers, readA: Word, readB: Word, wdata: Word,
                               collisionA: bool, collisionB: bool)

  datatype DecodeRegs = DecodeRegs(valid: bool, pc: Word, instr: Instr)

  datatype ExecuteRegs = ExecuteRegs(rd: Reg, jump: bool, dest: Word)

  datatype ShiftRegs = ShiftRegs(busy: bool, ready: bool, value: Word)

  datatype LoadStoreRegs = LoadStoreRegs(outstanding: bool, enable: bool, request: Access, store: bool,
                                         valid: bool, result: Word)

  datatype WritebackRegs = WritebackRegs(valid: bool, we: bool, rd: Reg, aluValid: bool, loadValid: bool,
                                         jumpValid: bool, aluData: Word, loadData: Word, jumpData: Word)

  datatype Regs = Regs(file: FileRegs, decode: DecodeRegs, execute: ExecuteRegs, shift: ShiftRegs,
                       ls: LoadStoreRegs, wb: WritebackRegs)

  /** The fetch unit's output, and the data bus with the word read from it. */
  datatype Fetched = Fetched(valid: bool, word: nat, ip: Word)

  datatype DataBus = DataBus(stall: bool, ack: bool, data: Word)

  // ---- combinational signals ----

  function PortA(f: FileRegs): Word {
    if f.collisionA then f.wdata else f.readA
  }

  function PortB(f: FileRegs): Word {
    if f.collisionB then f.wdata else f.readB
  }

  function WritebackData(wb: WritebackRegs): Word {
    if wb.aluValid then wb.aluData else if wb.loadValid then wb.loadData else if wb.jumpValid then wb.jumpData else 0
  }

  predicate WriteEnable(wb: WritebackRegs) {
    wb.valid && wb.we
  }

  /** The writeback register holds a register that the decoded instruction reads. */
  predicate Match1(r: Regs) {
    WriteEnable(r.wb) && r.wb.rd != 0 && r.decode.valid && Uses1(r.decode.instr) && r.decode.instr.rs1 == r.wb.rd
  }

  predicate Match2(r: Regs) {
    WriteEnable(r.wb) && r.wb.rd != 0 && r.decode.valid && Uses2(r.decode.instr) && r.decode.instr.rs2 == r.wb.rd
  }

  predicate Hazard(c: Config, r: Regs) {
    !c.bypass && (Match1(r) || Match2(r))
  }

  function Op1(c: Config, r: Regs): Word {
    if c.bypass && Match1(r) then WritebackData(r.wb)
    else if r.decode.instr.immediate1 then r.decode.instr.imm1
    else PortA(r.file)
  }

  function Op2(c: Config, r: Regs): Word {
    if c.bypass && Match2(r) then WritebackData(r.wb)
    else if r.decode.instr.immediate2 then r.decode.instr.imm2
    else PortB(r.file)
  }

  predicate LoadStoreBusy(l: LoadStoreRegs) {
    l.outstanding || l.valid
  }

  predicate Busy(c: Config, r: Regs) {
    r.shift.busy || LoadStoreBusy(r.ls) || Hazard(c, r)
  }

  predicate Taken(c: Config, r: Regs) {
    r.decode.valid && !Busy(c, r)
  }

  predicate DownstreamBusy(c: Config, r: Regs) {
    r.decode.valid && Busy(c, r)
  }

  /** Branches, JAL and JALR enable the jump logic, loads and stores the load/store unit. */
  predicate Jumps(p: Program, i: Instr, op1: Word, op2: Word) {
    i.kind in {Jal, Jalr} || (i.kind == Branch && p.condition(i, op1, op2))
  }

  predicate AccessesMemory(i: Instr) {
    i.kind in {Load, Store}
  }

  predicate JumpNow(p: Program, c: Config, r: Regs) {
    Taken(c, r) && Jumps(p, r.decode.instr, Op1(c, r), Op2(c, r))
  }

  function JumpDest(p: Program, c: Config, r: Regs): Word {
    var i := r.decode.instr;
    if !Taken(c, r) then 0
    else if i.kind in {Branch, Jal} then i.dest
    else if i.kind == Jalr then p.alu(i, Op1(c, r), Op2(c, r))
    else 0
  }

  predicate JumpOut(p: Program, c: Config, r: Regs) {
    if Taken(c, r) then JumpNow(p, c, r) else r.execute.jump
  }

  function JumpDestOut(p: Program, c: Config, r: Regs): Word {
    if Taken(c, r) then JumpDest(p, c, r) else r.execute.dest
  }

  predicate JumpWrites(c: Config, r: Regs) {
    Taken(c, r) && r.decode.instr.kind in {Jal, Jalr}
  }

  predicate StartsShift(c: Config, r: Regs) {
    Taken(c, r) && r.decode.instr.kind == Shift && c.pipelinedShifter
  }

  predicate StartsAccess(c: Config, r: Regs) {
    Taken(c, r) && AccessesMemory(r.decode.instr)
  }

  predicate AluValid(c: Config, r: Regs) {
    r.shift.ready || (Taken(c, r) && r.decode.instr.kind in {Alu, Jalr, Shift} && !StartsShift(c, r))
  }

  /** The result bus; it is looked at only when AluValid says so. */
  function AluResult(p: Program, c: Config, r: Regs): Word {
    if r.shift.ready then r.shift.value else p.alu(r.decode.instr, Op1(c, r), Op2(c, r))
  }

  predicate LoadWrites(r: Regs) {
    r.ls.valid && !r.ls.store
  }

  predicate ExecuteValid(c: Config, r: Regs) {
    AluValid(c, r) || r.ls.valid || JumpWrites(c, r)
  }

  predicate ExecuteWrites(c: Config, r: Regs) {
    AluValid(c, r) || LoadWrites(r) || JumpWrites(c, r)
  }

  predicate Confirmed(r: Regs, d: DataBus) {
    d.ack && r.ls.outstanding
  }

  // ---- what each clock edge does ----

  /** Reads are registered and see the old contents; a write to the address being read is caught
      by the collision registers. */
  function FileStep(f: FileRegs, ra: Reg, rb: Reg, we: bool, wa: Reg, wd: Word): FileRegs {
    FileRegs(if we && wa != 0 then f.registers[wa := wd] else f.registers,
             if ra != 0 then f.registers[ra] else 0,
             if rb != 0 then f.registers[rb] else 0,
             if we then wd else f.wdata,
             we && wa == ra && ra != 0,
             we && wa == rb && rb != 0)
  }

  /** The read addresses look ahead to the fetched word unless the decoded instruction waits. */
  function ReadA(p: Program, c: Config, r: Regs, f: Fetched): Reg {
    if DownstreamBusy(c, r) then r.decode.instr.rs1 else p.decode(f.ip, f.word).rs1
  }

  function ReadB(p: Program, c: Config, r: Regs, f: Fetched): Reg {
    if DownstreamBusy(c, r) then r.decode.instr.rs2 else p.decode(f.ip, f.word).rs2
  }

  function FileNext(p: Program, c: Config, r: Regs, f: Fetched): FileRegs {
    FileStep(r.file, ReadA(p, c, r, f), ReadB(p, c, r, f), WriteEnable(r.wb), r.wb.rd, WritebackData(r.wb))
  }

  function DecodeNext(p: Program, c: Config, r: Regs, f: Fetched): DecodeRegs {
    if JumpNow(p, c, r) then r.decode.(valid := false)
    else if DownstreamBusy(c, r) then r.decode
    else if f.valid then DecodeRegs(true, f.ip, p.decode(f.ip, f.word))
    else r.decode.(valid := false)
  }

  function ExecuteNext(p: Program, c: Config, r: Regs): ExecuteRegs {
    if Taken(c, r) then ExecuteRegs(r.decode.instr.rd, JumpNow(p, c, r), JumpDest(p, c, r)) else r.execute
  }

  function ShiftNext(p: Program, c: Config, r: Regs): ShiftRegs {
    if StartsShift(c, r) then
      ShiftRegs(!r.shift.ready, true, p.alu(r.decode.instr, Op1(c, r), Op2(c, r)))
    else ShiftRegs(false, false, r.shift.value)
  }

  function RequestNow(c: Config, r: Regs): Access {
    Access(r.decode.instr, Op1(c, r), if r.decode.instr.kind == Store then Op2(c, r) else 0)
  }

  function LoadStoreNext(c: Config, r: Regs, d: DataBus): LoadStoreRegs {
    var starts := StartsAccess(c, r);
    LoadStoreRegs(
      if starts && !Confirmed(r, d) then true else if !starts && Confirmed(r, d) then false else r.ls.outstanding,
      starts || (d.stall && r.ls.enable),
      if starts then RequestNow(c, r) else r.ls.request,
      if starts then r.decode.instr.kind == Store else r.ls.store,
      Confirmed(r, d),
      d.data)
  }

  function WritebackNext(p: Program, c: Config, r: Regs): WritebackRegs {
    var jump := JumpWrites(c, r);
    var load := !jump && LoadWrites(r);
    WritebackRegs(ExecuteValid(c, r), ExecuteWrites(c, r), if Taken(c, r) then r.decode.instr.rd else r.execute.rd,
                  !jump && !load && AluValid(c, r), load, jump,
                  AluResult(p, c, r), r.ls.result, Next(r.decode.pc))
  }

  function Step(p: Program, c: Config, r: Regs, f: Fetched, d: DataBus): Regs {
    Regs(FileNext(p, c, r, f), DecodeNext(p, c, r, f), ExecuteNext(p, c, r), ShiftNext(p, c, r),
         LoadStoreNext(c, r, d), WritebackNext(p, c, r))
  }

  function Zeros(): Registers {
    seq(32, k => 0)
  }

  function Nop(): Instr {
    Decoded(Fence, 0, 0, 0, false, 0, false, 0, 0)
  }

  function Reset(): Regs {
    Regs(FileRegs(Zeros(), 0, 0, 0, false, false), DecodeRegs(false, 0, Nop()), ExecuteRegs(0, false, 0),
         ShiftRegs(false, false, 0), LoadStoreRegs(false, false, Access(Nop(), 0, 0), false, false, 0),
         WritebackRegs(false, false, 0, false, false, false, 0, 0, 0))
  }

  // ---- the clocked objects ----

  class RegisterFile {
    const registers: array<Word>
    var readA: Word
    var readB: Word
    var wdata: Word
    var collisionA: bool
    var collisionB: bool

    constructor ()
      ensures Valid() && State() == Reset().file && fresh(registers)
    {
      registers := new Word[32](k => 0);
      readA, readB, wdata, collisionA, collisionB := 0, 0, 0, false, false;
    }

    predicate Valid() {
      registers.Length == 32
    }

    function State(): FileRegs
      requires Valid()
      reads this, registers
    {
      FileRegs(registers[..], readA, readB, wdata, collisionA, collisionB)
    }

    method Clock(ra: Reg, rb: Reg, we: bool, wa: Reg, wd: Word)
      requires Valid()
      modifies this, registers
      ensures State() == FileStep(old(State()), ra, rb, we, wa, wd)
    {
      readA := if ra != 0 then registers[ra] else 0;
      readB := if rb != 0 then registers[rb] else 0;
      collisionA := we && wa == ra && ra != 0;
      collisionB := we && wa == rb && rb != 0;
      if we {
        wdata := wd;
      }
      if wa != 0 && we {
        registers[wa] := wd;
      }
    }
  }

  class DecodeStage {
    var valid: bool
    var pc: Word
    var instr: Instr

    constructor ()
      ensures State() == Reset().decode
    {
      valid, pc, instr := false, 0, Nop();
    }

    function State(): DecodeRegs
      reads this
    {
      DecodeRegs(valid, pc, instr)
    }

    method Clock(p: Program, c: Config, r: Regs, f: Fetched)
      requires r.decode == State()
      modifies this
      ensures State() == DecodeNext(p, c, r, f)
    {
      if JumpNow(p, c, r) {
        valid := false;
      } else if !(valid && Busy(c, r)) {
        if f.valid {
          instr := p.decode(f.ip, f.word);
          pc := f.ip;
          valid := true;
        } else {
          valid := false;
        }
      }
    }
  }

  /** The registers of execute outside its functional units. */
  class ExecuteStage {
    var rdAdr: Reg
    var jumpR: bool
    var jumpDestR: Word

    constructor ()
      ensures State() == Reset().execute
    {
      rdAdr, jumpR, jumpDestR := 0, false, 0;
    }

    function State(): ExecuteRegs
      reads this
    {
      ExecuteRegs(rdAdr, jumpR, jumpDestR)
    }

    method Clock(p: Program, c: Config, r: Regs)
      requires r.execute == State()
      modifies this
      ensures State() == ExecuteNext(p, c, r)
    {
      if Taken(c, r) {
        rdAdr := r.decode.instr.rd;
        jumpDestR := JumpDest(p, c, r);
        jumpR := JumpNow(p, c, r);
      }
    }
  }

  class ShiftUnit {
    var busy: bool
    var ready: bool
    var value: Word

    constructor ()
      ensures State() == Reset().shift
    {
      busy, ready, value := false, false, 0;
    }

    function State(): ShiftRegs
      reads this
    {
      ShiftRegs(busy, ready, value)
    }

    method Clock(p: Program, c: Config, r: Regs)
      requires r.shift == State()
      modifies this
      ensures State() == ShiftNext(p, c, r)
    {
      var en := StartsShift(c, r);
      if en {
        value := p.alu(r.decode.instr, Op1(c, r), Op2(c, r));
      }
      busy := en && !ready;
      ready := en;
    }
  }

  class LoadStoreUnit {
    var outstanding: bool
    var busEnable: bool
    var request: Access
    var pipeStore: bool
    var validReg: bool
    var result: Word

    constructor ()
      ensures State() == Reset().ls
    {
      outstanding, busEnable, request, pipeStore, validReg, result := false, false, Access(Nop(), 0, 0), false, false, 0;
    }

    function State(): LoadStoreRegs
      reads this
    {
      LoadStoreRegs(outstanding, busEnable, request, pipeStore, validReg, result)
    }

    method Clock(c: Config, r: Regs, d: DataBus)
      requires r.ls == State()
      modifies this
      ensures State() == LoadStoreNext(c, r, d)
    {
      var starts := StartsAccess(c, r);
      var confirm := d.ack && outstanding;
      if !d.stall {
        busEnable := false;
      }
      if starts {
        busEnable := true;
        request := RequestNow(c, r);
        pipeStore := r.decode.instr.kind == Store;
      }
      if starts && !confirm {
        outstanding := true;
      } else if !starts && confirm {
        outstanding := false;
      }
      result := d.data;
      validReg := confirm;
    }
  }

  class WritebackStage {
    var valid: bool
    var we: bool
    var rd: Reg
    var aluValid: bool
    var loadValid: bool
    var jumpValid: bool
    var aluData: Word
    var loadData: Word
    var jumpData: Word

    constructor ()
      ensures State() == Reset().wb
    {
      valid, we, rd, aluValid, loadValid, jumpValid := false, false, 0, false, false, false;
      aluData, loadData, jumpData := 0, 0, 0;
    }

    function State(): WritebackRegs
      reads this
    {
      WritebackRegs(valid, we, rd, aluValid, loadValid, jumpValid, aluData, loadData, jumpData)
    }

    method Clock(p: Program, c: Config, r: Regs)
      modifies this
      ensures State() == WritebackNext(p, c, r)
    {
      valid := ExecuteValid(c, r);
      we := ExecuteWrites(c, r);
      rd := if Taken(c, r) then r.decode.instr.rd else r.execute.rd;
      aluValid, loadValid, jumpValid := false, false, false;
      if JumpWrites(c, r) {
        jumpValid := true;
      } else if LoadWrites(r) {
        loadValid := true;
      } else if AluValid(c, r) {
        aluValid := true;
      }
      aluData := AluResult(p, c, r);
      loadData := r.ls.result;
      jumpData := Next(r.decode.pc);
    }
  }

  /** The back end: every stage is clocked on the signals before the edge. */
  class PipelinedBackend {
    const config: Config
    const file: RegisterFile
    const decode: DecodeStage
    const execute: ExecuteStage
    const shift: ShiftUnit
    const ls: LoadStoreUnit
    const wb: WritebackStage

    constructor (c: Config)
      ensures Valid() && config == c && State() == Reset()
      ensures fresh(file) && fresh(file.registers) && fresh(decode) && fresh(execute) && fresh(shift) && fresh(ls)
      ensures fresh(wb)
    {
      config := c;
      file := new RegisterFile();
      decode := new DecodeStage();
      execute := new ExecuteStage();
      shift := new ShiftUnit();
      ls := new LoadStoreUnit();
      wb := new WritebackStage();
    }

    predicate Valid() {
      file.Valid()
    }

    function State(): Regs
      requires Valid()
      reads file, file.registers, decode, execute, shift, ls, wb
    {
      Regs(file.State(), decode.State(), execute.State(), shift.State(), ls.State(), wb.State())
    }

    method ClockFile(p: Program, r: Regs, f: Fetched)
      requires Valid() && r.file == file.State()
      modifies file, file.registers
      ensures file.State() == FileNext(p, config, r, f)
    {
      file.Clock(ReadA(p, config, r, f), ReadB(p, config, r, f), WriteEnable(r.wb), r.wb.rd, WritebackData(r.wb));
    }

    method Clock(p: Program, f: Fetched, d: DataBus)
      requires Valid()
      modifies file, file.registers, decode, execute, shift, ls, wb
      ensures State() == Step(p, config, old(State()), f, d)
    {
      var r := State();
      ClockFile(p, r, f);
      decode.Clock(p, config, r, f);
      execute.Clock(p, config, r);
      shift.Clock(p, config, r);
      ls.Clock(config, r, d);
      wb.Clock(p, config, r);
    }
  }
}
