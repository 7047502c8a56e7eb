/** Fetch unit and back end wired together (rtl/bonfire_core_top.py), with the memories behind their
    buses, and the invariant that ties them to in-order execution. */
module Core {
  import opened Isa
  import opened Backend
  import Fetch

  /** The registers of the core, and the accesses the data memory has accepted so far. */
  datatype World = World(back: Regs, fetch: Fetch.World, accepted: seq<Access>)

  /** What the data bus does in a cycle. */
  datatype In = In(stall: bool, ack: bool, data: Word)

  function AcceptedNext(w: World, i: In): seq<Access> {
    if w.back.ls.enable && !i.stall then w.accepted + [w.back.ls.request] else w.accepted
  }

  /** The bus acknowledges only an access it has accepted, and a load with the memory's word; its data
      lines may hold anything otherwise. */
  predicate Obeys(p: Program, w: World, i: In) {
    i.ack ==>
      && w.back.ls.outstanding && (w.back.ls.enable ==> !i.stall)
      && (!w.back.ls.store ==> i.data == p.memory(AcceptedNext(w, i)))
  }

  function FetchIn(p: Program, c: Config, r: Regs): Fetch.In {
    Fetch.In(DownstreamBusy(c, r), JumpOut(p, c, r), JumpDestOut(p, c, r))
  }

  function FetchOut(w: Fetch.World): Fetched {
    Fetched(w.f.q.valid, w.f.q.slot0.word, w.f.q.slot0.ip)
  }

  function DataIn(i: In): DataBus {
    DataBus(i.stall, i.ack, i.data)
  }

  function Cycle(p: Program, c: Config, w: World, i: In): World {
    World(Backend.Step(p, c, w.back, FetchOut(w.fetch), DataIn(i)),
          Fetch.WorldStep(p.text, w.fetch, FetchIn(p, c, w.back)),
          AcceptedNext(w, i))
  }

  function Boot(pc: Word): World {
    World(Backend.Reset(), Fetch.World(Fetch.Reset(pc), Fetch.Bus(false, 0)), [])
  }

  /** The registers that in-order execution starts from. */
  function Start(pc: Word): State {
    State(pc, Zeros(), [])
  }

  class BonfireCore {
    const fetch: Fetch.FetchUnit
    const backend: PipelinedBackend

    constructor (c: Config, pc: Word)
      ensures Valid() && backend.config == c
      ensures fresh(fetch) && fresh(backend)
      ensures fetch.Registers() == Boot(pc).fetch.f && backend.State() == Boot(pc).back
    {
      fetch := new Fetch.FetchUnit(pc);
      backend := new PipelinedBackend(c);
    }

    predicate Valid() {
      backend.Valid()
    }

    /** One clock edge, given the word and acknowledge of the instruction bus and the data bus. */
    method Clock(p: Program, b: Fetch.Bus, word: nat, d: DataBus)
      requires Valid()
      modifies fetch, backend.file, backend.file.registers, backend.decode, backend.execute, backend.shift, backend.ls, backend.wb
      ensures fetch.Registers() == Fetch.Step(old(fetch.Registers()), b, FetchIn(p, backend.config, old(backend.State())), word)
      ensures backend.State()
           == Backend.Step(p, backend.config, old(backend.State()), FetchOut(Fetch.World(old(fetch.Registers()), b)), d)
    {
      var w := Fetch.World(fetch.Registers(), b);
      var i := FetchIn(p, backend.config, backend.State());
      backend.Clock(p, FetchOut(w), d);
      fetch.Clock(b, i, word);
    }
  }

  // ---- what can be seen of a cycle ----

  /** The instruction taken by execute, with the operands it looks at. */
  function Seen(c: Config, r: Regs): Event {
    var i := r.decode.instr;
    Event(r.decode.pc, i, if i.immediate1 || Uses1(i) then Op1(c, r) else 0,
          if i.immediate2 || Uses2(i) then Op2(c, r) else 0)
  }

  function TakenEvents(c: Config, r: Regs): seq<Event> {
    if Taken(c, r) then [Seen(c, r)] else []
  }

  /** The register write committed at the next edge. */
  function Committed(r: Regs): seq<Write> {
    if WriteEnable(r.wb) then [Write(r.wb.rd, WritebackData(r.wb))] else []
  }

  /** The access on its way to the memory. */
  function Requested(r: Regs): seq<Access> {
    if r.ls.enable then [r.ls.request] else []
  }

  /** The write of a started shift or load that has not reached writeback. */
  function Pending(p: Program, w: World): seq<Write> {
    var r := w.back;
    if r.shift.ready then [Write(r.execute.rd, r.shift.value)]
    else if r.ls.store then []
    else if r.ls.outstanding then [Write(r.execute.rd, p.memory(w.accepted + Requested(r)))]
    else if r.ls.valid then [Write(r.execute.rd, r.ls.result)]
    else []
  }

  function InFlight(p: Program, w: World): seq<Write> {
    Committed(w.back) + Pending(p, w)
  }

  /** No multi-cycle unit is at work. */
  predicate Idle(r: Regs) {
    !r.shift.ready && !LoadStoreBusy(r.ls)
  }

  // ---- the invariant ----

  /** At most one write is on its way, and the units agree about what they are doing. */
  predicate UnitsOk(r: Regs) {
    && r.shift.busy == r.shift.ready
    && (r.ls.enable ==> r.ls.outstanding)
    && !(r.ls.outstanding && r.ls.valid)
    && !(r.shift.ready && LoadStoreBusy(r.ls))
    && (r.wb.valid ==> Idle(r))
  }

  /** The decoded instruction is the next one, with both registers as they are in the file. */
  predicate DecodeOk(p: Program, w: World, pc: Word) {
    var r := w.back;
    r.decode.valid ==>
      && w.fetch.f.run
      && r.decode.pc == pc && r.decode.instr == At(p, pc)
      && PortA(r.file) == Read(r.file.registers, r.decode.instr.rs1)
      && PortB(r.file) == Read(r.file.registers, r.decode.instr.rs2)
  }

  /** The address the fetch unit must deliver next. */
  function FetchFrom(r: Regs, pc: Word): Word {
    if r.decode.valid then Next(pc) else pc
  }

  /** A redirect is answered only by the instruction at its destination: until then the decode
      register is empty, and then it holds an instruction that is taken at once. */
  predicate JumpOk(w: World) {
    && (w.fetch.f.jumpTaken ==> !w.back.decode.valid && Idle(w.back))
    && (w.fetch.f.jumpTaken && w.fetch.f.q.valid ==> !w.back.wb.valid)
    && (w.back.execute.jump && !w.fetch.f.jumpTaken ==> w.back.decode.valid && Idle(w.back) && !w.back.wb.valid)
  }

  /** The core has taken the instructions up to `s`. */
  predicate Inv(p: Program, w: World, s: State) {
    && UnitsOk(w.back)
    && JumpOk(w)
    && DecodeOk(p, w, s.pc)
    && Fetch.Ok(p.text, w.fetch, FetchFrom(w.back, s.pc))
    && s.regs == ApplyAll(w.back.file.registers, InFlight(p, w))
    && s.accesses == w.accepted + Requested(w.back)
  }

  lemma BootInv(p: Program, pc: Word)
    ensures Inv(p, Boot(pc), Start(pc))
  {
  }

  /** The in-order state after this cycle. */
  function StateNext(p: Program, c: Config, w: World, s: State): State {
    if Taken(c, w.back) then Retire(p, s) else s
  }

  // ---- one cycle ----

  /** What execute takes is the next instruction with its in-order operands: by forwarding, by the
      interlock, or by the collision registers of the file. */
  lemma TakesNext(p: Program, c: Config, w: World, s: State)
    requires Inv(p, w, s) && Taken(c, w.back)
    ensures Seen(c, w.back) == EventOf(p, s)
  {
    OperandsRight(p, c, w, s);
  }

  lemma OperandsRight(p: Program, c: Config, w: World, s: State)
    requires Inv(p, w, s) && Taken(c, w.back)
    ensures var i := w.back.decode.instr;
            && (Uses1(i) ==> Op1(c, w.back) == Read(s.regs, i.rs1))
            && (Uses2(i) ==> Op2(c, w.back) == Read(s.regs, i.rs2))
            && (i.immediate1 ==> Op1(c, w.back) == i.imm1)
            && (i.immediate2 ==> Op2(c, w.back) == i.imm2)
  {
    assert InFlight(p, w) == Committed(w.back);
    if WriteEnable(w.back.wb) {
      ApplyOne(w.back.file.registers, Committed(w.back)[0]);
    }
  }

  lemma UnitsStep(p: Program, c: Config, w: World, i: In)
    requires UnitsOk(w.back) && Obeys(p, w, i)
    ensures UnitsOk(Cycle(p, c, w, i).back)
  {
  }

  /** The read ports show the register file after the edge. */
  lemma FileReads(f: FileRegs, ra: Reg, rb: Reg, we: bool, wa: Reg, wd: Word)
    ensures var n := FileStep(f, ra, rb, we, wa, wd);
            PortA(n) == Read(n.registers, ra) && PortB(n) == Read(n.registers, rb)
  {
  }

  /** Redirects happen exactly when a jump is taken. */
  lemma RedirectsAreJumps(p: Program, c: Config, w: World, pc: Word)
    requires UnitsOk(w.back) && JumpOk(w) && DecodeOk(p, w, pc)
    requires Fetch.Ok(p.text, w.fetch, FetchFrom(w.back, pc))
    ensures Fetch.Accepts(w.fetch, FetchIn(p, c, w.back)) <==> JumpNow(p, c, w.back)
  {
    Fetch.DeliversInOrder(p.text, w.fetch, FetchIn(p, c, w.back), FetchFrom(w.back, pc));
  }

  lemma DecodeStep(p: Program, c: Config, w: World, i: In, pc: Word)
    requires UnitsOk(w.back) && JumpOk(w) && DecodeOk(p, w, pc)
    requires Fetch.Ok(p.text, w.fetch, FetchFrom(w.back, pc))
    ensures var n := Cycle(p, c, w, i);
            var to := if !Taken(c, w.back) then pc
                      else if JumpNow(p, c, w.back) then JumpDest(p, c, w.back) else Next(pc);
            DecodeOk(p, n, to) && Fetch.Ok(p.text, n.fetch, FetchFrom(n.back, to))
  {
    var r := w.back;
    var f := FetchOut(w.fetch);
    Fetch.DeliversInOrder(p.text, w.fetch, FetchIn(p, c, r), FetchFrom(r, pc));
    RedirectsAreJumps(p, c, w, pc);
    FileReads(r.file, ReadA(p, c, r, f), ReadB(p, c, r, f), WriteEnable(r.wb), r.wb.rd, WritebackData(r.wb));
  }

  lemma JumpStep(p: Program, c: Config, w: World, i: In, pc: Word)
    requires UnitsOk(w.back) && JumpOk(w) && DecodeOk(p, w, pc) && Obeys(p, w, i)
    requires Fetch.Ok(p.text, w.fetch, FetchFrom(w.back, pc))
    ensures JumpOk(Cycle(p, c, w, i))
  {
    RedirectsAreJumps(p, c, w, pc);
  }

  /** The write port commits what writeback holds. */
  lemma FileStepCommits(p: Program, c: Config, w: World, i: In)
    ensures Cycle(p, c, w, i).back.file.registers == ApplyAll(w.back.file.registers, Committed(w.back))
  {
    if WriteEnable(w.back.wb) {
      ApplyOne(w.back.file.registers, Committed(w.back)[0]);
    }
  }

  /** The memory's accesses with the one requested are those of the instructions taken. */
  lemma AccessStep(p: Program, c: Config, w: World, i: In)
    requires UnitsOk(w.back) && Obeys(p, w, i)
    ensures var n := Cycle(p, c, w, i);
            var accesses := w.accepted + Requested(w.back);
            n.accepted + Requested(n.back) ==
              if Taken(c, w.back) then accesses + AccessOf(Seen(c, w.back)) else accesses
  {
  }

  /** The instruction taken puts its own write in flight, its value computed from the operands
      seen; otherwise what was started stays in flight, unchanged, until writeback. */
  lemma InFlightStep(p: Program, c: Config, w: World, i: In)
    requires UnitsOk(w.back) && Obeys(p, w, i)
    ensures var accesses := w.accepted + Requested(w.back);
            InFlight(p, Cycle(p, c, w, i)) ==
              if Taken(c, w.back) then WriteOf(p, Seen(c, w.back), accesses + AccessOf(Seen(c, w.back)))
              else Pending(p, w)
  {
    AccessStep(p, c, w, i);
    if Confirmed(w.back, DataIn(i)) {
      assert AcceptedNext(w, i) == w.accepted + Requested(w.back);
    }
  }

  /** Every cycle takes nothing or exactly the next instruction of in-order execution, and keeps
      the invariant, in both configurations and whatever the data bus does. */
  lemma CycleRefines(p: Program, c: Config, w: World, i: In, s: State)
    requires Inv(p, w, s) && Obeys(p, w, i)
    ensures Inv(p, Cycle(p, c, w, i), StateNext(p, c, w, s))
    ensures Taken(c, w.back) ==> Seen(c, w.back) == EventOf(p, s)
  {
    var n := Cycle(p, c, w, i);
    UnitsStep(p, c, w, i);
    JumpStep(p, c, w, i, s.pc);
    DecodeStep(p, c, w, i, s.pc);
    InFlightStep(p, c, w, i);
    AccessStep(p, c, w, i);
    FileStepCommits(p, c, w, i);
    ApplyConcat(w.back.file.registers, Committed(w.back), Pending(p, w));
    if Taken(c, w.back) {
      TakesNext(p, c, w, s);
      TargetIs(p, c, w, s);
      assert InFlight(p, w) == Committed(w.back);
    }
  }

  lemma TargetIs(p: Program, c: Config, w: World, s: State)
    requires Inv(p, w, s) && Taken(c, w.back)
    ensures Target(p, EventOf(p, s)) == if JumpNow(p, c, w.back) then JumpDest(p, c, w.back) else Next(s.pc)
  {
    OperandsRight(p, c, w, s);
  }
}
