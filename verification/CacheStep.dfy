/** Registers of the write-back cache and what one clock edge does to them
    (rtl/cache/cache.py, cache_way.py, cache_businterface.py, tag_ram.py, cache_ram.py).
 */
module CacheStep {
  import opened CacheGeometry

  datatype Tag = Tag(valid: bool, dirty: bool, address: nat)

  datatype Request = Request(adr: nat, we: Mask, data: Word)

  /** Request register and acknowledge of the CPU side. */
  datatype Bus = Bus(pending: bool, saved: Request, ack: bool)

  /** Tag RAM with its output register and the index that was read into it. */
  datatype Way = Way(tags: seq<Tag>, buffer: Tag, bufferIndex: nat)

  /** Data RAM with the output registers of its two ports and the lane select register. */
  datatype Ram = Ram(cells: seq<MWord>, slaveRd: MWord, masterRd: MWord, lane: nat)

  datatype Phase = Idle | BurstRead | BurstWrite | Finish | Retire

  /** Refill and write-back engine.  `last` is cycle type 0b111 (end of burst) on the memory bus. */
  datatype Master = Master(phase: Phase, enable: bool, write: bool, last: bool, cacheOffset: nat, masterOffset: nat)

  datatype Regs = Regs(bus: Bus, way: Way, ram: Ram, master: Master)

  /** One cycle of inputs: the CPU's request lines, and the memory's acknowledge and read data. */
  datatype In = In(en: bool, request: Request, memAck: bool, memData: MWord)

  const EMPTY_TAG := Tag(false, false, 0)

  // ---- combinational signals ----

  function Current(r: Regs, i: In): Request {
    if r.bus.pending then r.bus.saved else i.request
  }

  predicate SlaveEn(r: Regs, i: In) {
    r.bus.pending || i.en
  }

  predicate Stall(r: Regs, en: bool) {
    r.bus.pending && en
  }

  predicate IndexMatch(c: Config, r: Regs, i: In)
    requires c.Valid()
  {
    r.way.bufferIndex == Split(c, Current(r, i).adr).index
  }

  predicate TagMatch(c: Config, r: Regs, i: In)
    requires c.Valid()
  {
    r.way.buffer.valid && r.way.buffer.address == Split(c, Current(r, i).adr).tag
  }

  predicate Hit(c: Config, r: Regs, i: In)
    requires c.Valid()
  {
    IndexMatch(c, r, i) && TagMatch(c, r, i) && SlaveEn(r, i)
  }

  predicate Miss(c: Config, r: Regs, i: In)
    requires c.Valid()
  {
    SlaveEn(r, i) && IndexMatch(c, r, i) && !TagMatch(c, r, i)
  }

  predicate DirtyMiss(c: Config, r: Regs, i: In)
    requires c.Valid()
  {
    Miss(c, r, i) && r.way.buffer.dirty
  }

  predicate SlaveWrite(c: Config, r: Regs, i: In)
    requires c.Valid()
  {
    SlaveEn(r, i) && Current(r, i).we != NO_BYTES && Hit(c, r, i)
  }

  /** Address driven on the memory bus. */
  function MasterAdr(c: Config, r: Regs, i: In): Loc
    requires c.Valid()
  {
    var a := Split(c, Current(r, i).adr);
    if DirtyMiss(c, r, i) then
      Loc(r.way.buffer.address, r.way.bufferIndex, r.master.masterOffset)
    else
      Loc(a.tag, a.index, r.master.masterOffset)
  }

  /** Address of the memory-side port of the data RAM. */
  function MasterCell(c: Config, r: Regs, i: In): nat
    requires c.Valid()
  {
    if DirtyMiss(c, r, i) then
      Cell(c, r.way.bufferIndex, r.master.cacheOffset)
    else
      Cell(c, Split(c, Current(r, i).adr).index, r.master.masterOffset)
  }

  /** The read data lines of the CPU side. */
  function ReadData(r: Regs): Word
    requires r.ram.lane < |r.ram.slaveRd|
  {
    r.ram.slaveRd[r.ram.lane]
  }

  // ---- registers ----

  function BusStep(b: Bus, i: In, hit: bool): Bus {
    var take := i.en && !(b.pending || hit);
    var done := hit && (i.en || b.pending);
    Bus(if done then false else take || b.pending,
        if take then i.request else b.saved,
        done)
  }

  function WayStep(w: Way, index: nat, we: bool, tag: Tag): Way
    requires index < |w.tags|
  {
    var tags := if we then w.tags[index := tag] else w.tags;
    Way(tags, tags[index], index)
  }

  /** One write-enable mask and one copy of the CPU word for every lane of a memory word. */
  function LaneMasks(n: nat, lane: nat, we: Mask): (m: seq<Mask>)
    ensures |m| == n
  {
    seq(n, k => if k == lane then we else NO_BYTES)
  }

  function LaneData(n: nat, data: Word): (m: MWord)
    ensures |m| == n
  {
    seq(n, k => data)
  }

  /** A byte-lane write to one memory word. */
  function WriteLanes(cell: MWord, we: seq<Mask>, data: MWord): (w: MWord)
    requires |cell| == |we| == |data|
    ensures |w| == |cell|
  {
    seq(|cell|, k requires 0 <= k < |cell| => Masked(cell[k], we[k], data[k]))
  }

  lemma WriteLanesIsMasked(cell: MWord, lane: nat, we: Mask, data: Word)
    requires lane < |cell|
    ensures WriteLanes(cell, LaneMasks(|cell|, lane, we), LaneData(|cell|, data))
         == cell[lane := Masked(cell[lane], we, data)]
    ensures forall j, k :: 0 <= j < |cell| && 0 <= k < 4 ==>
              WriteLanes(cell, LaneMasks(|cell|, lane, we), LaneData(|cell|, data))[j][k]
              == if j == lane && we[k] then data[k] else cell[j][k]
  {
    var w := WriteLanes(cell, LaneMasks(|cell|, lane, we), LaneData(|cell|, data));
    forall k | 0 <= k < |cell|
      ensures w[k] == cell[lane := Masked(cell[lane], we, data)][k]
    {
      MaskedNone(cell[k], data);
    }
  }

  datatype RamPorts = RamPorts(slaveEn: bool, slaveAdr: nat, slaveWe: seq<Mask>, slaveWr: MWord,
                               masterEn: bool, masterWe: bool, masterAdr: nat, masterWr: MWord)

  predicate PortsFit(cells: seq<MWord>, p: RamPorts) {
    && p.slaveAdr < |cells| && p.masterAdr < |cells|
    && |cells[p.slaveAdr]| == |p.slaveWe| == |p.slaveWr|
  }

  function CellsStep(cells: seq<MWord>, p: RamPorts): (cells': seq<MWord>)
    requires PortsFit(cells, p)
    ensures |cells'| == |cells|
  {
    var slave := if p.slaveEn then cells[p.slaveAdr := WriteLanes(cells[p.slaveAdr], p.slaveWe, p.slaveWr)] else cells;
    if p.masterEn && p.masterWe then slave[p.masterAdr := p.masterWr] else slave
  }

  function RamStep(m: Ram, p: RamPorts, lane: nat): Ram
    requires PortsFit(m.cells, p)
  {
    Ram(CellsStep(m.cells, p), m.cells[p.slaveAdr],
        if p.masterEn then m.cells[p.masterAdr] else m.masterRd,
        if p.slaveEn then lane else m.lane)
  }

  function MasterStep(c: Config, m: Master, miss: bool, dirtyMiss: bool, ack: bool): Master
    requires c.Valid()
  {
    match m.phase
    case Idle =>
      if !miss then m
      else if dirtyMiss then m.(phase := BurstWrite, enable := true, write := true, last := false,
                                cacheOffset := (m.masterOffset + 1) % c.lineSize)
      else m.(phase := BurstRead, enable := true, write := false, last := false)
    case BurstRead | BurstWrite =>
      if !ack then m
      else
        var n := (m.masterOffset + 1) % c.lineSize;
        m.(masterOffset := n, cacheOffset := (n + 1) % c.lineSize,
           last := m.last || n == c.lineSize - 1,
           phase := if n == c.lineSize - 1 then Finish else m.phase)
    case Finish =>
      if !ack then m
      else m.(phase := Retire, enable := false, write := false, masterOffset := 0, cacheOffset := 0)
    case Retire => m.(phase := Idle)
  }

  function Ports(c: Config, r: Regs, i: In): RamPorts
    requires c.Valid()
  {
    var a := Split(c, Current(r, i).adr);
    RamPorts(Hit(c, r, i) && SlaveEn(r, i), Cell(c, a.index, a.word),
             LaneMasks(c.mux, a.lane, Current(r, i).we), LaneData(c.mux, Current(r, i).data),
             (i.memAck && r.master.enable) || (DirtyMiss(c, r, i) && r.master.phase == Idle),
             i.memAck && !DirtyMiss(c, r, i),
             MasterCell(c, r, i), i.memData)
  }

  predicate TagWrite(c: Config, r: Regs, i: In)
    requires c.Valid()
  {
    (i.memAck && r.master.phase == Finish) || SlaveWrite(c, r, i)
  }

  function NewTag(c: Config, r: Regs, i: In): Tag
    requires c.Valid()
  {
    Tag(!DirtyMiss(c, r, i), SlaveWrite(c, r, i), Split(c, Current(r, i).adr).tag)
  }

  /** What the arrays must look like for their address lines to be in range. */
  predicate Shaped(c: Config, r: Regs) {
    && |r.way.tags| == c.lines
    && |r.ram.cells| == c.lines * c.lineSize
    && (forall k :: 0 <= k < |r.ram.cells| ==> |r.ram.cells[k]| == c.mux)
    && r.way.bufferIndex < c.lines
    && r.master.cacheOffset < c.lineSize && r.master.masterOffset < c.lineSize
    && r.bus.saved.adr < c.Size()
  }

  predicate Fits(c: Config, i: In) {
    i.request.adr < c.Size() && |i.memData| == c.mux
  }

  lemma PortsInRange(c: Config, r: Regs, i: In)
    requires c.Valid() && Shaped(c, r) && Fits(c, i)
    ensures PortsFit(r.ram.cells, Ports(c, r, i))
    ensures InRange(c, Split(c, Current(r, i).adr))
  {
    var a := Split(c, Current(r, i).adr);
    ConcatSplit(c, Current(r, i).adr);
    CellInRange(c, a.index, a.word);
    CellInRange(c, r.way.bufferIndex, r.master.cacheOffset);
    CellInRange(c, a.index, r.master.masterOffset);
  }

  /** One clock edge of the whole cache. */
  function Step(c: Config, r: Regs, i: In): Regs
    requires c.Valid() && Shaped(c, r) && Fits(c, i)
  {
    PortsInRange(c, r, i);
    Regs(BusStep(r.bus, i, Hit(c, r, i)),
         WayStep(r.way, Split(c, Current(r, i).adr).index, TagWrite(c, r, i), NewTag(c, r, i)),
         RamStep(r.ram, Ports(c, r, i), Split(c, Current(r, i).adr).lane),
         MasterStep(c, r.master, Miss(c, r, i) && !Hit(c, r, i), DirtyMiss(c, r, i), i.memAck))
  }

  /** An edge keeps the arrays in shape. */
  lemma StepKeepsShape(c: Config, r: Regs, i: In)
    requires c.Valid() && Shaped(c, r) && Fits(c, i)
    ensures Shaped(c, Step(c, r, i))
  {
    PortsInRange(c, r, i);
    ConcatSplit(c, Current(r, i).adr);
  }

  /** The registers after power-up, with some request in the request register. */
  function PowerUp(c: Config, q: Request): Regs
    requires c.Valid()
  {
    Regs(Bus(false, q, false), Way(seq(c.lines, k => EMPTY_TAG), EMPTY_TAG, 0),
         Ram(seq(c.lines * c.lineSize, k => LaneData(c.mux, ZERO)), LaneData(c.mux, ZERO), LaneData(c.mux, ZERO), 0),
         Master(Idle, false, false, false, 0, 0))
  }
}
