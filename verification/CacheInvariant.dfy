/** The cache together with the memory behind it, and what every reachable state satisfies. */
module CacheInvariant {
  import opened CacheGeometry
  import opened CacheStep

  /** The memory behind the cache, one entry for every memory-bus word. */
  type Store = map<Loc, MWord>

  datatype Sys = Sys(r: Regs, mem: Store)

  /** What the outside chooses in one cycle: the CPU's request lines, and whether the memory
      acknowledges a beat (false is a wait state). */
  datatype Drive = Drive(en: bool, request: Request, memAck: bool)

  /** The memory never acknowledges a cycle that was not requested. */
  ghost predicate Legal(c: Config, s: Sys, d: Drive) {
    d.request.adr < c.Size() && (d.memAck ==> s.r.master.enable)
  }

  ghost predicate StoreShaped(c: Config, mem: Store) {
    forall l :: LocInRange(c, l) ==> l in mem && |mem[l]| == c.mux
  }

  /** The cycle's inputs, with the read data the memory drives for the address it is given. */
  ghost function Inputs(c: Config, s: Sys, d: Drive): In
    requires c.Valid()
  {
    var idle := In(d.en, d.request, d.memAck, LaneData(c.mux, ZERO));
    var l := MasterAdr(c, s.r, idle);
    idle.(memData := if l in s.mem && |s.mem[l]| == c.mux then s.mem[l] else idle.memData)
  }

  ghost function SysStep(c: Config, s: Sys, d: Drive): Sys
    requires c.Valid() && Shaped(c, s.r) && Legal(c, s, d)
  {
    var i := Inputs(c, s, d);
    Sys(Step(c, s.r, i),
        if d.memAck && s.r.master.write then s.mem[MasterAdr(c, s.r, i) := s.r.ram.masterRd] else s.mem)
  }

  // ---- the memory the CPU sees ----

  ghost function PendingAdr(c: Config, r: Regs): Adr
    requires c.Valid()
  {
    Split(c, r.bus.saved.adr)
  }

  /** The line `index` is being overwritten, so its tag RAM entry says nothing about its contents. */
  ghost predicate Refilling(r: Regs, index: nat) {
    r.master.enable && !r.master.write && index == r.way.bufferIndex
  }

  ghost predicate Live(r: Regs, l: Loc)
    requires l.index < |r.way.tags|
  {
    var t := r.way.tags[l.index];
    t.valid && t.address == l.tag && !Refilling(r, l.index)
  }

  /** The memory word the CPU sees: a live line, else the memory behind the cache. */
  ghost function VisibleAt(c: Config, s: Sys, l: Loc): MWord
    requires c.Valid() && Shaped(c, s.r) && StoreShaped(c, s.mem) && LocInRange(c, l)
  {
    CellInRange(c, l.index, l.word);
    if Live(s.r, l) then s.r.ram.cells[Cell(c, l.index, l.word)] else s.mem[l]
  }

  // ---- invariant ----

  ghost predicate TagsOk(c: Config, w: Way) {
    && |w.tags| == c.lines && w.bufferIndex < c.lines
    && w.buffer == w.tags[w.bufferIndex]
    && (forall k :: 0 <= k < c.lines ==> w.tags[k].dirty ==> w.tags[k].valid)
    && (forall k :: 0 <= k < c.lines ==> w.tags[k].address < c.tags)
  }

  /** A clean line holds what the memory holds. */
  ghost predicate CleanOk(c: Config, s: Sys)
    requires c.Valid() && Shaped(c, s.r) && StoreShaped(c, s.mem) && TagsOk(c, s.r.way)
  {
    forall l :: LocInRange(c, l) && Live(s.r, l) && !s.r.way.tags[l.index].dirty ==>
      VisibleAt(c, s, l) == s.mem[l]
  }

  /** Requests wait in the request register; while one waits, its tag has been looked up. */
  ghost predicate BusOk(c: Config, r: Regs)
    requires c.Valid()
  {
    && (r.bus.pending ==> r.way.bufferIndex == PendingAdr(c, r).index && !r.bus.ack)
    && r.ram.lane < c.mux && |r.ram.slaveRd| == c.mux && |r.ram.masterRd| == c.mux
  }

  ghost predicate MasterOk(c: Config, r: Regs)
    requires c.Valid()
  {
    var m := r.master;
    && (m.enable <==> m.phase in {BurstRead, BurstWrite, Finish})
    && (m.phase == BurstRead ==> !m.write) && (m.phase == BurstWrite ==> m.write)
    && (!m.enable ==> !m.write && m.masterOffset == 0 && m.cacheOffset == 0)
    && (m.phase in {BurstRead, BurstWrite} ==> m.masterOffset < c.lineSize - 1)
    && (m.phase == Finish ==> m.masterOffset == c.lineSize - 1)
    && (m.enable ==> (m.last <==> m.phase == Finish))
    && (m.phase == Retire ==> r.bus.pending)
    && (m.enable ==>
          && r.bus.pending
          && !(r.way.buffer.valid && r.way.buffer.address == PendingAdr(c, r).tag)
          && m.write == r.way.buffer.dirty)
    && (m.write ==> m.cacheOffset == (m.masterOffset + 1) % c.lineSize)
  }

  /** A refill has copied the words below the offset counter into the data RAM. */
  ghost predicate RefillOk(c: Config, s: Sys)
    requires c.Valid() && Shaped(c, s.r) && StoreShaped(c, s.mem) && TagsOk(c, s.r.way)
  {
    var b := s.r.way.bufferIndex;
    var a := PendingAdr(c, s.r);
    s.r.master.enable && !s.r.master.write && a.tag < c.tags ==>
      forall k: nat :: k < s.r.master.masterOffset ==> Filled(c, s, b, a.tag, k)
  }

  ghost predicate Filled(c: Config, s: Sys, index: nat, tag: nat, k: nat)
    requires c.Valid() && Shaped(c, s.r) && StoreShaped(c, s.mem)
    requires index < c.lines && tag < c.tags && k < c.lineSize
  {
    CellInRange(c, index, k);
    s.r.ram.cells[Cell(c, index, k)] == s.mem[Loc(tag, index, k)]
  }

  /** A write-back has copied the words below the offset counter to memory, and the next one
      is on the bus. */
  ghost predicate WriteBackOk(c: Config, s: Sys)
    requires c.Valid() && Shaped(c, s.r) && StoreShaped(c, s.mem) && TagsOk(c, s.r.way)
  {
    var w := s.r.way;
    s.r.master.write ==>
      && (forall k: nat :: k < s.r.master.masterOffset ==> Filled(c, s, w.bufferIndex, w.buffer.address, k))
      && OnBus(c, s)
  }

  ghost predicate OnBus(c: Config, s: Sys)
    requires c.Valid() && Shaped(c, s.r)
  {
    CellInRange(c, s.r.way.bufferIndex, s.r.master.masterOffset);
    s.r.ram.masterRd == s.r.ram.cells[Cell(c, s.r.way.bufferIndex, s.r.master.masterOffset)]
  }

  ghost predicate Inv(c: Config, s: Sys) {
    && c.Valid() && Shaped(c, s.r) && StoreShaped(c, s.mem)
    && TagsOk(c, s.r.way)
    && BusOk(c, s.r)
    && MasterOk(c, s.r)
    && CleanOk(c, s)
    && RefillOk(c, s)
    && WriteBackOk(c, s)
  }

  // ---- one step ----

  lemma PendingInRange(c: Config, s: Sys)
    requires c.Valid() && Shaped(c, s.r)
    ensures InRange(c, PendingAdr(c, s.r))
  {
    ConcatSplit(c, s.r.bus.saved.adr);
  }

  lemma StepShaped(c: Config, s: Sys, d: Drive)
    requires Inv(c, s) && Legal(c, s, d)
    ensures var s' := SysStep(c, s, d);
            Shaped(c, s'.r) && StoreShaped(c, s'.mem) && TagsOk(c, s'.r.way) && BusOk(c, s'.r)
  {
    var i := Inputs(c, s, d);
    PortsInRange(c, s.r, i);
    PendingInRange(c, s);
  }

  lemma StepMaster(c: Config, s: Sys, d: Drive)
    requires Inv(c, s) && Legal(c, s, d)
    ensures MasterOk(c, SysStep(c, s, d).r)
  {
    var i := Inputs(c, s, d);
    PortsInRange(c, s.r, i);
    PendingInRange(c, s);
  }

  /** A beat of a refill: the addressed word goes into the data RAM. */
  ghost predicate RefillBeat(s: Sys, d: Drive) {
    d.memAck && !s.r.master.write
  }

  /** The word a request asks for is in a live line exactly when the cache signals a hit for it. */
  lemma HitIsLive(c: Config, s: Sys, d: Drive)
    requires Inv(c, s) && Legal(c, s, d)
    requires Hit(c, s.r, Inputs(c, s, d))
    ensures !s.r.master.enable && !d.memAck
    ensures var a := Split(c, Current(s.r, Inputs(c, s, d)).adr);
            InRange(c, a) && a.index == s.r.way.bufferIndex && Live(s.r, Loc(a.tag, a.index, a.word))
  {
    PortsInRange(c, s.r, Inputs(c, s, d));
  }

  function Written(cell: MWord, lane: nat, q: Request): MWord
    requires lane < |cell|
  {
    var w: Word := Masked(cell[lane], q.we, q.data);
    cell[lane := w]
  }

  /** The contents of one data RAM cell after a step. */
  lemma CellAfter(c: Config, s: Sys, d: Drive, index: nat, word: nat)
    requires Inv(c, s) && Legal(c, s, d) && index < c.lines && word < c.lineSize
    ensures Cell(c, index, word) < c.lines * c.lineSize
    ensures var i := Inputs(c, s, d);
            var q := Current(s.r, i);
            var a := Split(c, q.adr);
            var cell := s.r.ram.cells[Cell(c, index, word)];
            var cells' := SysStep(c, s, d).r.ram.cells;
            && a.lane < |cell|
            && |cells'| == c.lines * c.lineSize
            && cells'[Cell(c, index, word)] ==
               if Hit(c, s.r, i) && index == a.index && word == a.word then Written(cell, a.lane, q)
               else if RefillBeat(s, d) && index == s.r.way.bufferIndex && word == s.r.master.masterOffset then i.memData
               else cell
  {
    var i := Inputs(c, s, d);
    var q := Current(s.r, i);
    var a := Split(c, q.adr);
    PortsInRange(c, s.r, i);
    PendingInRange(c, s);
    CellInRange(c, index, word);
    CellInRange(c, a.index, a.word);
    WriteLanesIsMasked(s.r.ram.cells[Cell(c, a.index, a.word)], a.lane, q.we, q.data);
    if Cell(c, index, word) == Cell(c, a.index, a.word) {
      CellInjective(c, index, word, a.index, a.word);
    }
    if Cell(c, index, word) == MasterCell(c, s.r, i) && RefillBeat(s, d) {
      CellInjective(c, index, word, a.index, s.r.master.masterOffset);
    }
  }

  /** Where the memory bus points while the engine runs. */
  lemma BusAddress(c: Config, s: Sys, d: Drive)
    requires Inv(c, s) && Legal(c, s, d) && s.r.master.enable
    ensures var l := MasterAdr(c, s.r, Inputs(c, s, d));
            && LocInRange(c, l) && l.index == s.r.way.bufferIndex && l.word == s.r.master.masterOffset
            && l.tag == if s.r.master.write then s.r.way.buffer.address else PendingAdr(c, s.r).tag
    ensures Inputs(c, s, d).memData == s.mem[MasterAdr(c, s.r, Inputs(c, s, d))]
  {
    PendingInRange(c, s);
  }

  /** While the engine runs, the waiting request keeps missing. */
  lemma BusyMiss(c: Config, s: Sys, d: Drive)
    requires Inv(c, s) && Legal(c, s, d) && s.r.master.enable
    ensures var i := Inputs(c, s, d);
            && Current(s.r, i) == s.r.bus.saved
            && !Hit(c, s.r, i) && Miss(c, s.r, i) && (DirtyMiss(c, s.r, i) <==> s.r.master.write)
  {
  }

  /** One beat of the engine. */
  lemma EngineBeat(c: Config, m: Master, dirtyMiss: bool, ack: bool)
    requires c.Valid()
    requires m.phase in {BurstRead, BurstWrite} ==> m.masterOffset < c.lineSize - 1
    requires m.enable && m.phase in {BurstRead, BurstWrite, Finish}
    ensures var m' := MasterStep(c, m, true, dirtyMiss, ack);
            && (m'.enable <==> !(ack && m.phase == Finish))
            && (m'.enable ==> m'.write == m.write && m'.masterOffset == m.masterOffset + if ack then 1 else 0)
  {
  }

  /** While the engine runs the request waits, and its tag entry stays until the last beat. */
  lemma BusyStep(c: Config, s: Sys, d: Drive)
    requires Inv(c, s) && Legal(c, s, d) && s.r.master.enable
    ensures !Hit(c, s.r, Inputs(c, s, d)) && Current(s.r, Inputs(c, s, d)) == s.r.bus.saved
    ensures var r' := SysStep(c, s, d).r;
            && r'.bus.pending && r'.bus.saved == s.r.bus.saved
            && r'.way == WayStep(s.r.way, s.r.way.bufferIndex, d.memAck && s.r.master.phase == Finish,
                                 Tag(!s.r.master.write, false, PendingAdr(c, s.r).tag))
            && r'.master == MasterStep(c, s.r.master, true, s.r.master.write, d.memAck)
  {
    BusyMiss(c, s, d);
    PendingInRange(c, s);
  }

  /** Until the last beat of a burst the request and its tag entry stay; only the offset moves. */
  lemma BurstStep(c: Config, s: Sys, d: Drive)
    requires Inv(c, s) && Legal(c, s, d) && s.r.master.enable
    requires SysStep(c, s, d).r.master.enable
    ensures var r' := SysStep(c, s, d).r;
            && r'.bus.pending && r'.bus.saved == s.r.bus.saved
            && r'.way == s.r.way && r'.master.write == s.r.master.write
            && r'.master.masterOffset == s.r.master.masterOffset + if d.memAck then 1 else 0
  {
    BusyStep(c, s, d);
    EngineBeat(c, s.r.master, s.r.master.write, d.memAck);
  }

  /** The memory after a step. */
  lemma MemAfter(c: Config, s: Sys, d: Drive, l: Loc)
    requires Inv(c, s) && Legal(c, s, d) && LocInRange(c, l)
    ensures l in SysStep(c, s, d).mem
    ensures var beat := d.memAck && s.r.master.write;
            SysStep(c, s, d).mem[l] ==
              if beat && l == Loc(s.r.way.buffer.address, s.r.way.bufferIndex, s.r.master.masterOffset)
              then s.r.ram.masterRd else s.mem[l]
  {
    if s.r.master.enable {
      BusAddress(c, s, d);
    }
  }

  /** A running refill or write-back extends the copied part of the line by each beat. */
  lemma BeatFills(c: Config, s: Sys, d: Drive, tag: nat, k: nat)
    requires Inv(c, s) && Legal(c, s, d) && s.r.master.enable
    requires tag == if s.r.master.write then s.r.way.buffer.address else PendingAdr(c, s.r).tag
    requires k < s.r.master.masterOffset + if d.memAck then 1 else 0
    requires StoreShaped(c, SysStep(c, s, d).mem) && Shaped(c, SysStep(c, s, d).r)
    ensures tag < c.tags && k < c.lineSize
    ensures Filled(c, SysStep(c, s, d), s.r.way.bufferIndex, tag, k)
  {
    var b := s.r.way.bufferIndex;
    PendingInRange(c, s);
    BusyMiss(c, s, d);
    BusAddress(c, s, d);
    CellAfter(c, s, d, b, k);
    MemAfter(c, s, d, Loc(tag, b, k));
    assert k < s.r.master.masterOffset ==> Filled(c, s, b, tag, k);
  }

  /** The engine starts at the first word of a line. */
  lemma EngineStart(c: Config, s: Sys, d: Drive)
    requires Inv(c, s) && Legal(c, s, d) && !s.r.master.enable
    ensures SysStep(c, s, d).r.master.masterOffset == 0
  {
  }

  lemma StepRefill(c: Config, s: Sys, d: Drive)
    requires Inv(c, s) && Legal(c, s, d)
    requires StoreShaped(c, SysStep(c, s, d).mem) && Shaped(c, SysStep(c, s, d).r) && TagsOk(c, SysStep(c, s, d).r.way)
    ensures RefillOk(c, SysStep(c, s, d))
  {
    var s' := SysStep(c, s, d);
    var tag := PendingAdr(c, s'.r).tag;
    if s'.r.master.enable && !s'.r.master.write && tag < c.tags {
      forall k: nat | k < s'.r.master.masterOffset
        ensures Filled(c, s', s'.r.way.bufferIndex, tag, k)
      {
        if s.r.master.enable {
          BurstStep(c, s, d);
          BeatFills(c, s, d, tag, k);
        } else {
          EngineStart(c, s, d);
        }
      }
    }
  }

  /** The first word of a write-back is read while the miss is found, each later one on the
      beat before its own. */
  lemma NextOnBus(c: Config, s: Sys, d: Drive)
    requires Inv(c, s) && Legal(c, s, d)
    requires Shaped(c, SysStep(c, s, d).r) && SysStep(c, s, d).r.master.write
    ensures OnBus(c, SysStep(c, s, d))
  {
    var s' := SysStep(c, s, d);
    PortsInRange(c, s.r, Inputs(c, s, d));
    PendingInRange(c, s);
    if s.r.master.enable {
      BurstStep(c, s, d);
    }
    CellAfter(c, s, d, s.r.way.bufferIndex, s'.r.master.masterOffset);
    CellInRange(c, s.r.way.bufferIndex, s'.r.master.masterOffset);
  }

  lemma StepWriteBack(c: Config, s: Sys, d: Drive)
    requires Inv(c, s) && Legal(c, s, d)
    requires StoreShaped(c, SysStep(c, s, d).mem) && Shaped(c, SysStep(c, s, d).r) && TagsOk(c, SysStep(c, s, d).r.way)
    ensures WriteBackOk(c, SysStep(c, s, d))
  {
    var s' := SysStep(c, s, d);
    if s'.r.master.write {
      NextOnBus(c, s, d);
      if s.r.master.enable {
        BurstStep(c, s, d);
        forall k: nat | k < s'.r.master.masterOffset
          ensures Filled(c, s', s'.r.way.bufferIndex, s'.r.way.buffer.address, k)
        {
          BeatFills(c, s, d, s.r.way.buffer.address, k);
        }
      }
    }
  }
}
