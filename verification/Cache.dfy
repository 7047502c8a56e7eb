/** The cache as clocked hardware: registers and RAM arrays updated in place by each edge. */
module Cache {
  import opened CacheGeometry
  import opened CacheStep

  /** Write-first tag memory with a registered output. */
  class TagRam {
    const entries: array<Tag>
    var dataOut: Tag

    constructor (size: nat)
      ensures fresh(entries) && entries.Length == size
      ensures forall k :: 0 <= k < size ==> entries[k] == EMPTY_TAG
      ensures dataOut == EMPTY_TAG
    {
      entries := new Tag[size](k => EMPTY_TAG);
      dataOut := EMPTY_TAG;
    }

    method Clock(we: bool, adr: nat, dataIn: Tag)
      requires adr < entries.Length
      modifies this, entries
      ensures entries[..] == if we then old(entries[..])[adr := dataIn] else old(entries[..])
      ensures dataOut == entries[adr]
    {
      if we {
        entries[adr] := dataIn;
        dataOut := dataIn;
      } else {
        dataOut := entries[adr];
      }
    }
  }

  /** Dual-port data memory: byte-lane writes on the CPU side, whole words on the memory side. */
  class DataRam {
    const cells: array<MWord>
    var slaveRd: MWord
    var masterRd: MWord

    constructor (size: nat, lanes: nat)
      ensures fresh(cells) && cells.Length == size
      ensures forall k :: 0 <= k < size ==> cells[k] == LaneData(lanes, ZERO)
      ensures slaveRd == masterRd == LaneData(lanes, ZERO)
    {
      var zero: MWord := LaneData(lanes, ZERO);
      cells := new MWord[size](k => zero);
      slaveRd := zero;
      masterRd := zero;
    }

    /** The byte loop of the CPU port: byte `b` of the memory word is byte `b % 4` of lane `b / 4`. */
    method WriteBytes(adr: nat, we: seq<Mask>, data: MWord)
      requires adr < cells.Length && |cells[adr]| == |we| == |data|
      modifies cells
      ensures cells[..] == old(cells[..])[adr := WriteLanes(old(cells[adr]), we, data)]
      ensures |cells[adr]| == |we| && forall k, j :: 0 <= k < |we| && 0 <= j < 4 ==>
                cells[adr][k][j] == if we[k][j] then data[k][j] else old(cells[adr])[k][j]
    {
      var was := cells[adr];
      var b := 0;
      while b < 4 * |was|
        invariant 0 <= b <= 4 * |was|
        invariant |cells[adr]| == |was|
        invariant forall k :: 0 <= k < cells.Length && k != adr ==> cells[k] == old(cells[k])
        invariant forall k, j :: 0 <= k < |was| && 0 <= j < 4 ==>
          cells[adr][k][j] == if 4 * k + j < b && we[k][j] then data[k][j] else was[k][j]
      {
        var k, j := b / 4, b % 4;
        if we[k][j] {
          var lane: Word := cells[adr][k][j := data[k][j]];
          cells[adr] := cells[adr][k := lane];
        }
        b := b + 1;
      }
      assert forall k :: 0 <= k < |was| ==> cells[adr][k] == WriteLanes(was, we, data)[k];
      assert cells[adr] == WriteLanes(was, we, data);
    }

    method Clock(p: RamPorts)
      requires PortsFit(cells[..], p)
      modifies this, cells
      ensures cells[..] == CellsStep(old(cells[..]), p)
      ensures slaveRd == old(cells[..])[p.slaveAdr]
      ensures masterRd == if p.masterEn then old(cells[..])[p.masterAdr] else old(masterRd)
    {
      var slaveWas, masterWas := cells[p.slaveAdr], cells[p.masterAdr];
      if p.slaveEn {
        WriteBytes(p.slaveAdr, p.slaveWe, p.slaveWr);
      }
      slaveRd := slaveWas;
      if p.masterEn {
        if p.masterWe {
          cells[p.masterAdr] := p.masterWr;
        }
        masterRd := masterWas;
      }
    }
  }

  /** The CPU side: request register and acknowledge. */
  class DbSlave {
    var pending: bool
    var saved: Request
    var ack: bool

    constructor (request: Request)
      ensures State() == Bus(false, request, false)
    {
      pending, saved, ack := false, request, false;
    }

    function State(): Bus
      reads this
    {
      Bus(pending, saved, ack)
    }

    method Clock(i: In, hit: bool)
      modifies this
      ensures State() == BusStep(old(State()), i, hit)
    {
      var wasPending := pending;
      if i.en && !(wasPending || hit) {
        saved := i.request;
        pending := true;
      }
      if hit && (i.en || wasPending) {
        ack := true;
        pending := false;
      } else {
        ack := false;
      }
    }
  }

  /** Tag memory and the index its output belongs to. */
  class CacheWay {
    const tagRam: TagRam
    var bufferIndex: nat

    constructor (lines: nat)
      ensures fresh(tagRam) && fresh(tagRam.entries)
      ensures State() == Way(seq(lines, k => EMPTY_TAG), EMPTY_TAG, 0)
    {
      tagRam := new TagRam(lines);
      bufferIndex := 0;
      new;
      assert tagRam.entries[..] == seq(lines, k => EMPTY_TAG);
    }

    function State(): Way
      reads this, tagRam, tagRam.entries
    {
      Way(tagRam.entries[..], tagRam.dataOut, bufferIndex)
    }

    method Clock(we: bool, index: nat, tag: Tag)
      requires index < tagRam.entries.Length
      modifies this, tagRam, tagRam.entries
      ensures State() == WayStep(old(State()), index, we, tag)
    {
      tagRam.Clock(we, index, tag);
      bufferIndex := index;
    }
  }

  /** The refill and write-back engine. */
  class BurstMaster {
    const config: Config
    var phase: Phase
    var enable: bool
    var write: bool
    var last: bool
    var cacheOffset: nat
    var masterOffset: nat

    constructor (config: Config)
      ensures this.config == config && State() == Master(Idle, false, false, false, 0, 0)
    {
      this.config := config;
      phase, enable, write, last, cacheOffset, masterOffset := Idle, false, false, false, 0, 0;
    }

    function State(): Master
      reads this
    {
      Master(phase, enable, write, last, cacheOffset, masterOffset)
    }

    method Clock(miss: bool, dirtyMiss: bool, memAck: bool)
      requires config.Valid()
      modifies this
      ensures State() == MasterStep(config, old(State()), miss, dirtyMiss, memAck)
    {
      if phase == Idle {
        if miss {
          enable := true;
          last := false;
          if dirtyMiss {
            cacheOffset := (masterOffset + 1) % config.lineSize;
            write := true;
            phase := BurstWrite;
          } else {
            write := false;
            phase := BurstRead;
          }
        }
      } else if phase == BurstRead || phase == BurstWrite {
        var n := (masterOffset + 1) % config.lineSize;
        if memAck {
          if n == config.lineSize - 1 {
            last := true;
            phase := Finish;
          }
          masterOffset := n;
          cacheOffset := (n + 1) % config.lineSize;
        }
      } else if phase == Finish {
        if memAck {
          enable := false;
          write := false;
          masterOffset := 0;
          cacheOffset := 0;
          phase := Retire;
        }
      } else {
        phase := Idle;
      }
    }
  }

  class CacheInstance {
    const config: Config
    const slave: DbSlave
    const way: CacheWay
    const ram: DataRam
    const master: BurstMaster
    /** Lane of the word last read by the CPU. */
    var lane: nat

    ghost function Registers(): Regs
      reads this, slave, way, way.tagRam, way.tagRam.entries, ram, ram.cells, master
    {
      Regs(slave.State(), way.State(), RamState(), master.State())
    }

    ghost function RamState(): Ram
      reads this, ram, ram.cells
    {
      Ram(ram.cells[..], ram.slaveRd, ram.masterRd, lane)
    }

    ghost predicate Valid()
      reads this, slave, way, way.tagRam, way.tagRam.entries, ram, ram.cells, master
    {
      config.Valid() && master.config == config && Shaped(config, Registers())
    }

    constructor (config: Config, request: Request)
      requires config.Valid() && request.adr < config.Size()
      ensures Valid() && this.config == config && Registers() == PowerUp(config, request)
      ensures fresh(slave) && fresh(way) && fresh(way.tagRam) && fresh(way.tagRam.entries)
      ensures fresh(ram) && fresh(ram.cells) && fresh(master)
    {
      this.config := config;
      slave := new DbSlave(request);
      way := new CacheWay(config.lines);
      ram := new DataRam(config.lines * config.lineSize, config.mux);
      master := new BurstMaster(config);
      lane := 0;
      new;
      assert way.tagRam.entries[..] == PowerUp(config, request).way.tags;
      assert ram.cells[..] == PowerUp(config, request).ram.cells;
    }

    /** The combinational signals of a cycle. */
    method Signals(i: In) returns (adr: Adr, hit: bool, miss: bool, dirtyMiss: bool, slaveWe: bool, ports: RamPorts)
      requires Valid() && Fits(config, i)
      ensures adr == Split(config, Current(Registers(), i).adr) && InRange(config, adr)
      ensures hit == Hit(config, Registers(), i) && miss == Miss(config, Registers(), i)
      ensures dirtyMiss == DirtyMiss(config, Registers(), i) && slaveWe == SlaveWrite(config, Registers(), i)
      ensures ports == Ports(config, Registers(), i) && PortsFit(ram.cells[..], ports)
    {
      var q := if slave.pending then slave.saved else i.request;
      adr := Split(config, q.adr);
      var slaveEn := slave.pending || i.en;
      var indexMatch := way.bufferIndex == adr.index;
      var tagMatch := way.tagRam.dataOut.valid && way.tagRam.dataOut.address == adr.tag;
      hit := indexMatch && tagMatch && slaveEn;
      miss := slaveEn && indexMatch && !tagMatch;
      dirtyMiss := miss && way.tagRam.dataOut.dirty;
      slaveWe := slaveEn && q.we != NO_BYTES && hit;
      var masterAdr := if dirtyMiss then Cell(config, way.bufferIndex, master.cacheOffset)
                       else Cell(config, adr.index, master.masterOffset);
      ports := RamPorts(hit && slaveEn, Cell(config, adr.index, adr.word),
                        LaneMasks(config.mux, adr.lane, q.we), LaneData(config.mux, q.data),
                        (i.memAck && master.enable) || (dirtyMiss && master.phase == Idle),
                        i.memAck && !dirtyMiss, masterAdr, i.memData);
      PortsInRange(config, Registers(), i);
    }

    /** One rising edge: every register takes its next value from the values before the edge. */
    method Clock(i: In)
      requires Valid() && Fits(config, i)
      modifies this, slave, way, way.tagRam, way.tagRam.entries, ram, ram.cells, master
      ensures Valid() && Registers() == Step(config, old(Registers()), i)
    {
      StepKeepsShape(config, Registers(), i);
      var adr, hit, miss, dirtyMiss, slaveWe, ports := Signals(i);
      way.Clock((i.memAck && master.phase == Finish) || slaveWe, adr.index, Tag(!dirtyMiss, slaveWe, adr.tag));
      master.Clock(miss && !hit, dirtyMiss, i.memAck);
      slave.Clock(i, hit);
      ClockRam(ports, adr.lane);
    }

    method ClockRam(ports: RamPorts, laneNow: nat)
      requires PortsFit(ram.cells[..], ports)
      modifies this, ram, ram.cells
      ensures RamState() == RamStep(old(RamState()), ports, laneNow)
    {
      ram.Clock(ports);
      if ports.slaveEn {
        lane := laneNow;
      }
    }
  }
}
