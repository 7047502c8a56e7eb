/** The fetch unit (rtl/fetch.py) on an instruction bus that acknowledges one cycle after enable. */
module Fetch {
  import opened Isa

  /** A fetched word with its address. */
  datatype Slot = Slot(word: nat, ip: Word)

  /** The slot shown to the decoder, and the one behind it. */
  datatype Slots = Slots(valid: bool, slot0: Slot, busy: bool, slot1: Slot)

  datatype Regs = Regs(
    ip: Word, lastIp: Word, jumpTaken: bool, run: bool, outstanding: bool, q: Slots)

  /** The bus: an acknowledge is due in this cycle, for the address sampled one cycle ago. */
  datatype Bus = Bus(ack: bool, adr: Word)

  datatype In = In(stall: bool, jump: bool, dest: Word)

  predicate NewJump(f: Regs, i: In) {
    i.jump && !f.jumpTaken
  }

  /** Bus enable. */
  predicate Enable(f: Regs, i: In) {
    !f.q.busy && f.run && !i.stall && !NewJump(f, i)
  }

  /** A pending new jump is taken over once no bus cycle is in the way. */
  predicate Redirects(f: Regs, b: Bus, i: In) {
    f.run && (!f.outstanding || b.ack) && NewJump(f, i)
  }

  function BusStep(f: Regs, i: In): Bus {
    Bus(Enable(f, i), f.ip)
  }

  function Outstanding(f: Regs, b: Bus, i: In): bool {
    if Enable(f, i) && !b.ack then true
    else if !Enable(f, i) && b.ack then false
    else f.outstanding
  }

  /** The slots: a stalled word waits in the second slot, otherwise words move to the first. */
  function SlotsStep(q: Slots, b: Bus, stall: bool, newJump: bool, received: Slot): Slots {
    if stall then
      if b.ack then q.(slot1 := received, busy := true) else q
    else if q.busy then q.(slot0 := q.slot1, valid := true, busy := false)
    else if b.ack && !newJump then q.(slot0 := received, valid := true)
    else q.(valid := false)
  }

  /** An edge while the fetch unit runs; `outstanding` is taken as before the edge. */
  function Running(f: Regs, b: Bus, i: In, outstanding: bool, data: nat): Regs {
    var taken := f.jumpTaken && !(f.q.valid || (i.stall && !i.jump));
    if (!outstanding || b.ack) && NewJump(f, i) then
      f.(ip := i.dest, jumpTaken := true, q := f.q.(valid := false, busy := false))
    else
      var held := f.q.busy || i.stall;
      f.(ip := if held then f.ip else Next(f.ip), lastIp := if held then f.lastIp else f.ip, jumpTaken := taken,
         q := SlotsStep(f.q, b, i.stall, NewJump(f, i), Slot(data, f.lastIp)))
  }

  function Step(f: Regs, b: Bus, i: In, data: nat): Regs {
    var n := f.(outstanding := Outstanding(f, b, i));
    if !f.run then n.(run := true) else Running(n, b, i, f.outstanding, data)
  }

  function Reset(pc: Word): Regs {
    Regs(pc, 0, false, false, false, Slots(false, Slot(0, 0), false, Slot(0, 0)))
  }

  class FetchUnit {
    var ip: Word
    var busy: bool
    var valid: bool
    var jumpTaken: bool
    var run: bool
    var outstanding: bool
    var currentWord0: nat
    var currentWord1: nat
    var currentIp0: Word
    var currentIp1: Word
    var currentIp2: Word

    constructor (pc: Word)
      ensures Registers() == Reset(pc)
    {
      ip, busy, valid, jumpTaken, run, outstanding := pc, false, false, false, false, false;
      currentWord0, currentWord1, currentIp0, currentIp1, currentIp2 := 0, 0, 0, 0, 0;
    }

    function Registers(): Regs
      reads this
    {
      Regs(ip, currentIp2, jumpTaken, run, outstanding, Queued())
    }

    function Queued(): Slots
      reads `currentWord0, `currentWord1, `currentIp0, `currentIp1, `busy, `valid
    {
      Slots(valid, Slot(currentWord0, currentIp0), busy, Slot(currentWord1, currentIp1))
    }

    method Clock(b: Bus, i: In, data: nat)
      modifies this
      ensures Registers() == Step(old(Registers()), b, i, data)
    {
      var newJump := i.jump && !jumpTaken;
      var en := !busy && run && !i.stall && !newJump;
      var wasOutstanding := outstanding;
      if en && !b.ack {
        outstanding := true;
      } else if !en && b.ack {
        outstanding := false;
      }
      if !run {
        run := true;
      } else {
        ClockRunning(b, i, wasOutstanding, newJump, data);
      }
    }

    method ClockRunning(b: Bus, i: In, wasOutstanding: bool, newJump: bool, data: nat)
      requires newJump == (i.jump && !jumpTaken)
      modifies `ip, `currentIp2, `jumpTaken, `currentWord0, `currentWord1, `currentIp0, `currentIp1, `busy, `valid
      ensures Registers() == Running(old(Registers()), b, i, wasOutstanding, data)
    {
      if valid || (i.stall && !i.jump) {
        jumpTaken := false;
      }
      if (!wasOutstanding || b.ack) && newJump {
        ip := i.dest;
        jumpTaken := true;
        valid := false;
        busy := false;
      } else {
        var received := currentIp2;
        if !(busy || i.stall) {
          currentIp2 := ip;
          ip := Next(ip);
        }
        ClockSlots(b, i.stall, newJump, received, data);
      }
    }

    method ClockSlots(b: Bus, stall: bool, newJump: bool, received: Word, data: nat)
      modifies `currentWord0, `currentWord1, `currentIp0, `currentIp1, `busy, `valid
      ensures Queued() == SlotsStep(old(Queued()), b, stall, newJump, Slot(data, received))
    {
      if stall {
        if b.ack {
          currentWord1 := data;
          currentIp1 := received;
          busy := true;
        }
      } else if busy {
        currentWord0 := currentWord1;
        currentIp0 := currentIp1;
        valid := true;
        busy := false;
      } else if b.ack && !newJump {
        currentWord0 := data;
        currentIp0 := received;
        valid := true;
      } else {
        valid := false;
      }
    }
  }

  // ---- each word once, in order ----

  /** The fetch unit with its bus and the instruction memory behind it. */
  datatype World = World(f: Regs, b: Bus)

  function WorldStep(text: Word -> nat, w: World, i: In): World {
    World(Step(w.f, w.b, i, text(w.b.adr)), BusStep(w.f, i))
  }

  /** The addresses fetched but not delivered continue from `from` up to the fetch pointer, oldest
      in the first slot, and the slots hold the memory's words. */
  predicate Ok(text: Word -> nat, w: World, from: Word) {
    var second := if w.f.q.valid then Next(from) else from;
    var third := if w.f.q.busy then Next(second) else second;
    && w.f.outstanding == w.b.ack
    && (!w.f.run ==> !w.f.q.valid && !w.f.q.busy && !w.b.ack && !w.f.jumpTaken)
    && (w.f.q.valid ==> w.f.q.slot0 == Slot(text(from), from))
    && (w.f.q.busy ==> w.f.q.slot1 == Slot(text(second), second) && !w.b.ack)
    && (w.b.ack ==> w.b.adr == w.f.lastIp == third)
    && w.f.ip == (if w.b.ack then Next(third) else third)
  }

  /** The decoder takes the first slot in this cycle. */
  predicate Delivers(w: World, i: In) {
    w.f.q.valid && !i.stall
  }

  predicate Accepts(w: World, i: In) {
    Redirects(w.f, w.b, i)
  }

  lemma ResetOk(text: Word -> nat, pc: Word)
    ensures Ok(text, World(Reset(pc), Bus(false, 0)), pc)
  {
  }

  /** One cycle: what is delivered is the next address with the word stored there, an accepted
      redirect makes its destination the next address, and nothing else changes it. */
  lemma DeliversInOrder(text: Word -> nat, w: World, i: In, from: Word)
    requires Ok(text, w, from)
    ensures Delivers(w, i) ==> w.f.q.slot0 == Slot(text(from), from)
    ensures Accepts(w, i) <==> w.f.run && NewJump(w.f, i)
    ensures Accepts(w, i) ==> Ok(text, WorldStep(text, w, i), i.dest)
    ensures !Accepts(w, i) ==>
              Ok(text, WorldStep(text, w, i), if Delivers(w, i) then (from + 4) % 0x1_0000_0000 else from)
  {
  }

  function RunWorld(text: Word -> nat, w: World, ins: seq<In>): World
    decreases |ins|
  {
    if ins == [] then w else RunWorld(text, WorldStep(text, w, ins[0]), ins[1..])
  }

  /** No redirect is accepted during the run. */
  predicate Straight(text: Word -> nat, w: World, ins: seq<In>)
    decreases |ins|
  {
    ins == [] || (!Accepts(w, ins[0]) && Straight(text, WorldStep(text, w, ins[0]), ins[1..]))
  }

  /** What the decoder takes during the run. */
  function Deliveries(text: Word -> nat, w: World, ins: seq<In>): seq<Slot>
    decreases |ins|
  {
    if ins == [] then []
    else (if Delivers(w, ins[0]) then [w.f.q.slot0] else []) + Deliveries(text, WorldStep(text, w, ins[0]), ins[1..])
  }

  /** The words stored at n consecutive addresses, four bytes apart and wrapping at 2^32. */
  function Stored(text: Word -> nat, from: Word, n: nat): (s: seq<Slot>)
    ensures |s| == n
  {
    seq(n, k requires k >= 0 => Slot(text((from + 4 * k) % 0x1_0000_0000), (from + 4 * k) % 0x1_0000_0000))
  }

  lemma WrapsOnce(x: nat, y: nat)
    ensures (x % 0x1_0000_0000 + y) % 0x1_0000_0000 == (x + y) % 0x1_0000_0000
  {
  }

  lemma StoredNext(text: Word -> nat, from: Word, n: nat)
    requires n > 0
    ensures Stored(text, from, n) == [Slot(text(from), from)] + Stored(text, Next(from), n - 1)
  {
    var all, rest := Stored(text, from, n), [Slot(text(from), from)] + Stored(text, Next(from), n - 1);
    forall k | 0 <= k < n
      ensures all[k] == rest[k]
    {
      if k > 0 {
        WrapsOnce(from + 4, 4 * (k - 1));
      }
    }
  }

  /** Under any stall pattern, and until a redirect is accepted, the decoder gets exactly the stored
      words at consecutive addresses: none lost, repeated or reordered. */
  lemma {:induction false} DeliversStored(text: Word -> nat, w: World, ins: seq<In>, from: Word)
    requires Ok(text, w, from) && Straight(text, w, ins)
    ensures Deliveries(text, w, ins) == Stored(text, from, |Deliveries(text, w, ins)|)
    decreases |ins|
  {
    if ins == [] {
    } else {
      DeliversInOrder(text, w, ins[0], from);
      DeliversStored(text, WorldStep(text, w, ins[0]), ins[1..], if Delivers(w, ins[0]) then Next(from) else from);
      if Delivers(w, ins[0]) {
        StoredNext(text, from, |Deliveries(text, w, ins)|);
      }
    }
  }

  /** In every state of every run the queue is in order for some address. */
  lemma {:induction false} RunOk(text: Word -> nat, w: World, ins: seq<In>, from: Word) returns (to: Word)
    requires Ok(text, w, from)
    ensures Ok(text, RunWorld(text, w, ins), to)
    decreases |ins|
  {
    if ins == [] {
      to := from;
    } else {
      DeliversInOrder(text, w, ins[0], from);
      var next := if Accepts(w, ins[0]) then ins[0].dest else if Delivers(w, ins[0]) then Next(from) else from;
      to := RunOk(text, WorldStep(text, w, ins[0]), ins[1..], next);
    }
  }

  /** After whatever run from reset, an accepted redirect is followed by the words stored from its
      destination on, until another redirect is accepted. */
  lemma RedirectDelivers(text: Word -> nat, pc: Word, before: seq<In>, jump: In, later: seq<In>)
    requires var w := RunWorld(text, World(Reset(pc), Bus(false, 0)), before);
             Accepts(w, jump) && Straight(text, WorldStep(text, w, jump), later)
    ensures var w := WorldStep(text, RunWorld(text, World(Reset(pc), Bus(false, 0)), before), jump);
            Deliveries(text, w, later) == Stored(text, jump.dest, |Deliveries(text, w, later)|)
  {
    ResetOk(text, pc);
    var start := World(Reset(pc), Bus(false, 0));
    var from := RunOk(text, start, before, pc);
    var w := RunWorld(text, start, before);
    DeliversInOrder(text, w, jump, from);
    DeliversStored(text, WorldStep(text, w, jump), later, jump.dest);
  }

  /** Without stall and redirect a word is delivered at the latest in the fourth cycle. */
  function Latency(w: World): nat {
    if w.f.q.valid then 0 else if w.f.q.busy || w.b.ack then 1 else if w.f.run then 2 else 3
  }

  lemma LatencyFalls(text: Word -> nat, w: World, i: In, from: Word)
    requires Ok(text, w, from) && !w.f.q.valid && !i.stall && !NewJump(w.f, i)
    ensures Latency(WorldStep(text, w, i)) == Latency(w) - 1
  {
  }
}
