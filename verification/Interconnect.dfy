/** Selection and response routing of the data bus interconnect
    (rtl/uncore/dbus_interconnect.py, MasterNSlaveSignals).
 */
module Interconnect {
  import opened Arithmetic
  import opened AddressDecode

  /** What the multiplexer sees of one slot in a cycle. */
  datatype Port = Port(ack: bool, error: bool, stall: bool, data: nat)

  datatype In = In(en: bool, adr: nat, ports: seq<Port>)

  /** What the master sees. */
  datatype Reply = Reply(ack: bool, error: bool, stall: bool, data: nat)

  datatype Regs = Regs(busy: bool, selected: seq<bool>)

  /** A configuration that passed validation, with at least one slave. */
  ghost predicate Configured(masks: seq<AdrMask>, xlen: nat) {
    && |masks| > 0
    && (forall k :: 0 <= k < |masks| ==> Valid(masks[k], xlen))
    && (forall k, j :: 0 <= k < j < |masks| ==> !Overlap(masks[k], masks[j], xlen))
  }

  predicate Fits(masks: seq<AdrMask>, r: Regs, i: In) {
    |i.ports| == |masks| == |r.selected| && forall k :: 0 <= k < |masks| ==> masks[k].lower <= masks[k].upper
  }

  // ---- combinational signals ----

  function Decoded(masks: seq<AdrMask>, i: In): (s: seq<bool>)
    requires forall k :: 0 <= k < |masks| ==> masks[k].lower <= masks[k].upper
    ensures |s| == |masks|
  {
    seq(|masks|, k requires 0 <= k < |masks| => Decodes(masks[k], i.adr) && i.en)
  }

  function MuxSel(masks: seq<AdrMask>, r: Regs, i: In): (s: seq<bool>)
    requires Fits(masks, r, i)
    ensures |s| == |masks|
  {
    if r.busy then r.selected else Decoded(masks, i)
  }

  predicate SelectionStall(masks: seq<AdrMask>, r: Regs, i: In)
    requires Fits(masks, r, i)
  {
    r.busy && i.en && Decoded(masks, i) != r.selected
  }

  /** Enable of slot k. */
  predicate SlotEnable(masks: seq<AdrMask>, r: Regs, i: In, k: nat)
    requires Fits(masks, r, i) && k < |masks|
  {
    Decoded(masks, i)[k] && !SelectionStall(masks, r, i)
  }

  /** The reply assembled from the first n ports; a later selected port overrides an earlier one. */
  function Gather(sel: seq<bool>, ports: seq<Port>, stall: bool, n: nat): (bool, Reply)
    requires n <= |sel| == |ports|
  {
    if n == 0 then (false, Reply(false, false, stall, 0))
    else
      var (any, rest) := Gather(sel, ports, stall, n - 1);
      var p := ports[n - 1];
      if sel[n - 1] then (true, Reply(p.ack, p.error, rest.stall || p.stall, p.data)) else (any, rest)
  }

  function MasterReply(masks: seq<AdrMask>, r: Regs, i: In): Reply
    requires Fits(masks, r, i)
  {
    var (any, reply) := Gather(MuxSel(masks, r, i), i.ports, SelectionStall(masks, r, i), |masks|);
    if any then reply else reply.(error := i.en)
  }

  function Step(masks: seq<AdrMask>, r: Regs, i: In): Regs
    requires Fits(masks, r, i)
  {
    var ack := MasterReply(masks, r, i).ack;
    if r.busy then r.(busy := !ack)
    else Regs(true in Decoded(masks, i) && !ack, Decoded(masks, i))
  }

  class MasterNSlaves {
    const masks: seq<AdrMask>
    var busy: bool
    var selected: seq<bool>

    constructor (masks: seq<AdrMask>)
      ensures this.masks == masks && !busy && |selected| == |masks|
    {
      this.masks := masks;
      busy, selected := false, seq(|masks|, k => false);
    }

    function Registers(): Regs
      reads this
    {
      Regs(busy, selected)
    }

    /** The loop over the slots that builds the master's inputs. */
    method MasterInputs(i: In) returns (reply: Reply)
      requires Fits(masks, Registers(), i)
      ensures reply == MasterReply(masks, Registers(), i)
    {
      var sel := if busy then selected else Decoded(masks, i);
      var stall := busy && i.en && Decoded(masks, i) != selected;
      var ack, error, any, data := false, false, false, 0;
      ghost var stalled := stall;
      for k := 0 to |masks|
        invariant Gather(sel, i.ports, stalled, k) == (any, Reply(ack, error, stall, data))
      {
        if sel[k] {
          any := true;
          stall := stall || i.ports[k].stall;
          ack := i.ports[k].ack;
          error := i.ports[k].error;
          data := i.ports[k].data;
        }
      }
      if !any {
        error := i.en;
      }
      reply := Reply(ack, error, stall, data);
    }

    method Clock(i: In)
      requires Fits(masks, Registers(), i)
      modifies this
      ensures Registers() == Step(masks, old(Registers()), i)
    {
      var reply := MasterInputs(i);
      if busy {
        if reply.ack {
          busy := false;
        }
      } else {
        selected := Decoded(masks, i);
        var any := false;
        for k := 0 to |masks|
          invariant any == (true in selected[..k])
          invariant unchanged(this`busy) && selected == Decoded(masks, i)
        {
          assert selected[..k + 1] == selected[..k] + [selected[k]];
          any := any || selected[k];
        }
        assert selected[..|masks|] == selected;
        busy := any && !reply.ack;
      }
    }
  }

  // ---- one target at a time ----

  /** Exactly slot k is chosen. */
  predicate Only(sel: seq<bool>, k: nat) {
    k < |sel| && forall j :: 0 <= j < |sel| ==> (sel[j] <==> j == k)
  }

  lemma {:induction false} GatherOnly(sel: seq<bool>, ports: seq<Port>, stall: bool, k: nat, n: nat)
    requires n <= |sel| == |ports| && Only(sel, k)
    ensures Gather(sel, ports, stall, n) ==
      if k < n then (true, Reply(ports[k].ack, ports[k].error, stall || ports[k].stall, ports[k].data))
      else (false, Reply(false, false, stall, 0))
  {
    if n == 0 {
    } else {
      GatherOnly(sel, ports, stall, k, n - 1);
    }
  }

  lemma {:induction false} GatherNone(sel: seq<bool>, ports: seq<Port>, stall: bool, n: nat)
    requires n <= |sel| == |ports| && true !in sel
    ensures Gather(sel, ports, stall, n) == (false, Reply(false, false, stall, 0))
  {
    if n == 0 {
    } else {
      GatherNone(sel, ports, stall, n - 1);
    }
  }

  /** With validated masks an address selects one slot or none. */
  lemma DecodedOnce(masks: seq<AdrMask>, xlen: nat, i: In)
    requires Configured(masks, xlen) && i.adr < Pow2(xlen)
    ensures true !in Decoded(masks, i) || exists k: nat :: Only(Decoded(masks, i), k)
  {
    var s := Decoded(masks, i);
    if true in s {
      var k: nat :| k < |s| && s[k];
      forall j | 0 <= j < |s| && s[j]
        ensures j == k
      {
        var a, b := if j < k then j else k, if j < k then k else j;
        if a < b {
          assert Decodes(masks[a], i.adr) && Decodes(masks[b], i.adr);
          OverlapIff(masks[a], masks[b], xlen);
        }
      }
      assert Only(s, k);
    }
  }

  /** While the interconnect waits, the slot it waits for is the only one. */
  ghost predicate Ok(masks: seq<AdrMask>, r: Regs) {
    |r.selected| == |masks| && (r.busy ==> exists k: nat :: Only(r.selected, k))
  }

  lemma StepOk(masks: seq<AdrMask>, xlen: nat, r: Regs, i: In)
    requires Configured(masks, xlen) && i.adr < Pow2(xlen) && Ok(masks, r) && |i.ports| == |masks|
    ensures Ok(masks, Step(masks, r, i))
  {
    DecodedOnce(masks, xlen, i);
  }

  /** What the master sees in any cycle: the one selected slot's answer, or an error for an
      address that selects none; and a slot other than the awaited one is never enabled. */
  lemma Routed(masks: seq<AdrMask>, xlen: nat, r: Regs, i: In)
    requires Configured(masks, xlen) && i.adr < Pow2(xlen) && Ok(masks, r) && |i.ports| == |masks|
    ensures var sel := MuxSel(masks, r, i);
            var reply := MasterReply(masks, r, i);
            && (forall k: nat :: Only(sel, k) ==>
                  reply == Reply(i.ports[k].ack, i.ports[k].error,
                                 SelectionStall(masks, r, i) || i.ports[k].stall, i.ports[k].data))
            && (true !in sel ==> reply == Reply(false, i.en, false, 0))
            && ((exists k: nat :: Only(sel, k)) || true !in sel)
    ensures r.busy ==> forall k :: 0 <= k < |masks| && SlotEnable(masks, r, i, k) ==> r.selected[k]
  {
    DecodedOnce(masks, xlen, i);
    var sel := MuxSel(masks, r, i);
    forall k: nat | Only(sel, k)
      ensures MasterReply(masks, r, i) == Reply(i.ports[k].ack, i.ports[k].error,
                                                SelectionStall(masks, r, i) || i.ports[k].stall, i.ports[k].data)
    {
      GatherOnly(sel, i.ports, SelectionStall(masks, r, i), k, |masks|);
    }
    if r.busy {
      var k: nat :| Only(r.selected, k);
      assert sel[k];
    }
    if true !in sel {
      GatherNone(sel, i.ports, SelectionStall(masks, r, i), |masks|);
    }
  }

  /** Which slave is asked: the one that decodes the address of an enabled cycle, unless another one is waited for;
      then nobody is, and the master is stalled. */
  lemma EnabledIff(masks: seq<AdrMask>, xlen: nat, r: Regs, i: In, k: nat)
    requires Configured(masks, xlen) && i.adr < Pow2(xlen) && Ok(masks, r) && |i.ports| == |masks| && k < |masks|
    ensures SlotEnable(masks, r, i, k) <==> i.en && Decodes(masks[k], i.adr) && (r.busy ==> r.selected[k])
    ensures i.en && r.busy && !(exists j :: 0 <= j < |masks| && Decodes(masks[j], i.adr) && r.selected[j])
         ==> MasterReply(masks, r, i).stall
  {
    var d := Decoded(masks, i);
    DecodedOnce(masks, xlen, i);
    Routed(masks, xlen, r, i);
    if r.busy {
      var j: nat :| Only(r.selected, j);
      assert Only(MuxSel(masks, r, i), j);
      if true in d {
        var n: nat :| Only(d, n);
        assert d[n] && r.selected[j];
        if n == j {
          assert d == r.selected;
        } else {
          assert d[n] != r.selected[n];
        }
      } else {
        assert d[j] in d;
      }
    }
  }

  // ---- waiting ----

  predicate RunFits(masks: seq<AdrMask>, xlen: nat, ins: seq<In>) {
    forall k :: 0 <= k < |ins| ==> |ins[k].ports| == |masks| && ins[k].adr < Pow2(xlen)
  }

  function Run(masks: seq<AdrMask>, xlen: nat, r: Regs, ins: seq<In>): (r': Regs)
    requires RunFits(masks, xlen, ins) && |r.selected| == |masks|
    requires forall k :: 0 <= k < |masks| ==> masks[k].lower <= masks[k].upper
    ensures |r'.selected| == |masks|
    decreases |ins|
  {
    if ins == [] then r else Run(masks, xlen, Step(masks, r, ins[0]), ins[1..])
  }

  /** The interconnect is waiting in every cycle of the run and at its end. */
  ghost predicate Waits(masks: seq<AdrMask>, xlen: nat, r: Regs, ins: seq<In>)
    requires RunFits(masks, xlen, ins) && |r.selected| == |masks|
    requires forall k :: 0 <= k < |masks| ==> masks[k].lower <= masks[k].upper
    decreases |ins|
  {
    r.busy && (ins == [] || Waits(masks, xlen, Step(masks, r, ins[0]), ins[1..]))
  }

  /** The wait for slot k lasts exactly as long as slot k does not acknowledge: error answers do
      not end it, and neither does anything the master or another slave does. */
  lemma {:induction false} WaitsIff(masks: seq<AdrMask>, xlen: nat, r: Regs, k: nat, ins: seq<In>)
    requires Configured(masks, xlen) && RunFits(masks, xlen, ins)
    requires |r.selected| == |masks| && r.busy && Only(r.selected, k)
    ensures Waits(masks, xlen, r, ins) <==> forall n :: 0 <= n < |ins| ==> !ins[n].ports[k].ack
    decreases |ins|
  {
    if ins == [] {
    } else {
      Routed(masks, xlen, r, ins[0]);
      assert Only(MuxSel(masks, r, ins[0]), k);
      var r' := Step(masks, r, ins[0]);
      if r'.busy {
        WaitsIff(masks, xlen, r', k, ins[1..]);
        assert forall n :: 0 <= n < |ins| - 1 ==> ins[1..][n] == ins[n + 1];
        if forall n :: 0 <= n < |ins| - 1 ==> !ins[1..][n].ports[k].ack {
          forall n | 0 <= n < |ins|
            ensures !ins[n].ports[k].ack
          {
            assert n > 0 ==> ins[n] == ins[1..][n - 1];
          }
        }
      }
    }
  }

  lemma {:induction false} StaysLocked(masks: seq<AdrMask>, xlen: nat, r: Regs, k: nat, ins: seq<In>)
    requires Configured(masks, xlen) && RunFits(masks, xlen, ins)
    requires |r.selected| == |masks| && r.busy && Only(r.selected, k)
    requires forall n :: 0 <= n < |ins| ==> !ins[n].ports[k].ack
    ensures Run(masks, xlen, r, ins) == r
    decreases |ins|
  {
    if ins == [] {
    } else {
      Routed(masks, xlen, r, ins[0]);
      assert Only(MuxSel(masks, r, ins[0]), k);
      assert Step(masks, r, ins[0]) == r;
      StaysLocked(masks, xlen, r, k, ins[1..]);
    }
  }

  /** So an error answer without acknowledge leaves the interconnect locked to its slave: in every
      later cycle before an acknowledge of that slave, a request to any other address is stalled
      and reaches no slave. */
  lemma ErrorKeepsOthersOut(masks: seq<AdrMask>, xlen: nat, r: Regs, k: nat, ins: seq<In>, i: In)
    requires Configured(masks, xlen) && RunFits(masks, xlen, ins) && RunFits(masks, xlen, [i])
    requires |r.selected| == |masks| && r.busy && Only(r.selected, k)
    requires forall n :: 0 <= n < |ins| ==> !ins[n].ports[k].ack
    requires i.en && !Decodes(masks[k], i.adr)
    ensures var r' := Run(masks, xlen, r, ins);
            && |i.ports| == |masks|
            && MasterReply(masks, r', i).stall
            && forall j :: 0 <= j < |masks| ==> !SlotEnable(masks, r', i, j)
  {
    StaysLocked(masks, xlen, r, k, ins);
    assert [i][0] == i;
    Routed(masks, xlen, r, i);
    assert Only(MuxSel(masks, r, i), k);
    assert !Decoded(masks, i)[k];
    assert SelectionStall(masks, r, i);
  }
}
