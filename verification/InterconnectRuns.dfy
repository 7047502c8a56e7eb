/** Whole runs of the interconnect: where each request goes, and whether its answer comes back. */
module InterconnectRuns {
  import opened Arithmetic
  import opened AddressDecode
  import opened Interconnect
  import opened Sequences

  /** The interconnect, how many requests each slave has taken and not acknowledged yet, and the
      address of a request that the master holds because it was stalled. */
  datatype World = World(r: Regs, owed: seq<nat>, held: seq<nat>)

  function Start(n: nat): World {
    World(Regs(false, seq(n, k => false)), seq(n, k => 0), [])
  }

  predicate Shaped(masks: seq<AdrMask>, w: World, i: In) {
    Fits(masks, w.r, i) && |w.owed| == |masks|
  }

  // ---- what happens in a cycle ----

  /** Slave k takes the request: it is enabled and does not stall, or answers at once. */
  predicate Takes(masks: seq<AdrMask>, w: World, i: In, k: nat)
    requires Shaped(masks, w, i) && k < |masks|
  {
    SlotEnable(masks, w.r, i, k) && (!i.ports[k].stall || (i.ports[k].ack && w.owed[k] == 0))
  }

  /** How a request ends: a slave takes it, or no slave is selected and the master sees an error. */
  datatype Resolution = Taken(slave: nat, adr: nat) | Unmapped(adr: nat)

  function TakenNow(masks: seq<AdrMask>, w: World, i: In): seq<Resolution> {
    Joined((k: nat) => if Shaped(masks, w, i) && k < |masks| && Takes(masks, w, i, k) then [Taken(k, i.adr)] else [],
           |masks|)
  }

  function Resolved(masks: seq<AdrMask>, w: World, i: In): seq<Resolution>
    requires Shaped(masks, w, i)
  {
    if i.en && true !in MuxSel(masks, w.r, i) then [Unmapped(i.adr)] else TakenNow(masks, w, i)
  }

  /** An acknowledge with what comes along with it. */
  datatype Ack = Ack(slave: nat, error: bool, data: nat)

  /** The acknowledges of all slaves in a cycle. */
  function Acks(i: In): seq<Ack> {
    Joined((k: nat) => if k < |i.ports| && i.ports[k].ack then [Ack(k, i.ports[k].error, i.ports[k].data)] else [],
           |i.ports|)
  }

  /** The acknowledge the master sees, from whichever slave. */
  function Seen(masks: seq<AdrMask>, w: World, i: In): seq<(bool, nat)>
    requires Shaped(masks, w, i)
  {
    var reply := MasterReply(masks, w.r, i);
    if reply.ack then [(reply.error, reply.data)] else []
  }

  /** A request that was not held before. */
  function Started(w: World, i: In): seq<nat> {
    if i.en && w.held == [] then [i.adr] else []
  }

  function OwedNext(masks: seq<AdrMask>, w: World, i: In, k: nat): nat
    requires Shaped(masks, w, i) && k < |masks|
  {
    var n := w.owed[k] + if Takes(masks, w, i, k) then 1 else 0;
    if i.ports[k].ack && n > 0 then n - 1 else n
  }

  function WorldStep(masks: seq<AdrMask>, w: World, i: In): World
    requires Shaped(masks, w, i)
  {
    World(Step(masks, w.r, i),
          seq(|masks|, k requires 0 <= k < |masks| => OwedNext(masks, w, i, k)),
          if i.en && Resolved(masks, w, i) == [] then [i.adr] else [])
  }

  // ---- who has to keep to what ----

  /** The master keeps a stalled request on the bus. */
  predicate MasterKeeps(w: World, i: In) {
    w.held != [] ==> i.en && i.adr == w.held[0]
  }

  /** Slaves acknowledge only what they have taken or are being asked for now. */
  predicate SlavesObey(masks: seq<AdrMask>, w: World, i: In)
    requires Shaped(masks, w, i)
  {
    forall k :: 0 <= k < |masks| && i.ports[k].ack ==> w.owed[k] > 0 || SlotEnable(masks, w.r, i, k)
  }

  /** No slave takes a request in a cycle that begins with an unanswered one. */
  predicate NoOverlap(masks: seq<AdrMask>, w: World, i: In)
    requires Shaped(masks, w, i)
  {
    forall k :: 0 <= k < |masks| && Takes(masks, w, i, k) ==> w.owed[k] == 0
  }

  /** While the interconnect waits for nobody, the master addresses every slave that still owes an answer. */
  predicate Attends(masks: seq<AdrMask>, w: World, i: In)
    requires Shaped(masks, w, i)
  {
    !w.r.busy ==> forall k :: 0 <= k < |masks| && w.owed[k] > 0 ==> Decoded(masks, i)[k]
  }

  // ---- invariant ----

  predicate NothingOwed(w: World) {
    forall k :: 0 <= k < |w.owed| ==> w.owed[k] == 0
  }

  /** No slave but k owes answers. */
  predicate OwesOnly(w: World, k: nat) {
    k < |w.owed| && forall j :: 0 <= j < |w.owed| && j != k ==> w.owed[j] == 0
  }

  /** Answers are owed by one slave only; the interconnect waits for that one, or for the one that
      the held request is for. */
  ghost predicate Inv(masks: seq<AdrMask>, w: World) {
    && |w.r.selected| == |w.owed| == |masks|
    && |w.held| <= 1
    && (w.r.busy ==> exists k: nat :: WaitsFor(masks, w, k))
    && (!w.r.busy ==> exists k: nat :: OwesOnly(w, k))
  }

  ghost predicate WaitsFor(masks: seq<AdrMask>, w: World, k: nat) {
    && k < |masks| && Only(w.r.selected, k) && OwesOnly(w, k)
    && (w.owed[k] > 0 || (w.held != [] && IsTarget(masks, w.held[0], k)))
  }

  /** Slave k and no other decodes the address. */
  ghost predicate IsTarget(masks: seq<AdrMask>, adr: nat, k: nat) {
    && k < |masks|
    && forall j :: 0 <= j < |masks| ==> masks[j].lower <= masks[j].upper && (Decodes(masks[j], adr) <==> j == k)
  }

  function Times(k: nat, n: nat): seq<nat> {
    seq(n, j => k)
  }

  /** The slaves that owe answers, one entry for each answer. */
  function Owing(w: World): seq<nat> {
    Joined((k: nat) => if k < |w.owed| then Times(k, w.owed[k]) else [], |w.owed|)
  }

  // ---- lists with at most one entry ----

  lemma TakenNone(masks: seq<AdrMask>, w: World, i: In)
    requires Shaped(masks, w, i) && forall k :: 0 <= k < |masks| ==> !Takes(masks, w, i, k)
    ensures TakenNow(masks, w, i) == []
  {
    JoinedNone((k: nat) => if Shaped(masks, w, i) && k < |masks| && Takes(masks, w, i, k) then [Taken(k, i.adr)] else [],
               |masks|);
  }

  lemma TakenOnly(masks: seq<AdrMask>, w: World, i: In, k: nat)
    requires Shaped(masks, w, i) && k < |masks|
    requires forall j :: 0 <= j < |masks| && j != k ==> !Takes(masks, w, i, j)
    ensures TakenNow(masks, w, i) == if Takes(masks, w, i, k) then [Taken(k, i.adr)] else []
  {
    JoinedOnly((j: nat) => if Shaped(masks, w, i) && j < |masks| && Takes(masks, w, i, j) then [Taken(j, i.adr)] else [],
               k, |masks|);
  }

  lemma AcksNone(i: In)
    requires forall k :: 0 <= k < |i.ports| ==> !i.ports[k].ack
    ensures Acks(i) == []
  {
    JoinedNone((k: nat) => if k < |i.ports| && i.ports[k].ack then [Ack(k, i.ports[k].error, i.ports[k].data)] else [],
               |i.ports|);
  }

  lemma AcksOnly(i: In, k: nat)
    requires k < |i.ports| && forall j :: 0 <= j < |i.ports| && j != k ==> !i.ports[j].ack
    ensures Acks(i) == if i.ports[k].ack then [Ack(k, i.ports[k].error, i.ports[k].data)] else []
  {
    JoinedOnly((j: nat) => if j < |i.ports| && i.ports[j].ack then [Ack(j, i.ports[j].error, i.ports[j].data)] else [],
               k, |i.ports|);
  }

  lemma OwingIs(w: World, k: nat)
    requires OwesOnly(w, k)
    ensures Owing(w) == Times(k, w.owed[k])
  {
    JoinedOnly((j: nat) => if j < |w.owed| then Times(j, w.owed[j]) else [], k, |w.owed|);
  }

  // ---- one cycle ----

  /** Master and slaves keep to the bus protocol. */
  ghost predicate Lawful(masks: seq<AdrMask>, xlen: nat, w: World, i: In) {
    && Configured(masks, xlen) && i.adr < Pow2(xlen) && Shaped(masks, w, i)
    && MasterKeeps(w, i) && SlavesObey(masks, w, i)
  }

  /** And the master attends to the slave that owes. */
  ghost predicate Fair(masks: seq<AdrMask>, xlen: nat, w: World, i: In) {
    Lawful(masks, xlen, w, i) && Attends(masks, w, i)
  }

  function TakenSlaves(rs: seq<Resolution>): seq<nat> {
    if rs == [] then []
    else TakenSlaves(rs[..|rs| - 1]) + if rs[|rs| - 1].Taken? then [rs[|rs| - 1].slave] else []
  }

  function Addresses(rs: seq<Resolution>): seq<nat> {
    seq(|rs|, k requires 0 <= k < |rs| => rs[k].adr)
  }

  function Slaves(acks: seq<Ack>): seq<nat> {
    seq(|acks|, k requires 0 <= k < |acks| => acks[k].slave)
  }

  function Contents(acks: seq<Ack>): seq<(bool, nat)> {
    seq(|acks|, k requires 0 <= k < |acks| => (acks[k].error, acks[k].data))
  }

  /** Each resolution is the right one for its address. */
  ghost predicate RightTarget(masks: seq<AdrMask>, q: Resolution) {
    match q
    case Taken(k, adr) => IsTarget(masks, adr, k)
    case Unmapped(adr) => forall j :: 0 <= j < |masks| ==> masks[j].lower <= masks[j].upper && !Decodes(masks[j], adr)
  }

  /** Everything the run-level theorem needs to know about a cycle. */
  ghost predicate CycleOk(masks: seq<AdrMask>, w: World, i: In)
    requires Shaped(masks, w, i)
  {
    var w' := WorldStep(masks, w, i);
    && Inv(masks, w')
    && Addresses(Resolved(masks, w, i)) + w'.held == w.held + Started(w, i)
    && Slaves(Acks(i)) + Owing(w') == Owing(w) + TakenSlaves(Resolved(masks, w, i))
    && Seen(masks, w, i) == Contents(Acks(i))
    && forall k :: 0 <= k < |Resolved(masks, w, i)| ==> RightTarget(masks, Resolved(masks, w, i)[k])
  }

  /** Only slave k is enabled or acknowledges. */
  predicate OthersQuiet(masks: seq<AdrMask>, w: World, i: In, k: nat)
    requires Shaped(masks, w, i)
  {
    forall j :: 0 <= j < |masks| && j != k ==> !SlotEnable(masks, w.r, i, j) && !i.ports[j].ack
  }

  lemma OnlySelectedActs(masks: seq<AdrMask>, xlen: nat, w: World, i: In, k: nat)
    requires Fair(masks, xlen, w, i) && Inv(masks, w) && Only(MuxSel(masks, w.r, i), k)
    requires w.r.busy ==> WaitsFor(masks, w, k)
    ensures k < |masks| && OthersQuiet(masks, w, i, k) && OwesOnly(w, k)
  {
    Routed(masks, xlen, w.r, i);
    if !w.r.busy {
      var j: nat :| OwesOnly(w, j);
      assert w.owed[j] > 0 ==> Decoded(masks, i)[j];
    }
  }

  lemma SelectedSeen(masks: seq<AdrMask>, w: World, i: In, k: nat)
    requires Shaped(masks, w, i) && k < |masks| && Only(MuxSel(masks, w.r, i), k) && OthersQuiet(masks, w, i, k)
    ensures Seen(masks, w, i) == Contents(Acks(i)) && Slaves(Acks(i)) == Once(k, i.ports[k].ack)
  {
    GatherOnly(MuxSel(masks, w.r, i), i.ports, SelectionStall(masks, w.r, i), k, |masks|);
    AcksOnly(i, k);
  }

  lemma SelectedTakes(masks: seq<AdrMask>, w: World, i: In, k: nat)
    requires Shaped(masks, w, i) && k < |masks| && Only(MuxSel(masks, w.r, i), k) && OthersQuiet(masks, w, i, k)
    ensures Resolved(masks, w, i) == if Takes(masks, w, i, k) then [Taken(k, i.adr)] else []
  {
    assert MuxSel(masks, w.r, i)[k];
    TakenOnly(masks, w, i, k);
  }

  /** A cycle that selects slave k: the master sees this slave, and the others do nothing. */
  lemma SelectedCycle(masks: seq<AdrMask>, xlen: nat, w: World, i: In, k: nat)
    requires Fair(masks, xlen, w, i) && Inv(masks, w) && Only(MuxSel(masks, w.r, i), k)
    requires w.r.busy ==> WaitsFor(masks, w, k)
    ensures k < |masks| && OthersQuiet(masks, w, i, k) && OwesOnly(w, k)
    ensures Seen(masks, w, i) == Contents(Acks(i))
    ensures Slaves(Acks(i)) == Once(k, i.ports[k].ack)
    ensures Resolved(masks, w, i) == if Takes(masks, w, i, k) then [Taken(k, i.adr)] else []
  {
    OnlySelectedActs(masks, xlen, w, i, k);
    SelectedSeen(masks, w, i, k);
    SelectedTakes(masks, w, i, k);
  }

  /** An enabled slave is the only one that decodes the address. */
  lemma EnabledIsTarget(masks: seq<AdrMask>, xlen: nat, w: World, i: In, k: nat)
    requires Lawful(masks, xlen, w, i) && k < |masks| && SlotEnable(masks, w.r, i, k)
    ensures IsTarget(masks, i.adr, k)
  {
    DecodedOnce(masks, xlen, i);
    var d := Decoded(masks, i);
    assert d[k];
    forall j | 0 <= j < |masks|
      ensures Decodes(masks[j], i.adr) <==> j == k
    {
      assert d[j] == Decodes(masks[j], i.adr);
    }
  }

  lemma TakenSlavesOne(q: Resolution)
    ensures TakenSlaves([q]) == if q.Taken? then [q.slave] else []
  {
    assert [q][..0] == [];
  }

  /** Nothing is selected: nobody is enabled, owes or acknowledges. */
  lemma UnselectedQuiet(masks: seq<AdrMask>, xlen: nat, w: World, i: In)
    requires Fair(masks, xlen, w, i) && Inv(masks, w) && !w.r.busy && true !in MuxSel(masks, w.r, i)
    ensures forall j :: 0 <= j < |masks| ==> !Decoded(masks, i)[j] && w.owed[j] == 0 && !i.ports[j].ack
    ensures Acks(i) == [] && TakenNow(masks, w, i) == [] && Owing(w) == [] && Owing(WorldStep(masks, w, i)) == []
  {
    forall j | 0 <= j < |masks|
      ensures !Decoded(masks, i)[j] && w.owed[j] == 0
    {
      assert Decoded(masks, i)[j] in Decoded(masks, i);
    }
    AcksNone(i);
    TakenNone(masks, w, i);
    assert OwesOnly(w, 0) && OwesOnly(WorldStep(masks, w, i), 0);
    OwingIs(w, 0);
    OwingIs(WorldStep(masks, w, i), 0);
  }

  /** The master sees at most an error for an unmapped address. */
  lemma UnselectedCycle(masks: seq<AdrMask>, xlen: nat, w: World, i: In)
    requires Fair(masks, xlen, w, i) && Inv(masks, w) && !w.r.busy && true !in MuxSel(masks, w.r, i)
    ensures CycleOk(masks, w, i)
  {
    Routed(masks, xlen, w.r, i);
    UnselectedQuiet(masks, xlen, w, i);
    assert OwesOnly(WorldStep(masks, w, i), 0);
    TakenSlavesOne(Unmapped(i.adr));
    forall j | 0 <= j < |masks| && i.en
      ensures !Decodes(masks[j], i.adr)
    {
      assert Decoded(masks, i)[j] == Decodes(masks[j], i.adr);
    }
  }

  /** A held request keeps asking the slave it waits for. */
  lemma HeldIsEnabled(masks: seq<AdrMask>, xlen: nat, w: World, i: In, k: nat)
    requires Fair(masks, xlen, w, i) && Only(w.r.selected, k) && w.held != [] && IsTarget(masks, w.held[0], k)
    requires |w.r.selected| == |masks|
    ensures SlotEnable(masks, w.r, i, k)
  {
    assert forall j :: 0 <= j < |masks| ==> Decoded(masks, i)[j] == w.r.selected[j];
    assert Decoded(masks, i) == w.r.selected;
  }

  /** A busy interconnect that stalls the master for its choice of slave waits for an answer owed. */
  lemma StalledChoiceOwes(masks: seq<AdrMask>, xlen: nat, w: World, i: In, k: nat)
    requires Fair(masks, xlen, w, i) && w.r.busy && WaitsFor(masks, w, k)
    ensures SelectionStall(masks, w.r, i) ==> w.owed[k] > 0
  {
    if w.owed[k] == 0 {
      HeldIsEnabled(masks, xlen, w, i, k);
    }
  }

  /** The master can tell from what it sees whether its request is through: it is not exactly if the master is
      stalled, but for an acknowledge at once when nothing was owed. */
  lemma StallTells(masks: seq<AdrMask>, xlen: nat, w: World, i: In)
    requires Fair(masks, xlen, w, i) && Inv(masks, w) && i.en
    ensures var reply := MasterReply(masks, w.r, i);
            Resolved(masks, w, i) == [] <==> reply.stall && !(reply.ack && NothingOwed(w))
  {
    Routed(masks, xlen, w.r, i);
    var sel := MuxSel(masks, w.r, i);
    if w.r.busy {
      var j: nat :| WaitsFor(masks, w, j);
      assert sel[j];
      StalledChoiceOwes(masks, xlen, w, i, j);
    }
    if true in sel {
      var k: nat :| Only(sel, k);
      assert sel[k];
      SelectedCycle(masks, xlen, w, i, k);
    }
  }

  function Num(b: bool): nat {
    if b then 1 else 0
  }

  /** The answers slave k owes after a cycle in which only it takes part. */
  lemma OwedAfter(masks: seq<AdrMask>, w: World, i: In, k: nat)
    requires Shaped(masks, w, i) && k < |masks| && OthersQuiet(masks, w, i, k)
    requires SlavesObey(masks, w, i) && OwesOnly(w, k)
    ensures OwesOnly(WorldStep(masks, w, i), k)
    ensures WorldStep(masks, w, i).owed[k] + Num(i.ports[k].ack) == w.owed[k] + Num(Takes(masks, w, i, k))
  {
    var w' := WorldStep(masks, w, i);
    assert w'.owed[k] == OwedNext(masks, w, i, k);
    forall j | 0 <= j < |masks| && j != k
      ensures w'.owed[j] == w.owed[j]
    {
      assert !Takes(masks, w, i, j);
    }
  }

  function Once(k: nat, b: bool): seq<nat> {
    if b then [k] else []
  }

  lemma TimesOnce(k: nat, b: bool)
    ensures Times(k, Num(b)) == Once(k, b)
  {
  }

  lemma TimesAdd(k: nat, m: nat, n: nat)
    ensures Times(k, m) + Times(k, n) == Times(k, m + n)
  {
  }

  lemma AnswersBalance(masks: seq<AdrMask>, w: World, i: In, k: nat)
    requires Shaped(masks, w, i) && k < |masks| && OthersQuiet(masks, w, i, k)
    requires SlavesObey(masks, w, i) && OwesOnly(w, k)
    ensures Once(k, i.ports[k].ack) + Owing(WorldStep(masks, w, i)) == Owing(w) + Once(k, Takes(masks, w, i, k))
  {
    OwedAfter(masks, w, i, k);
    OwingIs(w, k);
    OwingIs(WorldStep(masks, w, i), k);
    TimesAdd(k, Num(i.ports[k].ack), WorldStep(masks, w, i).owed[k]);
    TimesAdd(k, w.owed[k], Num(Takes(masks, w, i, k)));
    TimesOnce(k, i.ports[k].ack);
    TimesOnce(k, Takes(masks, w, i, k));
  }

  /** What the interconnect waits for after such a cycle is owed or still on the bus. */
  lemma SelectedWaits(masks: seq<AdrMask>, xlen: nat, w: World, i: In, k: nat)
    requires Fair(masks, xlen, w, i) && Only(MuxSel(masks, w.r, i), k) && OthersQuiet(masks, w, i, k)
    requires k < |masks| && |w.r.selected| == |masks| && OwesOnly(w, k)
    requires w.r.busy ==> WaitsFor(masks, w, k)
    requires Resolved(masks, w, i) == if Takes(masks, w, i, k) then [Taken(k, i.adr)] else []
    requires !i.ports[k].ack
    ensures WaitsFor(masks, WorldStep(masks, w, i), k)
  {
    OwedAfter(masks, w, i, k);
    GatherOnly(MuxSel(masks, w.r, i), i.ports, SelectionStall(masks, w.r, i), k, |masks|);
    assert MuxSel(masks, w.r, i)[k];
    if w.owed[k] == 0 {
      if w.r.busy {
        HeldIsEnabled(masks, xlen, w, i, k);
      }
      EnabledIsTarget(masks, xlen, w, i, k);
    }
  }

  /** After a cycle that selected slave k the interconnect waits for it, or for nobody. */
  lemma SelectedInv(masks: seq<AdrMask>, xlen: nat, w: World, i: In, k: nat)
    requires Fair(masks, xlen, w, i) && Inv(masks, w) && Only(MuxSel(masks, w.r, i), k)
    requires w.r.busy ==> WaitsFor(masks, w, k)
    ensures Inv(masks, WorldStep(masks, w, i))
  {
    SelectedCycle(masks, xlen, w, i, k);
    OwedAfter(masks, w, i, k);
    GatherOnly(MuxSel(masks, w.r, i), i.ports, SelectionStall(masks, w.r, i), k, |masks|);
    if !i.ports[k].ack {
      SelectedWaits(masks, xlen, w, i, k);
      assert MuxSel(masks, w.r, i)[k];
    }
  }

  /** What a selecting cycle resolves: nothing, or the request on the bus at its target. */
  lemma SelectedResolves(masks: seq<AdrMask>, xlen: nat, w: World, i: In, k: nat)
    requires Fair(masks, xlen, w, i) && k < |masks|
    requires Resolved(masks, w, i) == if Takes(masks, w, i, k) then [Taken(k, i.adr)] else []
    ensures TakenSlaves(Resolved(masks, w, i)) == Once(k, Takes(masks, w, i, k))
    ensures Addresses(Resolved(masks, w, i)) + WorldStep(masks, w, i).held == if i.en then [i.adr] else []
    ensures forall n :: 0 <= n < |Resolved(masks, w, i)| ==> RightTarget(masks, Resolved(masks, w, i)[n])
  {
    TakenSlavesOne(Taken(k, i.adr));
    if Takes(masks, w, i, k) {
      EnabledIsTarget(masks, xlen, w, i, k);
    }
  }

  lemma StartedIs(w: World, i: In)
    requires MasterKeeps(w, i) && |w.held| <= 1
    ensures w.held + Started(w, i) == if i.en then [i.adr] else []
  {
  }

  /** A cycle that selects slave k balances. */
  lemma SelectedBalances(masks: seq<AdrMask>, xlen: nat, w: World, i: In, k: nat)
    requires Fair(masks, xlen, w, i) && Inv(masks, w) && Only(MuxSel(masks, w.r, i), k)
    requires w.r.busy ==> WaitsFor(masks, w, k)
    ensures CycleOk(masks, w, i)
  {
    SelectedInv(masks, xlen, w, i, k);
    SelectedCycle(masks, xlen, w, i, k);
    AnswersBalance(masks, w, i, k);
    SelectedResolves(masks, xlen, w, i, k);
    StartedIs(w, i);
  }

  /** In every cycle the request, answer and waiting lists balance, and the master sees exactly the
      slaves' acknowledges. */
  lemma CycleBalances(masks: seq<AdrMask>, xlen: nat, w: World, i: In)
    requires Fair(masks, xlen, w, i) && Inv(masks, w)
    ensures CycleOk(masks, w, i)
  {
    if w.r.busy {
      var k: nat :| WaitsFor(masks, w, k);
      SelectedBalances(masks, xlen, w, i, k);
    } else {
      DecodedOnce(masks, xlen, i);
      if true in Decoded(masks, i) {
        var k: nat :| Only(Decoded(masks, i), k);
        SelectedBalances(masks, xlen, w, i, k);
      } else {
        UnselectedCycle(masks, xlen, w, i);
      }
    }
  }
}
