/** Every request reaches one slave and every answer comes back: exactly when, for which masters and
    slaves, and what is lost otherwise. */
module InterconnectAnswers {
  import opened Arithmetic
  import opened AddressDecode
  import opened Interconnect
  import opened InterconnectRuns
  import opened Sequences

  /** A mapping, what master and slaves do in every cycle, and the state in every cycle. */
  datatype Trace = Trace(masks: seq<AdrMask>, xlen: nat, input: nat -> In, world: nat -> World)

  ghost predicate StepsAt(x: Trace, n: nat) {
    Shaped(x.masks, x.world(n), x.input(n)) && x.world(n + 1) == WorldStep(x.masks, x.world(n), x.input(n))
  }

  ghost predicate FairAt(x: Trace, n: nat) {
    StepsAt(x, n) && Fair(x.masks, x.xlen, x.world(n), x.input(n))
  }

  /** The first n cycles after reset. */
  ghost predicate IsRun(x: Trace, n: nat) {
    && Configured(x.masks, x.xlen) && x.world(0) == Start(|x.masks|)
    && forall k :: 0 <= k < n ==> FairAt(x, k)
  }

  /** The same with any master and any slaves. */
  ghost predicate IsAnyRun(x: Trace, n: nat) {
    && Configured(x.masks, x.xlen) && x.world(0) == Start(|x.masks|)
    && forall k :: 0 <= k < n ==> StepsAt(x, k) && x.input(k).adr < Pow2(x.xlen)
  }

  /** Whatever master and slaves do, the interconnect waits for at most one slave at a time. */
  lemma WaitsForOne(x: Trace, n: nat)
    requires IsAnyRun(x, n)
    ensures Ok(x.masks, x.world(n).r)
  {
    var ok := (k: nat) => Ok(x.masks, x.world(k).r);
    forall k | 0 <= k < n && ok(k)
      ensures ok(k + 1)
    {
      assert StepsAt(x, k);
      StepOk(x.masks, x.xlen, x.world(k).r, x.input(k));
    }
    Holds(ok, n);
  }

  // ---- the logs of a run ----

  function StartedIn(x: Trace): nat -> seq<nat> {
    (k: nat) => Started(x.world(k), x.input(k))
  }

  function ResolvedAt(x: Trace, k: nat): seq<Resolution> {
    if Shaped(x.masks, x.world(k), x.input(k)) then Resolved(x.masks, x.world(k), x.input(k)) else []
  }

  function AddressesIn(x: Trace): nat -> seq<nat> {
    (k: nat) => Addresses(ResolvedAt(x, k))
  }

  function TakenSlavesIn(x: Trace): nat -> seq<nat> {
    (k: nat) => TakenSlaves(ResolvedAt(x, k))
  }

  function SlavesIn(x: Trace): nat -> seq<nat> {
    (k: nat) => Slaves(Acks(x.input(k)))
  }

  function ContentsIn(x: Trace): nat -> seq<(bool, nat)> {
    (k: nat) => Contents(Acks(x.input(k)))
  }

  function SeenIn(x: Trace): nat -> seq<(bool, nat)> {
    (k: nat) => if Shaped(x.masks, x.world(k), x.input(k)) then Seen(x.masks, x.world(k), x.input(k)) else []
  }

  function HeldIn(x: Trace): nat -> seq<nat> {
    (k: nat) => x.world(k).held
  }

  function OwingIn(x: Trace): nat -> seq<nat> {
    (k: nat) => Owing(x.world(k))
  }

  // ---- when the master sees every acknowledge ----

  /** Every slave that acknowledges is selected: the one waited for, or the one addressed. */
  predicate Heard(masks: seq<AdrMask>, r: Regs, i: In)
    requires Fits(masks, r, i)
  {
    forall j :: 0 <= j < |masks| && i.ports[j].ack ==> MuxSel(masks, r, i)[j]
  }

  function HeardIn(x: Trace): nat -> bool {
    (k: nat) => Shaped(x.masks, x.world(k), x.input(k)) && Heard(x.masks, x.world(k).r, x.input(k))
  }

  lemma HeardSeen(masks: seq<AdrMask>, xlen: nat, w: World, i: In)
    requires Configured(masks, xlen) && i.adr < Pow2(xlen) && Shaped(masks, w, i) && Ok(masks, w.r)
    requires Heard(masks, w.r, i)
    ensures Seen(masks, w, i) == Contents(Acks(i))
  {
    Routed(masks, xlen, w.r, i);
    if true in MuxSel(masks, w.r, i) {
      var k: nat :| Only(MuxSel(masks, w.r, i), k);
      AcksOnly(i, k);
    } else {
      forall j | 0 <= j < |masks|
        ensures !i.ports[j].ack
      {
        assert MuxSel(masks, w.r, i)[j] in MuxSel(masks, w.r, i);
      }
      AcksNone(i);
    }
  }

  /** How many slaves acknowledge, at least. */
  lemma AcksAtLeast(i: In, j: nat, k: nat)
    requires j < |i.ports| && k < |i.ports| && i.ports[j].ack
    ensures |Acks(i)| >= if j != k && i.ports[k].ack then 2 else 1
  {
    var parts := (k: nat) =>
      if k < |i.ports| && i.ports[k].ack then [Ack(k, i.ports[k].error, i.ports[k].data)] else [];
    JoinedAtLeast(parts, j, |i.ports|);
    if j < k && i.ports[k].ack {
      JoinedTwo(parts, j, k, |i.ports|);
    } else if k < j && i.ports[k].ack {
      JoinedTwo(parts, k, j, |i.ports|);
    }
  }

  lemma UnheardMissed(masks: seq<AdrMask>, xlen: nat, w: World, i: In)
    requires Configured(masks, xlen) && i.adr < Pow2(xlen) && Shaped(masks, w, i) && Ok(masks, w.r)
    requires !Heard(masks, w.r, i)
    ensures |Seen(masks, w, i)| < |Contents(Acks(i))|
  {
    var j: nat :| j < |masks| && i.ports[j].ack && !MuxSel(masks, w.r, i)[j];
    Routed(masks, xlen, w.r, i);
    AcksAtLeast(i, j, j);
    if true in MuxSel(masks, w.r, i) {
      var k: nat :| Only(MuxSel(masks, w.r, i), k);
      AcksAtLeast(i, j, k);
    }
  }

  /** The exact condition, for any master and any slaves: the master sees all acknowledges, in order
      and with their data, if and only if every slave acknowledges in cycles that select it only. */
  lemma SeenIffHeard(x: Trace, n: nat)
    requires IsAnyRun(x, n)
    ensures Joined(SeenIn(x), n) == Joined(ContentsIn(x), n) <==> forall k :: 0 <= k < n ==> HeardIn(x)(k)
  {
    forall k | 0 <= k < n
      ensures WholeIff(SeenIn(x), ContentsIn(x), HeardIn(x), k)
    {
      assert StepsAt(x, k);
      WaitsForOne(x, k);
      if HeardIn(x)(k) {
        HeardSeen(x.masks, x.xlen, x.world(k), x.input(k));
      } else {
        UnheardMissed(x.masks, x.xlen, x.world(k), x.input(k));
      }
    }
    JoinedWholeIff(SeenIn(x), ContentsIn(x), HeardIn(x), n);
  }

  // ---- the rule for the master ----

  /** Whatever slaves that keep to the protocol answer in this cycle, the master sees all of it. */
  ghost predicate SafeWith(masks: seq<AdrMask>, w: World, i: In, ports: seq<Port>)
    requires Shaped(masks, w, i)
  {
    var j := i.(ports := ports);
    |ports| == |masks| && SlavesObey(masks, w, j) ==> Seen(masks, w, j) == Contents(Acks(j))
  }

  /** What the master must do follows: in every state in which the interconnect waits for whoever
      owes, attending to the slaves that owe is enough, and it is needed. */
  lemma AttendsIffSafe(masks: seq<AdrMask>, xlen: nat, w: World, i: In)
    requires Configured(masks, xlen) && i.adr < Pow2(xlen) && Shaped(masks, w, i) && Inv(masks, w)
    ensures Attends(masks, w, i) <==> forall ports :: SafeWith(masks, w, i, ports)
  {
    if Attends(masks, w, i) {
      forall ports
        ensures SafeWith(masks, w, i, ports)
      {
        var j := i.(ports := ports);
        if |ports| == |masks| && SlavesObey(masks, w, j) {
          AttendsHeard(masks, xlen, w, j);
          HeardSeen(masks, xlen, w, j);
        }
      }
    } else {
      var k: nat :| k < |masks| && w.owed[k] > 0 && !Decoded(masks, i)[k];
      var ports := seq(|masks|, j => Port(j == k, false, false, 0));
      assert ports[k].ack;
      UnheardMissed(masks, xlen, w, i.(ports := ports));
      assert !SafeWith(masks, w, i, ports);
    }
  }

  lemma AttendsHeard(masks: seq<AdrMask>, xlen: nat, w: World, i: In)
    requires Configured(masks, xlen) && i.adr < Pow2(xlen) && Shaped(masks, w, i) && Inv(masks, w)
    requires Attends(masks, w, i) && SlavesObey(masks, w, i)
    ensures Heard(masks, w.r, i)
  {
    Routed(masks, xlen, w.r, i);
  }

  // ---- runs of a master that attends ----

  /** In n cycles: every request started was taken by the one slave that decodes it, or answered
      with an error because none does, in order, but for one still held; every slave acknowledged
      exactly the requests it took, in order, but for those it still owes; and the master saw exactly
      these acknowledges, each in its cycle with its data. */
  ghost predicate AllAnswered(x: Trace, n: nat) {
    && Joined(AddressesIn(x), n) + x.world(n).held == Joined(StartedIn(x), n)
    && Joined(SlavesIn(x), n) + Owing(x.world(n)) == Joined(TakenSlavesIn(x), n)
    && Joined(SeenIn(x), n) == Joined(ContentsIn(x), n)
    && |x.world(n).held| <= 1
    && forall k, j :: 0 <= k < n && 0 <= j < |ResolvedAt(x, k)| ==> RightTarget(x.masks, ResolvedAt(x, k)[j])
  }

  ghost function InvIn(x: Trace): nat -> bool {
    (k: nat) => Inv(x.masks, x.world(k))
  }

  lemma RunInv(x: Trace, n: nat)
    requires IsRun(x, n)
    ensures Inv(x.masks, x.world(n))
  {
    assert OwesOnly(x.world(0), 0);
    forall k | 0 <= k < n && InvIn(x)(k)
      ensures InvIn(x)(k + 1)
    {
      assert FairAt(x, k);
      CycleBalances(x.masks, x.xlen, x.world(k), x.input(k));
    }
    Holds(InvIn(x), n);
  }

  lemma CycleAt(x: Trace, n: nat)
    requires IsRun(x, n) && FairAt(x, n)
    ensures AddressesIn(x)(n) + HeldIn(x)(n + 1) == HeldIn(x)(n) + StartedIn(x)(n)
    ensures SlavesIn(x)(n) + OwingIn(x)(n + 1) == OwingIn(x)(n) + TakenSlavesIn(x)(n)
    ensures SeenIn(x)(n) == ContentsIn(x)(n)
    ensures forall j :: 0 <= j < |ResolvedAt(x, n)| ==> RightTarget(x.masks, ResolvedAt(x, n)[j])
  {
    RunInv(x, n);
    CycleBalances(x.masks, x.xlen, x.world(n), x.input(n));
  }

  lemma StartOwes(n: nat)
    requires n > 0
    ensures Owing(Start(n)) == []
  {
    OwingIs(Start(n), 0);
  }

  /** For every run in which the master holds stalled requests and addresses a slave that owes while
      nobody is waited for, and the slaves acknowledge what they took: all delays, stalls, addresses
      and overlaps. */
  lemma EachRequestAnswered(x: Trace, n: nat)
    requires IsRun(x, n)
    ensures AllAnswered(x, n)
  {
    forall k | 0 <= k < n
      ensures AddressesIn(x)(k) + HeldIn(x)(k + 1) == HeldIn(x)(k) + StartedIn(x)(k)
      ensures SlavesIn(x)(k) + OwingIn(x)(k + 1) == OwingIn(x)(k) + TakenSlavesIn(x)(k)
      ensures SeenIn(x)(k) == ContentsIn(x)(k)
      ensures forall j :: 0 <= j < |ResolvedAt(x, k)| ==> RightTarget(x.masks, ResolvedAt(x, k)[j])
    {
      assert FairAt(x, k);
      CycleAt(x, k);
    }
    StartOwes(|x.masks|);
    Delayed(StartedIn(x), HeldIn(x), AddressesIn(x), n);
    Delayed(TakenSlavesIn(x), OwingIn(x), SlavesIn(x), n);
    JoinedSame(SeenIn(x), ContentsIn(x), n);
    RunInv(x, n);
  }

  // ---- one request at a time ----

  /** In cycle n both sides keep to the protocol and no request overlaps another. */
  ghost predicate AloneAt(x: Trace, n: nat) {
    && StepsAt(x, n) && Lawful(x.masks, x.xlen, x.world(n), x.input(n))
    && NoOverlap(x.masks, x.world(n), x.input(n))
  }

  ghost predicate IsAloneRun(x: Trace, n: nat) {
    && Configured(x.masks, x.xlen) && x.world(0) == Start(|x.masks|)
    && forall k :: 0 <= k < n ==> AloneAt(x, k)
  }

  /** One answer is owed at most, and the interconnect waits for it. */
  ghost predicate Single(masks: seq<AdrMask>, w: World) {
    Inv(masks, w) && (w.r.busy || NothingOwed(w)) && forall k :: 0 <= k < |w.owed| ==> w.owed[k] <= 1
  }

  lemma SingleStep(masks: seq<AdrMask>, xlen: nat, w: World, i: In)
    requires Lawful(masks, xlen, w, i) && Single(masks, w) && NoOverlap(masks, w, i)
    ensures Fair(masks, xlen, w, i) && Single(masks, WorldStep(masks, w, i))
  {
    CycleBalances(masks, xlen, w, i);
    Routed(masks, xlen, w.r, i);
    if k: nat :| Only(MuxSel(masks, w.r, i), k) {
      SelectedCycle(masks, xlen, w, i, k);
      OwedAfter(masks, w, i, k);
      GatherOnly(MuxSel(masks, w.r, i), i.ports, SelectionStall(masks, w.r, i), k, |masks|);
      assert MuxSel(masks, w.r, i)[k];
    } else {
      UnselectedOwes(masks, xlen, w, i);
    }
  }

  lemma UnselectedOwes(masks: seq<AdrMask>, xlen: nat, w: World, i: In)
    requires Fair(masks, xlen, w, i) && Inv(masks, w) && NothingOwed(w) && !w.r.busy
    requires true !in MuxSel(masks, w.r, i)
    ensures NothingOwed(WorldStep(masks, w, i))
  {
    var w' := WorldStep(masks, w, i);
    forall j | 0 <= j < |masks|
      ensures w'.owed[j] == 0
    {
      assert Decoded(masks, i)[j] in Decoded(masks, i);
      assert w'.owed[j] == OwedNext(masks, w, i, j);
    }
  }

  lemma SingleAt(x: Trace, n: nat)
    requires IsAloneRun(x, n)
    ensures IsRun(x, n) && Single(x.masks, x.world(n))
  {
    var single := (k: nat) => Single(x.masks, x.world(k));
    assert OwesOnly(x.world(0), 0);
    forall k | 0 <= k < n && single(k)
      ensures single(k + 1)
    {
      assert AloneAt(x, k);
      SingleStep(x.masks, x.xlen, x.world(k), x.input(k));
    }
    forall k | 0 <= k < n
      ensures FairAt(x, k)
    {
      assert AloneAt(x, k);
      Holds(single, k);
    }
    Holds(single, n);
  }

  /** Without overlap the master attends by itself, and at most one answer is owed. */
  lemma AloneAnswered(x: Trace, n: nat)
    requires IsAloneRun(x, n)
    ensures AllAnswered(x, n) && |Owing(x.world(n))| <= 1
  {
    SingleAt(x, n);
    EachRequestAnswered(x, n);
    var k: nat :| OwesOnly(x.world(n), k);
    OwingIs(x.world(n), k);
  }

  /** The master starts no request while an answer is owed. */
  ghost predicate PatientAt(x: Trace, n: nat) {
    && StepsAt(x, n) && x.input(n).adr < Pow2(x.xlen)
    && MasterKeeps(x.world(n), x.input(n)) && SlavesObey(x.masks, x.world(n), x.input(n))
    && (!NothingOwed(x.world(n)) ==> !x.input(n).en)
  }

  /** With such a master every request is answered, with any slaves. */
  lemma PatientAnswered(x: Trace, n: nat)
    requires Configured(x.masks, x.xlen) && x.world(0) == Start(|x.masks|)
    requires forall k :: 0 <= k < n ==> PatientAt(x, k)
    ensures AllAnswered(x, n) && |Owing(x.world(n))| <= 1
  {
    forall k | 0 <= k < n
      ensures AloneAt(x, k)
    {
      assert PatientAt(x, k);
    }
    AloneAnswered(x, n);
  }

  // ---- what silence costs ----

  ghost predicate SilentAt(x: Trace, n: nat) {
    && StepsAt(x, n) && x.input(n).adr < Pow2(x.xlen)
    && !x.input(n).en && SlavesObey(x.masks, x.world(n), x.input(n))
  }

  /** While the master is silent only slave k owes, and the interconnect waits for it or for nobody. */
  predicate Silent(w: World, k: nat) {
    && OwesOnly(w, k) && w.held == []
    && (w.r.busy ==> Only(w.r.selected, k) && w.owed[k] > 0)
  }

  /** More is owed than is waited for. */
  predicate OwesMore(w: World, k: nat) {
    Silent(w, k) && w.owed[k] > if w.r.busy then 1 else 0
  }

  lemma SilentStep(x: Trace, n: nat, k: nat)
    requires Configured(x.masks, x.xlen) && SilentAt(x, n) && Silent(x.world(n), k)
    ensures Silent(x.world(n + 1), k)
    ensures !OwesMore(x.world(n), k) ==> FairAt(x, n) && !OwesMore(x.world(n + 1), k)
    ensures OwesMore(x.world(n), k) && HeardIn(x)(n) ==> OwesMore(x.world(n + 1), k)
  {
    var w, i := x.world(n), x.input(n);
    assert x.world(n + 1).owed[k] == OwedNext(x.masks, w, i, k);
    if w.r.busy {
      GatherOnly(w.r.selected, i.ports, false, k, |x.masks|);
    } else {
      GatherNone(Decoded(x.masks, i), i.ports, false, |x.masks|);
    }
  }

  lemma {:induction false} SilenceFair(x: Trace, n: nat, m: nat, k: nat)
    requires n <= m && IsRun(x, n) && Silent(x.world(n), k) && !OwesMore(x.world(n), k)
    requires forall j :: n <= j < m ==> SilentAt(x, j)
    ensures IsRun(x, m) && Silent(x.world(m), k) && !OwesMore(x.world(m), k)
    decreases m
  {
    if m == n {
    } else {
      SilenceFair(x, n, m - 1, k);
      SilentStep(x, m - 1, k);
    }
  }

  lemma {:induction false} SilenceMisses(x: Trace, n: nat, m: nat, k: nat)
    requires Configured(x.masks, x.xlen) && n <= m && OwesMore(x.world(n), k)
    requires forall j :: n <= j < m ==> SilentAt(x, j) && HeardIn(x)(j)
    ensures OwesMore(x.world(m), k)
    decreases m
  {
    if m == n {
    } else {
      SilenceMisses(x, n, m - 1, k);
      assert HeardIn(x)(m - 1);
      SilentStep(x, m - 1, k);
    }
  }

  lemma FairIsAny(x: Trace, n: nat, m: nat)
    requires n <= m && IsRun(x, n) && forall j :: n <= j < m ==> SilentAt(x, j)
    ensures IsAnyRun(x, m)
  {
    forall j | 0 <= j < m
      ensures StepsAt(x, j) && x.input(j).adr < Pow2(x.xlen)
    {
      assert if j < n then FairAt(x, j) else SilentAt(x, j);
    }
  }

  lemma SilentAfter(x: Trace, n: nat) returns (k: nat)
    requires IsRun(x, n) && x.world(n).held == []
    ensures Silent(x.world(n), k)
  {
    RunInv(x, n);
    if x.world(n).r.busy {
      k :| WaitsFor(x.masks, x.world(n), k);
    } else {
      k :| OwesOnly(x.world(n), k);
    }
  }

  /** A master that falls silent until nothing is owed sees all acknowledges if and only if, when it
      began to be silent, no answer was owed besides the one waited for. */
  lemma SilenceIff(x: Trace, n: nat, m: nat)
    requires n <= m && IsRun(x, n) && x.world(n).held == []
    requires forall j :: n <= j < m ==> SilentAt(x, j)
    requires NothingOwed(x.world(m))
    ensures Joined(SeenIn(x), m) == Joined(ContentsIn(x), m)
       <==> |Owing(x.world(n))| <= if x.world(n).r.busy then 1 else 0
  {
    var k := SilentAfter(x, n);
    OwingIs(x.world(n), k);
    if OwesMore(x.world(n), k) {
      FairIsAny(x, n, m);
      SeenIffHeard(x, m);
      if forall j :: 0 <= j < m ==> HeardIn(x)(j) {
        SilenceMisses(x, n, m, k);
        assert false;
      }
    } else {
      SilenceFair(x, n, m, k);
      EachRequestAnswered(x, m);
    }
  }

  lemma OverlapOwes(masks: seq<AdrMask>, xlen: nat, w: World, i: In, k: nat)
    requires Lawful(masks, xlen, w, i) && Single(masks, w)
    requires k < |masks| && Takes(masks, w, i, k) && w.owed[k] > 0
    ensures var w' := WorldStep(masks, w, i);
            Fair(masks, xlen, w, i) && |Owing(w')| > if w'.r.busy then 1 else 0
  {
    var j: nat :| WaitsFor(masks, w, j);
    assert j == k;
    SelectedCycle(masks, xlen, w, i, k);
    OwedAfter(masks, w, i, k);
    OwingIs(WorldStep(masks, w, i), k);
    GatherOnly(w.r.selected, i.ports, SelectionStall(masks, w.r, i), k, |masks|);
  }

  /** What one cycle after a run without overlap leaves owed. */
  lemma OwedAfterCycle(masks: seq<AdrMask>, xlen: nat, w: World, i: In)
    requires Lawful(masks, xlen, w, i) && Single(masks, w)
    ensures var w' := WorldStep(masks, w, i);
            && Fair(masks, xlen, w, i)
            && (|Owing(w')| <= (if w'.r.busy then 1 else 0) <==> NoOverlap(masks, w, i))
  {
    if NoOverlap(masks, w, i) {
      SingleStep(masks, xlen, w, i);
      var w' := WorldStep(masks, w, i);
      var k: nat :| OwesOnly(w', k);
      OwingIs(w', k);
    } else {
      var k: nat :| k < |masks| && Takes(masks, w, i, k) && w.owed[k] > 0;
      OverlapOwes(masks, xlen, w, i, k);
    }
  }

  /** So after a run without overlap, let one more cycle keep to the protocol, and let the master
      then be silent: it sees every acknowledge if and only if that cycle is without overlap, too. */
  lemma AnsweredIffNoOverlap(x: Trace, n: nat, m: nat)
    requires n < m && IsAloneRun(x, n) && StepsAt(x, n) && Lawful(x.masks, x.xlen, x.world(n), x.input(n))
    requires x.world(n + 1).held == []
    requires forall j :: n < j < m ==> SilentAt(x, j)
    requires NothingOwed(x.world(m))
    ensures Joined(SeenIn(x), m) == Joined(ContentsIn(x), m) <==> NoOverlap(x.masks, x.world(n), x.input(n))
  {
    SingleAt(x, n);
    OwedAfterCycle(x.masks, x.xlen, x.world(n), x.input(n));
    assert FairAt(x, n);
    SilenceIff(x, n + 1, m);
  }

  lemma OneSlave(mask: AdrMask, w: World, i: In)
    requires mask.lower <= mask.upper && Decodes(mask, i.adr) && |w.r.selected| == |w.owed| == |i.ports| == 1
    requires w.r.busy ==> w.r.selected[0]
    ensures var p := i.ports[0];
            && Decoded([mask], i) == [i.en]
            && MasterReply([mask], w.r, i)
               == (if w.r.busy || i.en then Reply(p.ack, p.error, p.stall, p.data) else Reply(false, false, false, 0))
            && Step([mask], w.r, i)
               == (if w.r.busy then w.r.(busy := !p.ack) else Regs(i.en && !p.ack, [i.en]))
  {
    var sel := MuxSel([mask], w.r, i);
    assert sel == [w.r.busy || i.en];
    if sel[0] {
      GatherOnly(sel, i.ports, SelectionStall([mask], w.r, i), 0, 1);
    } else {
      GatherNone(sel, i.ports, SelectionStall([mask], w.r, i), 1);
    }
  }

  /** The shortest loss, for any mapping of one slave: a request taken in the very cycle in which the
      one before is acknowledged, and a master that then waits.  The second acknowledge finds nobody. */
  lemma EarlyRequestLosesAnswer(mask: AdrMask, adr: nat, w: World, first: In, second: In, last: In)
    requires mask.lower <= mask.upper && Decodes(mask, adr) && w == Start(1)
    requires first.en && second.en && !last.en && first.adr == second.adr == last.adr == adr
    requires |first.ports| == |second.ports| == |last.ports| == 1
    requires !first.ports[0].ack && second.ports[0].ack && last.ports[0].ack
    requires !first.ports[0].stall && !second.ports[0].stall
    ensures var w1 := WorldStep([mask], w, first);
            var w2 := WorldStep([mask], w1, second);
            && w1.owed == w2.owed == [1]
            && SlavesObey([mask], w1, second) && SlavesObey([mask], w2, last)
            && Seen([mask], w1, second) == [(second.ports[0].error, second.ports[0].data)]
            && MasterReply([mask], w2.r, last) == Reply(false, false, false, 0)
            && WorldStep([mask], w2, last).owed == [0]
  {
    OneSlave(mask, w, first);
    var w1 := WorldStep([mask], w, first);
    OneSlave(mask, w1, second);
    var w2 := WorldStep([mask], w1, second);
    OneSlave(mask, w2, last);
  }

  /** An overlap alone loses nothing: the second request is taken in the cycle that acknowledges the
      first one, but a third one keeps addressing the slave while the second answer is owed. */
  lemma OverlapWithoutLoss(mask: AdrMask, adr: nat, w: World, ins: seq<In>)
    requires mask.lower <= mask.upper && Decodes(mask, adr) && w == Start(1) && |ins| == 5
    requires forall k :: 0 <= k < 5 ==> |ins[k].ports| == 1 && ins[k].adr == adr
    requires forall k :: 0 <= k < 5 ==> ins[k].en == (k < 4) && ins[k].ports[0].ack == (k in {1, 2, 4})
    requires forall k :: 0 <= k < 5 ==> ins[k].ports[0].stall == (k == 2)
    ensures var w1 := WorldStep([mask], w, ins[0]);
            var w2 := WorldStep([mask], w1, ins[1]);
            var w3 := WorldStep([mask], w2, ins[2]);
            var w4 := WorldStep([mask], w3, ins[3]);
            && !NoOverlap([mask], w1, ins[1]) && w2.owed == [1] && !w2.r.busy
            && MasterKeeps(w3, ins[3]) && w3.held == [adr]
            && Seen([mask], w1, ins[1]) == [(ins[1].ports[0].error, ins[1].ports[0].data)]
            && Seen([mask], w2, ins[2]) == [(ins[2].ports[0].error, ins[2].ports[0].data)]
            && Seen([mask], w4, ins[4]) == [(ins[4].ports[0].error, ins[4].ports[0].data)]
            && WorldStep([mask], w4, ins[4]).owed == [0]
  {
    OneSlave(mask, w, ins[0]);
    var w1 := WorldStep([mask], w, ins[0]);
    OneSlave(mask, w1, ins[1]);
    var w2 := WorldStep([mask], w1, ins[1]);
    OneSlave(mask, w2, ins[2]);
    var w3 := WorldStep([mask], w2, ins[2]);
    OneSlave(mask, w3, ins[3]);
    var w4 := WorldStep([mask], w3, ins[3]);
    OneSlave(mask, w4, ins[4]);
  }

  /** Such a mapping: one slave at the odd addresses. */
  lemma OddAddresses()
    ensures Configured([AdrMask(1, 0, 1)], 1) && Decodes(AdrMask(1, 0, 1), 1)
  {
    assert Pow2(0) == 1 && Pow2(1) == 2;
  }
}
