/** Mappings with registered slots: what the master has to see to, and the slaves behind the slots. */
module InterconnectSlots {
  import opened Arithmetic
  import opened AddressDecode
  import opened Interconnect
  import opened InterconnectRuns
  import opened InterconnectAnswers
  import opened Sequences
  import opened RegisteredSlot

  /** What the slave behind a slot does in a cycle, and the data that goes with the master's request. */
  datatype Behind = Behind(answer: Answer, stall: bool)

  datatype Lines = Lines(data: nat, we: nat)

  /** Which slots are registered, their registers in every cycle, and what surrounds them. */
  datatype Slots = Slots(registered: seq<bool>, regs: nat -> seq<RegisteredSlot.Regs>,
                         behind: (nat, nat) -> Behind, lines: nat -> Lines)

  /** The interconnect's side of a registered slot. */
  function PortOf(s: RegisteredSlot.Regs): Port {
    Port(Shown(s).ack, Shown(s).error, Stall(s), Shown(s).data)
  }

  function PayloadAt(x: Trace, t: Slots, n: nat): Payload {
    Payload(x.input(n).adr, t.lines(n).data, t.lines(n).we)
  }

  function SlotIn(x: Trace, t: Slots, n: nat, k: nat): RegisteredSlot.In
    requires Shaped(x.masks, x.world(n), x.input(n)) && k < |x.masks|
  {
    RegisteredSlot.In(SlotEnable(x.masks, x.world(n).r, x.input(n), k), PayloadAt(x, t, n),
                      t.behind(n, k).answer, t.behind(n, k).stall)
  }

  /** In cycle n port k is that of a registered slot, whose slave acknowledges when it errs. */
  ghost predicate SlotAt(x: Trace, t: Slots, n: nat, k: nat)
    requires StepsAt(x, n) && k < |x.masks| == |t.regs(n)| == |t.regs(n + 1)|
  {
    && x.input(n).ports[k] == PortOf(t.regs(n)[k])
    && t.regs(n + 1)[k] == RegisteredSlot.Step(t.regs(n)[k], SlotIn(x, t, n, k))
    && (t.behind(n, k).answer.error ==> t.behind(n, k).answer.ack)
  }

  ghost predicate SlotsAt(x: Trace, t: Slots, n: nat) {
    && StepsAt(x, n) && |t.regs(n)| == |t.regs(n + 1)| == |t.registered| == |x.masks|
    && forall k :: 0 <= k < |x.masks| && t.registered[k] ==> SlotAt(x, t, n, k)
  }

  /** A slave without register acknowledges only what it took, and the master attends to it. */
  ghost predicate DirectAt(x: Trace, n: nat, k: nat)
    requires StepsAt(x, n) && k < |x.masks|
  {
    var w, i := x.world(n), x.input(n);
    && (i.ports[k].ack ==> w.owed[k] > 0 || SlotEnable(x.masks, w.r, i, k))
    && (!w.r.busy && w.owed[k] > 0 ==> Decoded(x.masks, i)[k])
  }

  ghost predicate MixedAt(x: Trace, t: Slots, n: nat) {
    && SlotsAt(x, t, n) && x.input(n).adr < Pow2(x.xlen) && MasterKeeps(x.world(n), x.input(n))
    && forall k :: 0 <= k < |x.masks| && !t.registered[k] ==> DirectAt(x, n, k)
  }

  /** The first n cycles with any mixture of slots. */
  ghost predicate IsMixedRun(x: Trace, t: Slots, n: nat) {
    && Configured(x.masks, x.xlen) && x.world(0) == Start(|x.masks|)
    && |t.regs(0)| == |t.registered| == |x.masks|
    && (forall k :: 0 <= k < |x.masks| ==> t.regs(0)[k].state == Idle)
    && forall k :: 0 <= k < n ==> MixedAt(x, t, k)
  }

  /** The slave of a registered slot owes an answer exactly while its slot is not idle, and then it
      is waited for. */
  ghost predicate Tracks(t: Slots, w: World, n: nat) {
    && |t.regs(n)| == |t.registered| == |w.owed|
    && forall k :: 0 <= k < |w.owed| && t.registered[k] ==>
         && w.owed[k] == (if t.regs(n)[k].state == Idle then 0 else 1)
         && (t.regs(n)[k].state == Response ==> t.regs(n)[k].answer.ack)
         && (!w.r.busy ==> w.owed[k] == 0)
  }

  /** A registered slot acknowledges only what it took, and its stall keeps it from taking more. */
  lemma SlotTracks(x: Trace, t: Slots, n: nat, k: nat)
    requires SlotsAt(x, t, n) && Tracks(t, x.world(n), n) && k < |x.masks| && t.registered[k]
    ensures x.input(n).ports[k].ack ==> x.world(n).owed[k] == 1
    ensures Takes(x.masks, x.world(n), x.input(n), k)
       <==> t.regs(n)[k].state == Idle && SlotEnable(x.masks, x.world(n).r, x.input(n), k)
    ensures x.world(n + 1).owed[k] == if t.regs(n + 1)[k].state == Idle then 0 else 1
    ensures t.regs(n + 1)[k].state == Response ==> t.regs(n + 1)[k].answer.ack
  {
    assert SlotAt(x, t, n, k);
    assert x.world(n + 1).owed[k] == OwedNext(x.masks, x.world(n), x.input(n), k);
  }

  lemma MixedFair(x: Trace, t: Slots, n: nat)
    requires Configured(x.masks, x.xlen) && MixedAt(x, t, n) && Tracks(t, x.world(n), n)
    ensures FairAt(x, n)
  {
    forall k | 0 <= k < |x.masks|
      ensures x.input(n).ports[k].ack ==> x.world(n).owed[k] > 0 || SlotEnable(x.masks, x.world(n).r, x.input(n), k)
      ensures !x.world(n).r.busy && x.world(n).owed[k] > 0 ==> Decoded(x.masks, x.input(n))[k]
    {
      if t.registered[k] {
        SlotTracks(x, t, n, k);
      } else {
        assert DirectAt(x, n, k);
      }
    }
  }

  /** What a slave of a registered slot owes is waited for. */
  lemma SlotWaited(x: Trace, t: Slots, n: nat, k: nat)
    requires FairAt(x, n) && SlotsAt(x, t, n) && Inv(x.masks, x.world(n)) && Tracks(t, x.world(n), n)
    requires k < |x.masks| && t.registered[k] && x.world(n + 1).owed[k] > 0
    ensures x.world(n + 1).r.busy
  {
    var w, i := x.world(n), x.input(n);
    SlotTracks(x, t, n, k);
    assert x.world(n + 1).owed[k] == OwedNext(x.masks, w, i, k);
    assert !i.ports[k].ack;
    Routed(x.masks, x.xlen, w.r, i);
    if w.r.busy && !Takes(x.masks, w, i, k) {
      var j: nat :| WaitsFor(x.masks, w, j);
      assert j == k;
    }
    assert MuxSel(x.masks, w.r, i)[k];
    assert Only(MuxSel(x.masks, w.r, i), k);
  }

  lemma TracksNext(x: Trace, t: Slots, n: nat)
    requires Configured(x.masks, x.xlen) && MixedAt(x, t, n) && Inv(x.masks, x.world(n)) && Tracks(t, x.world(n), n)
    ensures Inv(x.masks, x.world(n + 1)) && Tracks(t, x.world(n + 1), n + 1)
  {
    MixedFair(x, t, n);
    CycleBalances(x.masks, x.xlen, x.world(n), x.input(n));
    forall k | 0 <= k < |x.masks| && t.registered[k]
      ensures x.world(n + 1).owed[k] == (if t.regs(n + 1)[k].state == Idle then 0 else 1)
      ensures t.regs(n + 1)[k].state == Response ==> t.regs(n + 1)[k].answer.ack
      ensures !x.world(n + 1).r.busy ==> x.world(n + 1).owed[k] == 0
    {
      SlotTracks(x, t, n, k);
      if x.world(n + 1).owed[k] > 0 {
        SlotWaited(x, t, n, k);
      }
    }
  }

  lemma {:induction false} MixedInv(x: Trace, t: Slots, n: nat)
    requires IsMixedRun(x, t, n)
    ensures IsRun(x, n) && Inv(x.masks, x.world(n)) && Tracks(t, x.world(n), n)
  {
    if n == 0 {
      assert OwesOnly(x.world(0), 0);
    } else {
      MixedInv(x, t, n - 1);
      TracksNext(x, t, n - 1);
      MixedFair(x, t, n - 1);
    }
  }

  // ---- the slave behind a registered slot ----

  /** What the interconnect hands to slot k, and the acknowledges it gets from there. */
  function ToSlot(x: Trace, t: Slots, k: nat): nat -> seq<Payload> {
    (n: nat) => if Shaped(x.masks, x.world(n), x.input(n)) && k < |x.masks| && Takes(x.masks, x.world(n), x.input(n), k)
                then [PayloadAt(x, t, n)] else []
  }

  function FromSlot(x: Trace, k: nat): nat -> seq<Answer> {
    (n: nat) => if k < |x.input(n).ports| && x.input(n).ports[k].ack
                then [Answer(true, x.input(n).ports[k].error, x.input(n).ports[k].data)] else []
  }

  /** What the slave behind takes and answers. */
  function TakenBehind(x: Trace, t: Slots, k: nat): nat -> seq<Payload> {
    (n: nat) => if Shaped(x.masks, x.world(n), x.input(n)) && k < |x.masks| && k < |t.regs(n)|
                then RegisteredSlot.Taken(t.regs(n)[k], [SlotIn(x, t, n, k)]) else []
  }

  function GivenBehind(x: Trace, t: Slots, k: nat): nat -> seq<Answer> {
    (n: nat) => if Shaped(x.masks, x.world(n), x.input(n)) && k < |x.masks| && k < |t.regs(n)|
                then RegisteredSlot.Given(t.regs(n)[k], [SlotIn(x, t, n, k)]) else []
  }

  function InSlot(t: Slots, k: nat): nat -> seq<Payload> {
    (n: nat) => if k < |t.regs(n)| then NotYetTaken(t.regs(n)[k]) else []
  }

  function AnswerInSlot(t: Slots, k: nat): nat -> seq<Answer> {
    (n: nat) => if k < |t.regs(n)| then NotYetSeen(t.regs(n)[k]) else []
  }

  function UnansweredAt(t: Slots, k: nat, n: nat): nat {
    if k < |t.regs(n)| then Unanswered(t.regs(n)[k]) else 0
  }

  function UnansweredIn(t: Slots, k: nat): nat -> nat {
    (n: nat) => UnansweredAt(t, k, n)
  }

  /** In n cycles the slave behind slot k took exactly the requests the interconnect handed over, with their
      data and in order, but for one in the slot; it answered each of them, but for one; and its
      answers are the acknowledges of the slot, but for one in the slot. */
  ghost predicate BehindAnswered(x: Trace, t: Slots, k: nat, n: nat)
    requires k < |t.regs(n)|
  {
    && Joined(TakenBehind(x, t, k), n) + InSlot(t, k)(n) == Joined(ToSlot(x, t, k), n)
    && |Joined(TakenBehind(x, t, k), n)| == |Joined(GivenBehind(x, t, k), n)| + UnansweredIn(t, k)(n)
    && Joined(FromSlot(x, k), n) + AnswerInSlot(t, k)(n) == Joined(GivenBehind(x, t, k), n)
  }

  lemma RunOne(r: RegisteredSlot.Regs, i: RegisteredSlot.In)
    ensures RegisteredSlot.Run(r, [i]) == RegisteredSlot.Step(r, i)
    ensures Captured(r, [i]) == if r.state == Idle && i.select then [i.payload] else []
    ensures RegisteredSlot.Seen(r, [i]) == if Shown(r).ack || Shown(r).error then [Shown(r)] else []
  {
    assert [i][1..] == [];
  }

  /** In a cycle, what enters the slot leaves it or stays. */
  ghost predicate SlotBalances(x: Trace, t: Slots, k: nat, n: nat) {
    && TakenBehind(x, t, k)(n) + InSlot(t, k)(n + 1) == InSlot(t, k)(n) + ToSlot(x, t, k)(n)
    && FromSlot(x, k)(n) + AnswerInSlot(t, k)(n + 1) == AnswerInSlot(t, k)(n) + GivenBehind(x, t, k)(n)
    && UnansweredIn(t, k)(n) + |TakenBehind(x, t, k)(n)| == |GivenBehind(x, t, k)(n)| + UnansweredIn(t, k)(n + 1)
  }

  lemma TakenBalances(x: Trace, t: Slots, k: nat, n: nat)
    requires InSlot(t, k)(0) == [] && forall m :: 0 <= m < n ==> SlotBalances(x, t, k, m)
    ensures Joined(TakenBehind(x, t, k), n) + InSlot(t, k)(n) == Joined(ToSlot(x, t, k), n)
  {
    forall m | 0 <= m < n
      ensures TakenBehind(x, t, k)(m) + InSlot(t, k)(m + 1) == InSlot(t, k)(m) + ToSlot(x, t, k)(m)
    {
      assert SlotBalances(x, t, k, m);
    }
    Delayed(ToSlot(x, t, k), InSlot(t, k), TakenBehind(x, t, k), n);
  }

  lemma GivenBalances(x: Trace, t: Slots, k: nat, n: nat)
    requires AnswerInSlot(t, k)(0) == [] && forall m :: 0 <= m < n ==> SlotBalances(x, t, k, m)
    ensures Joined(FromSlot(x, k), n) + AnswerInSlot(t, k)(n) == Joined(GivenBehind(x, t, k), n)
  {
    forall m | 0 <= m < n
      ensures FromSlot(x, k)(m) + AnswerInSlot(t, k)(m + 1) == AnswerInSlot(t, k)(m) + GivenBehind(x, t, k)(m)
    {
      assert SlotBalances(x, t, k, m);
    }
    Delayed(GivenBehind(x, t, k), AnswerInSlot(t, k), FromSlot(x, k), n);
  }

  lemma CountBalances(x: Trace, t: Slots, k: nat, n: nat)
    requires UnansweredIn(t, k)(0) == 0 && forall m :: 0 <= m < n ==> SlotBalances(x, t, k, m)
    ensures |Joined(TakenBehind(x, t, k), n)| == |Joined(GivenBehind(x, t, k), n)| + UnansweredIn(t, k)(n)
  {
    forall m | 0 <= m < n
      ensures UnansweredIn(t, k)(m) + |TakenBehind(x, t, k)(m)| == |GivenBehind(x, t, k)(m)| + UnansweredIn(t, k)(m + 1)
    {
      assert SlotBalances(x, t, k, m);
    }
    LengthsBalance(TakenBehind(x, t, k), GivenBehind(x, t, k), UnansweredIn(t, k), n);
  }

  /** One cycle of the slot by itself. */
  lemma OneCycle(r: RegisteredSlot.Regs, i: RegisteredSlot.In)
    requires RegisteredSlot.Ok(r)
    ensures var r' := RegisteredSlot.Step(r, i);
            && RegisteredSlot.Taken(r, [i]) + NotYetTaken(r')
               == NotYetTaken(r) + (if r.state == Idle && i.select then [i.payload] else [])
            && (if Shown(r).ack || Shown(r).error then [Shown(r)] else []) + NotYetSeen(r')
               == NotYetSeen(r) + RegisteredSlot.Given(r, [i])
            && Unanswered(r) + |RegisteredSlot.Taken(r, [i])| == |RegisteredSlot.Given(r, [i])| + Unanswered(r')
  {
    RunOne(r, i);
    TakenOnce(r, [i]);
    AnsweredOnce(r, [i]);
    SeenOnce(r, [i]);
  }

  /** The slot's requests and acknowledges are those at its port. */
  lemma SlotPort(x: Trace, t: Slots, n: nat, k: nat)
    requires SlotsAt(x, t, n) && Tracks(t, x.world(n), n) && k < |x.masks| && t.registered[k]
    ensures var r, i := t.regs(n)[k], SlotIn(x, t, n, k);
            && RegisteredSlot.Ok(r) && t.regs(n + 1)[k] == RegisteredSlot.Step(r, i)
            && ToSlot(x, t, k)(n) == (if r.state == Idle && i.select then [i.payload] else [])
            && FromSlot(x, k)(n) == (if Shown(r).ack || Shown(r).error then [Shown(r)] else [])
  {
    assert SlotAt(x, t, n, k);
    SlotTracks(x, t, n, k);
  }

  lemma SlotCycle(x: Trace, t: Slots, n: nat, k: nat)
    requires SlotsAt(x, t, n) && Tracks(t, x.world(n), n) && k < |x.masks| && t.registered[k]
    ensures SlotBalances(x, t, k, n)
  {
    SlotPort(x, t, n, k);
    OneCycle(t.regs(n)[k], SlotIn(x, t, n, k));
  }

  lemma BehindSlot(x: Trace, t: Slots, k: nat, n: nat)
    requires IsMixedRun(x, t, n) && k < |x.masks| && t.registered[k]
    ensures k < |t.regs(n)| && BehindAnswered(x, t, k, n)
  {
    forall m | 0 <= m < n
      ensures SlotBalances(x, t, k, m)
    {
      MixedInv(x, t, m);
      assert MixedAt(x, t, m);
      SlotCycle(x, t, m, k);
    }
    MixedInv(x, t, n);
    TakenBalances(x, t, k, n);
    GivenBalances(x, t, k, n);
    CountBalances(x, t, k, n);
  }

  /** With any mixture of registered and direct slots, for every delay and stall on both sides: a
      master that holds stalled requests and attends to the direct slaves gets every answer, each request
      reaches the slave behind its slot once, and each answer comes from there. */
  lemma MixedAnswered(x: Trace, t: Slots, n: nat)
    requires IsMixedRun(x, t, n)
    ensures AllAnswered(x, n)
    ensures forall k :: 0 <= k < |x.masks| && t.registered[k] ==> k < |t.regs(n)| && BehindAnswered(x, t, k, n)
  {
    MixedInv(x, t, n);
    EachRequestAnswered(x, n);
    forall k | 0 <= k < |x.masks| && t.registered[k]
      ensures k < |t.regs(n)| && BehindAnswered(x, t, k, n)
    {
      BehindSlot(x, t, k, n);
    }
  }

  /** With registered slots alone the master need not attend to anybody: a request that comes too
      early is stalled. */
  lemma RegisteredAnswered(x: Trace, t: Slots, n: nat)
    requires Configured(x.masks, x.xlen) && x.world(0) == Start(|x.masks|)
    requires |t.regs(0)| == |t.registered| == |x.masks|
    requires forall k :: 0 <= k < |x.masks| ==> t.registered[k] && t.regs(0)[k].state == Idle
    requires forall k :: 0 <= k < n ==>
               SlotsAt(x, t, k) && x.input(k).adr < Pow2(x.xlen) && MasterKeeps(x.world(k), x.input(k))
    ensures AllAnswered(x, n)
    ensures forall k :: 0 <= k < |x.masks| ==> k < |t.regs(n)| && BehindAnswered(x, t, k, n)
  {
    forall k | 0 <= k < n
      ensures MixedAt(x, t, k)
    {
      assert SlotsAt(x, t, k);
    }
    MixedAnswered(x, t, n);
  }
}
