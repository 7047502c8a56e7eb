/** Whole runs of the core: the same instructions, accesses and register writes as in-order
    execution, at a bounded cost. */
module CoreRefinement {
  import opened Isa
  import opened Backend
  import opened Core
  import opened Sequences
  import Fetch

  /** A program, where it starts, a configuration, what the data bus does in every cycle, and the
      registers of the core in every cycle. */
  datatype Trace = Trace(p: Program, pc: Word, c: Config, bus: nat -> In, core: nat -> World)

  /** The data bus obeys its protocol in cycle n, and the core takes one step. */
  ghost predicate StepsAt(x: Trace, n: nat) {
    Obeys(x.p, x.core(n), x.bus(n)) && x.core(n + 1) == Cycle(x.p, x.c, x.core(n), x.bus(n))
  }

  /** The first n cycles after reset. */
  ghost predicate IsRun(x: Trace, n: nat) {
    x.core(0) == Boot(x.pc) && forall k :: 0 <= k < n ==> StepsAt(x, k)
  }

  /** An instruction is taken in a cycle. */
  function TakenIn(x: Trace): nat -> bool {
    (k: nat) => Taken(x.c, x.core(k).back)
  }

  /** How many instructions execute takes in n cycles, and which, with their operands. */
  function TakenCount(x: Trace, n: nat): nat {
    Count(TakenIn(x), n)
  }

  function TakenLog(x: Trace, n: nat): seq<Event> {
    Joined(TakenEventsIn(x), n)
  }

  function TakenEventsIn(x: Trace): nat -> seq<Event> {
    (k: nat) => TakenEvents(x.c, x.core(k).back)
  }

  /** The writes of the register file port in n cycles. */
  function CommitLog(x: Trace, n: nat): seq<Write> {
    Joined(CommittedIn(x), n)
  }

  function CommittedIn(x: Trace): nat -> seq<Write> {
    (k: nat) => Committed(x.core(k).back)
  }

  function InFlightIn(x: Trace): nat -> seq<Write> {
    (k: nat) => InFlight(x.p, x.core(k))
  }

  /** In-order execution of as many instructions. */
  function InOrder(x: Trace, n: nat): State {
    After(x.p, Start(x.pc), TakenCount(x, n))
  }

  ghost function InvIn(x: Trace): nat -> bool {
    (k: nat) => Inv(x.p, x.core(k), InOrder(x, k))
  }

  lemma InOrderNext(x: Trace, n: nat)
    ensures InOrder(x, n + 1) == StateNext(x.p, x.c, x.core(n), InOrder(x, n))
  {
  }

  lemma InvNext(x: Trace, n: nat)
    requires StepsAt(x, n) && InvIn(x)(n)
    ensures InvIn(x)(n + 1)
  {
    CycleRefines(x.p, x.c, x.core(n), x.bus(n), InOrder(x, n));
    InOrderNext(x, n);
  }

  lemma RunInv(x: Trace, n: nat)
    requires IsRun(x, n)
    ensures InvIn(x)(n)
  {
    BootInv(x.p, x.pc);
    forall k | 0 <= k < n && InvIn(x)(k)
      ensures InvIn(x)(k + 1)
    {
      InvNext(x, k);
    }
    Holds(InvIn(x), n);
  }

  lemma TakenAt(x: Trace, n: nat)
    requires IsRun(x, n)
    ensures TakenEventsIn(x)(n) == if TakenIn(x)(n) then Events(x.p, Start(x.pc))(TakenCount(x, n)) else []
  {
    RunInv(x, n);
    if TakenIn(x)(n) {
      TakesNext(x.p, x.c, x.core(n), InOrder(x, n));
    } else {
      assert TakenEvents(x.c, x.core(n).back) == [];
    }
  }

  /** The operands of every instruction taken are those of in-order execution. */
  lemma TakesInOrder(x: Trace, n: nat)
    requires IsRun(x, n)
    ensures TakenLog(x, n) == EventLog(x.p, Start(x.pc), TakenCount(x, n))
  {
    forall k | 0 <= k < n
      ensures TakenEventsIn(x)(k) == if TakenIn(x)(k) then Events(x.p, Start(x.pc))(Count(TakenIn(x), k)) else []
    {
      TakenAt(x, k);
    }
    JoinedWhen(TakenEventsIn(x), TakenIn(x), Events(x.p, Start(x.pc)), n);
  }

  /** A cycle commits what leaves the flight and puts in flight what an instruction writes. */
  lemma WritesStep(p: Program, c: Config, w: World, i: In, s: State)
    requires Inv(p, w, s) && Obeys(p, w, i)
    ensures Committed(w.back) + InFlight(p, Cycle(p, c, w, i)) ==
              InFlight(p, w) + if Taken(c, w.back) then WriteOf(p, EventOf(p, s), Retire(p, s).accesses) else []
  {
    InFlightStep(p, c, w, i);
    if Taken(c, w.back) {
      TakesNext(p, c, w, s);
      assert InFlight(p, w) == Committed(w.back);
    }
  }

  /** The write of the instruction taken in a cycle. */
  function WrittenIn(x: Trace): nat -> seq<Write> {
    (k: nat) => if TakenIn(x)(k) then Writes(x.p, Start(x.pc))(Count(TakenIn(x), k)) else []
  }

  lemma WritesAt(x: Trace, n: nat)
    requires IsRun(x, n) && StepsAt(x, n)
    ensures CommittedIn(x)(n) + InFlightIn(x)(n + 1) == InFlightIn(x)(n) + WrittenIn(x)(n)
  {
    RunInv(x, n);
    WritesStep(x.p, x.c, x.core(n), x.bus(n), InOrder(x, n));
  }

  /** The write port commits the writes of in-order execution, in order, each once; what is missing
      is the one write in flight. */
  lemma CommitsInOrder(x: Trace, n: nat)
    requires IsRun(x, n)
    ensures CommitLog(x, n) + InFlight(x.p, x.core(n)) == WriteLog(x.p, Start(x.pc), TakenCount(x, n))
  {
    assert InFlightIn(x)(0) == [];
    forall k | 0 <= k < n
      ensures CommittedIn(x)(k) + InFlightIn(x)(k + 1) == InFlightIn(x)(k) + WrittenIn(x)(k)
    {
      WritesAt(x, k);
    }
    Delayed(WrittenIn(x), InFlightIn(x), CommittedIn(x), n);
    JoinedWhen(WrittenIn(x), TakenIn(x), Writes(x.p, Start(x.pc)), n);
  }

  /** The pipeline is in-order execution: for any program, either configuration, any latency and
      stalls of the data bus, a run that took some instructions took the first ones with their
      in-order operands, made their accesses, and committed their writes but for one in flight. */
  lemma PipelineIsInOrder(x: Trace, n: nat)
    requires IsRun(x, n)
    ensures var w := x.core(n);
            var taken := TakenCount(x, n);
            && TakenLog(x, n) == EventLog(x.p, Start(x.pc), taken)
            && CommitLog(x, n) + InFlight(x.p, w) == WriteLog(x.p, Start(x.pc), taken)
            && ApplyAll(w.back.file.registers, InFlight(x.p, w)) == After(x.p, Start(x.pc), taken).regs
            && w.accepted + Requested(w.back) == After(x.p, Start(x.pc), taken).accesses
            && |InFlight(x.p, w)| <= 1
  {
    RunInv(x, n);
    TakesInOrder(x, n);
    CommitsInOrder(x, n);
  }

  /** And it is the ISA, as long as no JALR taken had an odd sum. */
  lemma PipelineFollowsIsa(x: Trace, n: nat)
    requires IsRun(x, n) && NoOddJump(x.p, Start(x.pc), TakenCount(x, n))
    ensures var w := x.core(n);
            var s := IsaAfter(x.p, Start(x.pc), TakenCount(x, n));
            && TakenLog(x, n) == Joined(IsaEvents(x.p, Start(x.pc)), TakenCount(x, n))
            && CommitLog(x, n) + InFlight(x.p, w) == Joined(IsaWrites(x.p, Start(x.pc)), TakenCount(x, n))
            && ApplyAll(w.back.file.registers, InFlight(x.p, w)) == s.regs
            && w.accepted + Requested(w.back) == s.accesses
  {
    var start, taken := Start(x.pc), TakenCount(x, n);
    PipelineIsInOrder(x, n);
    AgreesIffEven(x.p, start, taken);
    assert States(x.p, start)(taken) == IsaStates(x.p, start)(taken);
    EvenWritesAgree(x.p, start, taken);
    if taken > 0 {
      LogsAgreeIffEven(x.p, start, taken - 1);
    }
  }

  /** That condition is exact: a run took the ISA's instructions if and only if none of them before
      the last is a JALR with an odd sum. */
  lemma FollowsIsaIff(x: Trace, n: nat)
    requires IsRun(x, n) && TakenCount(x, n) > 0
    ensures TakenLog(x, n) == Joined(IsaEvents(x.p, Start(x.pc)), TakenCount(x, n))
       <==> NoOddJump(x.p, Start(x.pc), TakenCount(x, n) - 1)
  {
    TakesInOrder(x, n);
    LogsAgreeIffEven(x.p, Start(x.pc), TakenCount(x, n) - 1);
  }

  lemma CommitsPrefix(x: Trace, n: nat, most: nat)
    requires IsRun(x, n) && TakenCount(x, n) <= most
    ensures CommitLog(x, n) <= WriteLog(x.p, Start(x.pc), most)
  {
    CommitsInOrder(x, n);
    JoinedGrows(Writes(x.p, Start(x.pc)), TakenCount(x, n), most);
  }

  /** Forwarding or interlock, fast or slow memory: of two runs of a program, one has committed
      the writes of the other and possibly more. */
  lemma ConfigurationsAgree(x: Trace, m: nat, y: Trace, n: nat)
    requires x.p == y.p && x.pc == y.pc && IsRun(x, m) && IsRun(y, n)
    ensures CommitLog(x, m) <= CommitLog(y, n) || CommitLog(y, n) <= CommitLog(x, m)
  {
    var most := TakenCount(x, m) + TakenCount(y, n);
    CommitsPrefix(x, m, most);
    CommitsPrefix(y, n, most);
  }

  // ---- cost ----

  lemma HazardEnds(p: Program, c: Config, w: World, i: In)
    requires UnitsOk(w.back) && Obeys(p, w, i) && Hazard(c, w.back)
    ensures var next := Cycle(p, c, w, i);
            && !Taken(c, w.back) && !Hazard(c, next.back) && Taken(c, next.back)
            && next.back.decode == w.back.decode
  {
  }

  /** A hazard never lasts: the instruction it stops is taken in the next cycle. */
  lemma HazardLastsOneCycle(x: Trace, n: nat)
    requires IsRun(x, n + 1) && Hazard(x.c, x.core(n).back)
    ensures var now, next := x.core(n).back, x.core(n + 1).back;
            !Taken(x.c, now) && !Hazard(x.c, next) && Taken(x.c, next) && next.decode == now.decode
  {
    RunInv(x, n);
    assert StepsAt(x, n);
    HazardEnds(x.p, x.c, x.core(n), x.bus(n));
  }

  /** The decoded instruction waits for the data bus. */
  predicate WaitsForData(w: World, i: In) {
    w.back.decode.valid && w.back.ls.outstanding && !i.ack
  }

  /** Cycles still needed by the units and the hazard after them. */
  function UnitDistance(r: Regs): nat {
    if r.ls.outstanding then 3 else if r.ls.valid || r.shift.ready then 2 else if r.wb.valid then 1 else 0
  }

  /** An upper bound for the cycles until an instruction is taken, not counting waits for data. */
  function Distance(w: World): nat {
    UnitDistance(w.back) + if w.back.decode.valid then 0 else 1 + Fetch.Latency(w.fetch)
  }

  lemma DistanceFalls(p: Program, c: Config, w: World, i: In, s: State)
    requires Inv(p, w, s) && Obeys(p, w, i)
    ensures Distance(Cycle(p, c, w, i)) + 1
         <= (if Taken(c, w.back) then 7 else Distance(w)) + (if WaitsForData(w, i) then 1 else 0)
  {
    DecodeStep(p, c, w, i, s.pc);
    if !w.back.decode.valid && !w.fetch.f.q.valid {
      Fetch.LatencyFalls(p.text, w.fetch, FetchIn(p, c, w.back), s.pc);
    }
  }

  function DistanceIn(x: Trace): nat -> nat {
    (k: nat) => Distance(x.core(k))
  }

  function WaitsIn(x: Trace): nat -> bool {
    (k: nat) => WaitsForData(x.core(k), x.bus(k))
  }

  lemma DistanceAt(x: Trace, n: nat)
    requires IsRun(x, n) && StepsAt(x, n)
    ensures DistanceIn(x)(n + 1) + 1
         <= (if TakenIn(x)(n) then 7 else DistanceIn(x)(n)) + (if WaitsIn(x)(n) then 1 else 0)
  {
    RunInv(x, n);
    DistanceFalls(x.p, x.c, x.core(n), x.bus(n), InOrder(x, n));
  }

  /** The core never hangs: each instruction accounts for at most seven cycles, apart from those in
      which the data bus keeps it waiting. */
  lemma NeverHangs(x: Trace, n: nat)
    requires IsRun(x, n)
    ensures n + Distance(x.core(n)) <= 4 + 7 * TakenCount(x, n) + Count(WaitsIn(x), n)
  {
    forall k | 0 <= k < n
      ensures DistanceIn(x)(k + 1) + 1
           <= (if TakenIn(x)(k) then 7 else DistanceIn(x)(k)) + (if WaitsIn(x)(k) then 1 else 0)
    {
      DistanceAt(x, k);
    }
    Bounded(DistanceIn(x), TakenIn(x), WaitsIn(x), 7, n);
  }

  // ---- runs exist ----

  function CoreAt(p: Program, pc: Word, c: Config, bus: nat -> In, n: nat): World {
    if n == 0 then Boot(pc) else Cycle(p, c, CoreAt(p, pc, c, bus, n - 1), bus(n - 1))
  }

  lemma CoreAtNext(p: Program, pc: Word, c: Config, bus: nat -> In, n: nat)
    ensures CoreAt(p, pc, c, bus, n + 1) == Cycle(p, c, CoreAt(p, pc, c, bus, n), bus(n))
  {
  }

  /** Every program has a run in every configuration, on any bus that keeps to its protocol. */
  lemma RunExists(p: Program, pc: Word, c: Config, bus: nat -> In, n: nat)
    requires forall k :: 0 <= k < n ==> Obeys(p, CoreAt(p, pc, c, bus, k), bus(k))
    ensures IsRun(Trace(p, pc, c, bus, (k: nat) => CoreAt(p, pc, c, bus, k)), n)
  {
    var x := Trace(p, pc, c, bus, (k: nat) => CoreAt(p, pc, c, bus, k));
    forall k | 0 <= k < n
      ensures StepsAt(x, k)
    {
      CoreAtNext(p, pc, c, bus, k);
    }
  }
}
