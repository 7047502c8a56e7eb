/** The core with the cache as its data bus: one edge clocks both, and the core's data memory is the
    cache with the memory behind it. */
module CachedCore {
  import opened Isa
  import opened Backend
  import opened Core
  import opened CoreRefinement
  import opened Sequences
  import G = CacheGeometry
  import S = CacheStep
  import I = CacheInvariant
  import M = CacheMemory
  import R = CacheRefinement
  import F = FlatMemory

  /** A program, where it starts, both configurations, the request lines of an access, and the value a
      load takes from a word. */
  datatype Setup = Setup(p: Program, pc: Word, c: Backend.Config, g: G.Config, request: Access -> S.Request,
                         value: (Access, G.Word) -> Word)

  datatype Pair = Pair(core: World, cache: I.Sys)

  /** All addresses of accesses are cacheable. */
  ghost predicate Fits(u: Setup) {
    u.g.Valid() && forall a :: u.request(a).adr < u.g.Size()
  }

  // ---- the wires between them ----

  function DriveOf(u: Setup, s: Pair, memAck: bool): I.Drive {
    I.Drive(s.core.back.ls.enable, u.request(s.core.back.ls.request), memAck)
  }

  ghost function BusOf(u: Setup, s: Pair): In
    requires I.Inv(u.g, s.cache)
  {
    In(S.Stall(s.cache.r, s.core.back.ls.enable), s.cache.r.bus.ack,
       u.value(s.core.back.ls.request, S.ReadData(s.cache.r)))
  }

  ghost function PairStep(u: Setup, s: Pair, memAck: bool): Pair
    requires Fits(u) && I.Inv(u.g, s.cache) && (memAck ==> s.cache.r.master.enable)
  {
    Pair(Cycle(u.p, u.c, s.core, BusOf(u, s)), I.SysStep(u.g, s.cache, DriveOf(u, s, memAck)))
  }

  // ---- flat memory as the program's memory ----

  function Requests(u: Setup, accesses: seq<Access>): (qs: seq<S.Request>)
    ensures |qs| == |accesses|
  {
    seq(|accesses|, k requires 0 <= k < |accesses| => u.request(accesses[k]))
  }

  lemma RequestsSnoc(u: Setup, accesses: seq<Access>, a: Access)
    ensures Requests(u, accesses + [a]) == Requests(u, accesses) + [u.request(a)]
  {
  }

  /** The flat memory's answer to the last of the accesses. */
  ghost function Answer(u: Setup, flat: seq<G.Word>, accesses: seq<Access>): G.Word
    requires Fits(u) && |flat| == u.g.Size() && accesses != []
  {
    F.FlatLengths(flat, Requests(u, accesses));
    F.FlatAnswers(flat, Requests(u, accesses))[|accesses| - 1]
  }

  /** Byte for byte it is what the last earlier store wrote there, or what was there at first. */
  lemma AnswerBytes(u: Setup, flat: seq<G.Word>, accesses: seq<Access>, k: nat)
    requires Fits(u) && |flat| == u.g.Size() && accesses != [] && k < 4
    ensures F.ByteAfter(flat, Requests(u, accesses), |accesses| - 1, u.request(accesses[|accesses| - 1]).adr, k,
                        Answer(u, flat, accesses)[k])
  {
    F.AnswersBytes(flat, Requests(u, accesses));
  }

  /** The program's loads are those of a flat memory with these contents. */
  ghost predicate LoadsFrom(u: Setup, flat: seq<G.Word>)
    requires Fits(u) && |flat| == u.g.Size()
  {
    forall accesses :: accesses != [] ==> LoadsRight(u, flat, accesses)
  }

  ghost predicate LoadsRight(u: Setup, flat: seq<G.Word>, accesses: seq<Access>)
    requires Fits(u) && |flat| == u.g.Size() && accesses != []
  {
    u.p.memory(accesses) == u.value(accesses[|accesses| - 1], Answer(u, flat, accesses))
  }

  ghost function FlatLoad(u: Setup, flat: seq<G.Word>, accesses: seq<Access>): Word
    requires Fits(u) && |flat| == u.g.Size()
  {
    if accesses != [] then u.value(accesses[|accesses| - 1], Answer(u, flat, accesses)) else 0
  }

  ghost function FlatMemory(u: Setup, flat: seq<G.Word>): seq<Access> -> Word
    requires Fits(u) && |flat| == u.g.Size()
  {
    (accesses: seq<Access>) => FlatLoad(u, flat, accesses)
  }

  lemma SameAnswer(u: Setup, v: Setup, flat: seq<G.Word>, accesses: seq<Access>)
    requires Fits(u) && Fits(v) && |flat| == u.g.Size() && u.g == v.g && u.request == v.request && accesses != []
    ensures Answer(u, flat, accesses) == Answer(v, flat, accesses)
  {
    assert Requests(v, accesses) == Requests(u, accesses);
  }

  /** Every program has such a memory. */
  lemma FlatMemoryExists(u: Setup, flat: seq<G.Word>)
    requires Fits(u) && |flat| == u.g.Size()
    ensures var v := u.(p := u.p.(memory := FlatMemory(u, flat)));
            Fits(v) && LoadsFrom(v, flat)
  {
    var v := u.(p := u.p.(memory := FlatMemory(u, flat)));
    forall accesses: seq<Access> | accesses != []
      ensures LoadsRight(v, flat, accesses)
    {
      SameAnswer(u, v, flat, accesses);
    }
  }

  // ---- the invariant ----

  predicate Waiting(w: World) {
    w.back.ls.outstanding && !w.back.ls.enable
  }

  /** The load/store unit remembers the access it waits for. */
  predicate Remembers(w: World) {
    var l := w.back.ls;
    && (l.outstanding ==> AccessesMemory(l.request.instr) && l.store == (l.request.instr.kind == Store))
    && (Waiting(w) ==> w.accepted != [] && w.accepted[|w.accepted| - 1] == l.request)
  }

  /** The cache stands for flat memory after some accesses, and owes the answer to the last one or none. */
  ghost predicate Serves(u: Setup, flat: seq<G.Word>, accesses: seq<Access>, owes: bool, cache: I.Sys)
    requires Fits(u) && |flat| == u.g.Size() && (owes ==> accesses != [])
  {
    && I.Inv(u.g, cache)
    && R.FlatOf(u.g, cache) == F.FlatAfter(flat, Requests(u, accesses))
    && R.Due(u.g, cache) == if owes then [Answer(u, flat, accesses)] else []
  }

  /** It serves the accesses accepted from the core, and owes what the core waits for. */
  ghost predicate Linked(u: Setup, flat: seq<G.Word>, s: Pair)
    requires Fits(u) && |flat| == u.g.Size()
  {
    && UnitsOk(s.core.back) && Remembers(s.core)
    && Serves(u, flat, s.core.accepted, Waiting(s.core), s.cache)
  }

  /** The cache keeps to the core's bus protocol and answers loads from flat memory. */
  lemma CacheObeys(u: Setup, flat: seq<G.Word>, s: Pair)
    requires Fits(u) && |flat| == u.g.Size() && LoadsFrom(u, flat) && Linked(u, flat, s)
    ensures Obeys(u.p, s.core, BusOf(u, s))
  {
    if s.cache.r.bus.ack {
      assert R.Due(u.g, s.cache)[0] == S.ReadData(s.cache.r);
      assert Waiting(s.core) && AcceptedNext(s.core, BusOf(u, s)) == s.core.accepted;
      assert LoadsRight(u, flat, s.core.accepted);
    }
  }

  /** An access on the bus is accepted at once. */
  lemma CacheReady(u: Setup, flat: seq<G.Word>, s: Pair)
    requires Fits(u) && |flat| == u.g.Size() && Linked(u, flat, s) && s.core.back.ls.enable
    ensures !s.cache.r.bus.pending && !s.cache.r.bus.ack && !BusOf(u, s).stall
  {
    assert R.Due(u.g, s.cache) == [];
  }

  /** What the core's side of the bus does in a cycle. */
  lemma UnitNext(p: Program, c: Backend.Config, w: World, i: In)
    requires UnitsOk(w.back) && Remembers(w) && Obeys(p, w, i)
    requires w.back.ls.enable ==> !i.stall && !i.ack
    ensures var n := Cycle(p, c, w, i);
            && UnitsOk(n.back) && Remembers(n) && n.accepted == w.accepted + Requested(w.back)
            && (Waiting(n) <==> w.back.ls.enable || (Waiting(w) && !i.ack))
  {
    UnitsStep(p, c, w, i);
  }

  /** The flat memory and its last answer after one more access. */
  lemma FlatAccepts(u: Setup, flat: seq<G.Word>, accesses: seq<Access>, a: Access)
    requires Fits(u) && |flat| == u.g.Size()
    ensures |F.FlatAfter(flat, Requests(u, accesses))| == u.g.Size()
    ensures F.FlatAfter(flat, Requests(u, accesses + [a]))
         == F.FlatWrite(F.FlatAfter(flat, Requests(u, accesses)), u.request(a))
    ensures Answer(u, flat, accesses + [a]) == F.FlatAfter(flat, Requests(u, accesses))[u.request(a).adr]
  {
    RequestsSnoc(u, accesses, a);
    F.AfterSnoc(flat, Requests(u, accesses), u.request(a));
    F.FlatLengths(flat, Requests(u, accesses));
  }

  /** The answer to an access accepted while nothing is owed is owed afterwards. */
  lemma DueAccepted(g: G.Config, s: I.Sys, d: I.Drive)
    requires I.Inv(g, s) && I.Legal(g, s, d) && R.Accepts(s, d) && R.Due(g, s) == []
    ensures I.Inv(g, I.SysStep(g, s, d))
    ensures R.Due(g, I.SysStep(g, s, d)) == [R.FlatOf(g, s)[d.request.adr]]
  {
    R.DueStep(g, s, d);
    assert R.Asked(g, s, d) == [] + R.Due(g, I.SysStep(g, s, d));
  }

  /** An answer that is owed stays owed until it is acknowledged. */
  lemma DueKept(g: G.Config, s: I.Sys, d: I.Drive)
    requires I.Inv(g, s) && I.Legal(g, s, d) && !R.Accepts(s, d) && |R.Due(g, s)| <= 1
    ensures I.Inv(g, I.SysStep(g, s, d))
    ensures R.Due(g, I.SysStep(g, s, d)) == if s.r.bus.ack then [] else R.Due(g, s)
  {
    R.DueStep(g, s, d);
    var due, next := R.Due(g, s), R.Due(g, I.SysStep(g, s, d));
    assert due + [] == due;
    assert [] + next == next;
    assert due == R.Acked(g, s) + next;
  }

  lemma ServesAccepted(u: Setup, flat: seq<G.Word>, accesses: seq<Access>, a: Access, cache: I.Sys, d: I.Drive)
    requires Fits(u) && |flat| == u.g.Size() && Serves(u, flat, accesses, false, cache)
    requires I.Legal(u.g, cache, d) && R.Accepts(cache, d) && d.request == u.request(a)
    ensures Serves(u, flat, accesses + [a], true, I.SysStep(u.g, cache, d))
  {
    R.FlatStep(u.g, cache, d);
    DueAccepted(u.g, cache, d);
    FlatAccepts(u, flat, accesses, a);
  }

  lemma ServesKept(u: Setup, flat: seq<G.Word>, accesses: seq<Access>, owes: bool, cache: I.Sys, d: I.Drive)
    requires Fits(u) && |flat| == u.g.Size() && (owes ==> accesses != []) && Serves(u, flat, accesses, owes, cache)
    requires I.Legal(u.g, cache, d) && !R.Accepts(cache, d)
    ensures Serves(u, flat, accesses, owes && !cache.r.bus.ack, I.SysStep(u.g, cache, d))
  {
    R.FlatStep(u.g, cache, d);
    DueKept(u.g, cache, d);
  }

  /** The core puts its access on the bus, and the cache accepts it. */
  lemma LinkedAccepts(u: Setup, flat: seq<G.Word>, s: Pair, memAck: bool)
    requires Fits(u) && |flat| == u.g.Size() && LoadsFrom(u, flat) && Linked(u, flat, s)
    requires (memAck ==> s.cache.r.master.enable) && s.core.back.ls.enable
    ensures Linked(u, flat, PairStep(u, s, memAck))
  {
    CacheObeys(u, flat, s);
    CacheReady(u, flat, s);
    ServesAccepted(u, flat, s.core.accepted, s.core.back.ls.request, s.cache, DriveOf(u, s, memAck));
    UnitNext(u.p, u.c, s.core, BusOf(u, s));
  }

  lemma LinkedKeeps(u: Setup, flat: seq<G.Word>, s: Pair, memAck: bool)
    requires Fits(u) && |flat| == u.g.Size() && LoadsFrom(u, flat) && Linked(u, flat, s)
    requires (memAck ==> s.cache.r.master.enable) && !s.core.back.ls.enable
    ensures Linked(u, flat, PairStep(u, s, memAck))
  {
    CacheObeys(u, flat, s);
    ServesKept(u, flat, s.core.accepted, Waiting(s.core), s.cache, DriveOf(u, s, memAck));
    UnitNext(u.p, u.c, s.core, BusOf(u, s));
    assert s.core.accepted + [] == s.core.accepted;
  }

  lemma LinkedNext(u: Setup, flat: seq<G.Word>, s: Pair, memAck: bool)
    requires Fits(u) && |flat| == u.g.Size() && LoadsFrom(u, flat) && Linked(u, flat, s)
    requires memAck ==> s.cache.r.master.enable
    ensures Linked(u, flat, PairStep(u, s, memAck))
  {
    if s.core.back.ls.enable {
      LinkedAccepts(u, flat, s, memAck);
    } else {
      LinkedKeeps(u, flat, s, memAck);
    }
  }

  lemma PendingIsDue(u: Setup, flat: seq<G.Word>, s: Pair)
    requires Fits(u) && |flat| == u.g.Size() && Linked(u, flat, s)
    ensures Waiting(s.core) <==> s.cache.r.bus.pending || s.cache.r.bus.ack
  {
  }

  // ---- runs ----

  /** What is set up, the memory's acknowledges, and the state in every cycle. */
  datatype Trace = Trace(u: Setup, memAck: nat -> bool, at: nat -> Pair)

  ghost predicate CachedStep(x: Trace, n: nat)
    requires Fits(x.u)
  {
    && I.Inv(x.u.g, x.at(n).cache) && (x.memAck(n) ==> x.at(n).cache.r.master.enable)
    && x.at(n + 1) == PairStep(x.u, x.at(n), x.memAck(n))
  }

  /** The first n cycles from power-up, for any wait states of the memory. */
  ghost predicate IsCachedRun(x: Trace, n: nat) {
    && Fits(x.u) && x.at(0).core == Boot(x.u.pc) && R.Initial(x.u.g, x.at(0).cache)
    && forall k :: 0 <= k < n ==> CachedStep(x, k)
  }

  /** The words of the memory behind the cache at power-up. */
  ghost function Contents(x: Trace): (flat: seq<G.Word>)
    requires Fits(x.u) && R.Initial(x.u.g, x.at(0).cache)
    ensures |flat| == x.u.g.Size()
  {
    R.StoreWords(x.u.g, x.at(0).cache.mem)
  }

  lemma StartLinked(x: Trace)
    requires IsCachedRun(x, 0)
    ensures Linked(x.u, Contents(x), x.at(0))
  {
    R.InitialFlat(x.u.g, x.at(0).cache);
    assert Requests(x.u, x.at(0).core.accepted) == [];
  }

  ghost function LinkedIn(u: Setup, flat: seq<G.Word>, at: nat -> Pair): nat -> bool
    requires Fits(u) && |flat| == u.g.Size()
  {
    (k: nat) => Linked(u, flat, at(k))
  }

  lemma LinkedAfter(x: Trace, flat: seq<G.Word>, k: nat)
    requires Fits(x.u) && |flat| == x.u.g.Size() && LoadsFrom(x.u, flat)
    requires CachedStep(x, k) && Linked(x.u, flat, x.at(k))
    ensures Linked(x.u, flat, x.at(k + 1))
  {
    LinkedNext(x.u, flat, x.at(k), x.memAck(k));
  }

  lemma RunLinked(x: Trace, n: nat)
    requires IsCachedRun(x, n) && LoadsFrom(x.u, Contents(x))
    ensures Linked(x.u, Contents(x), x.at(n))
  {
    var flat := Contents(x);
    StartLinked(x);
    forall k | 0 <= k < n && LinkedIn(x.u, flat, x.at)(k)
      ensures LinkedIn(x.u, flat, x.at)(k + 1)
    {
      LinkedAfter(x, flat, k);
    }
    Holds(LinkedIn(x.u, flat, x.at), n);
  }

  ghost function BusAt(x: Trace, k: nat): In {
    if I.Inv(x.u.g, x.at(k).cache) then BusOf(x.u, x.at(k)) else In(false, false, 0)
  }

  /** The core's part of the run. */
  ghost function CorePart(x: Trace): CoreRefinement.Trace {
    CoreRefinement.Trace(x.u.p, x.u.pc, x.u.c, (k: nat) => BusAt(x, k), (k: nat) => x.at(k).core)
  }

  lemma CorePartSteps(x: Trace, flat: seq<G.Word>, k: nat)
    requires Fits(x.u) && |flat| == x.u.g.Size() && LoadsFrom(x.u, flat)
    requires CachedStep(x, k) && Linked(x.u, flat, x.at(k))
    ensures StepsAt(CorePart(x), k)
  {
    CacheObeys(x.u, flat, x.at(k));
    CorePartAt(x, k);
  }

  /** The core's part of a step of the pair. */
  lemma CorePartAt(x: Trace, k: nat)
    requires Fits(x.u) && CachedStep(x, k)
    ensures CorePart(x).bus(k) == BusOf(x.u, x.at(k)) && CorePart(x).core(k) == x.at(k).core
    ensures CorePart(x).core(k + 1) == Cycle(x.u.p, x.u.c, x.at(k).core, BusOf(x.u, x.at(k)))
  {
  }

  lemma CorePartRuns(x: Trace, n: nat)
    requires IsCachedRun(x, n) && LoadsFrom(x.u, Contents(x))
    ensures IsRun(CorePart(x), n)
  {
    forall k | 0 <= k < n
      ensures StepsAt(CorePart(x), k)
    {
      RunLinked(x, k);
      CorePartSteps(x, Contents(x), k);
    }
  }

  /** The core with its cache is the ISA over flat memory, as long as no JALR taken has an odd sum: for every
      program, all configurations and geometries, and any wait states, the instructions with their
      operands, the register writes and the accesses are the ISA's, with every load from a flat memory
      that starts with the contents of the memory behind the cache. */
  lemma CachedCoreFollowsIsa(x: Trace, n: nat)
    requires IsCachedRun(x, n) && LoadsFrom(x.u, Contents(x))
    requires NoOddJump(x.u.p, Start(x.u.pc), TakenCount(CorePart(x), n))
    ensures var y := CorePart(x);
            var w := y.core(n);
            var s := IsaAfter(y.p, Start(y.pc), TakenCount(y, n));
            && TakenLog(y, n) == Joined(IsaEvents(y.p, Start(y.pc)), TakenCount(y, n))
            && CommitLog(y, n) + InFlight(y.p, w) == Joined(IsaWrites(y.p, Start(y.pc)), TakenCount(y, n))
            && ApplyAll(w.back.file.registers, InFlight(y.p, w)) == s.regs
            && w.accepted + Requested(w.back) == s.accesses
  {
    CorePartRuns(x, n);
    PipelineFollowsIsa(CorePart(x), n);
  }

  /** And what the cache and the memory behind it stand for is the flat memory after the core's accesses. */
  lemma CachedMemoryIsFlat(x: Trace, n: nat)
    requires IsCachedRun(x, n) && LoadsFrom(x.u, Contents(x))
    ensures I.Inv(x.u.g, x.at(n).cache)
    ensures R.FlatOf(x.u.g, x.at(n).cache) == F.FlatAfter(Contents(x), Requests(x.u, x.at(n).core.accepted))
  {
    RunLinked(x, n);
  }

  // ---- progress ----

  /** Cycles the core may still wait for its access, not counting the memory's wait states. */
  ghost function WaitLeft(u: Setup, s: Pair): nat
    requires I.Inv(u.g, s.cache)
  {
    if s.core.back.ls.enable then 2 * u.g.lineSize + 6 else R.Fuel(u.g, s.cache)
  }

  lemma FuelBound(g: G.Config, s: I.Sys)
    requires I.Inv(g, s)
    ensures R.Fuel(g, s) <= 2 * g.lineSize + 5
  {
  }

  /** A cycle in which the cache has a request or not. */
  lemma FuelFalls(g: G.Config, s: I.Sys, d: I.Drive)
    requires I.Inv(g, s) && I.Legal(g, s, d) && !d.en
    ensures I.Inv(g, I.SysStep(g, s, d))
    ensures R.Fuel(g, I.SysStep(g, s, d)) + (if s.r.bus.pending then 1 else 0)
         <= R.Fuel(g, s) + if R.WaitState(s, d) then 1 else 0
  {
    M.StepInv(g, s, d);
    if s.r.bus.pending {
      if s.r.master.enable {
        R.FuelBusy(g, s, d);
      } else {
        R.FuelRest(g, s, d);
      }
    }
  }

  /** What the core still has to wait falls in every cycle in which it waits. */
  lemma WaitFalls(u: Setup, flat: seq<G.Word>, s: Pair, memAck: bool)
    requires Fits(u) && |flat| == u.g.Size() && LoadsFrom(u, flat) && Linked(u, flat, s)
    requires memAck ==> s.cache.r.master.enable
    ensures I.Inv(u.g, PairStep(u, s, memAck).cache)
    ensures WaitLeft(u, PairStep(u, s, memAck)) + (if s.core.back.ls.outstanding && !BusOf(u, s).ack then 1 else 0)
         <= (if Taken(u.c, s.core.back) then 2 * u.g.lineSize + 6 else WaitLeft(u, s))
            + (if R.WaitState(s.cache, DriveOf(u, s, memAck)) then 1 else 0)
  {
    LinkedNext(u, flat, s, memAck);
    CacheObeys(u, flat, s);
    if s.core.back.ls.enable {
      CacheReady(u, flat, s);
      FuelBound(u.g, PairStep(u, s, memAck).cache);
    } else {
      FuelFalls(u.g, s.cache, DriveOf(u, s, memAck));
      PendingIsDue(u, flat, s);
    }
  }

  ghost function Left(u: Setup, s: Pair): nat {
    Distance(s.core) + if I.Inv(u.g, s.cache) then WaitLeft(u, s) else 0
  }

  ghost predicate WaitState(u: Setup, s: Pair, memAck: bool) {
    R.WaitState(s.cache, DriveOf(u, s, memAck))
  }

  lemma LeftStep(u: Setup, flat: seq<G.Word>, s: Pair, memAck: bool, state: State)
    requires Fits(u) && |flat| == u.g.Size() && LoadsFrom(u, flat) && Linked(u, flat, s)
    requires (memAck ==> s.cache.r.master.enable) && Inv(u.p, s.core, state)
    ensures Left(u, PairStep(u, s, memAck)) + 1
         <= (if Taken(u.c, s.core.back) then 2 * u.g.lineSize + 13 else Left(u, s))
            + (if WaitState(u, s, memAck) then 1 else 0)
  {
    CacheObeys(u, flat, s);
    WaitFalls(u, flat, s, memAck);
    DistanceFalls(u.p, u.c, s.core, BusOf(u, s), state);
  }

  ghost function LeftAt(x: Trace): nat -> nat {
    (k: nat) => Left(x.u, x.at(k))
  }

  ghost function WaitStates(x: Trace): nat -> bool {
    (k: nat) => WaitState(x.u, x.at(k), x.memAck(k))
  }

  lemma LeftFalls(x: Trace, n: nat)
    requires IsCachedRun(x, n) && LoadsFrom(x.u, Contents(x)) && CachedStep(x, n)
    ensures LeftAt(x)(n + 1) + 1
         <= (if TakenIn(CorePart(x))(n) then 2 * x.u.g.lineSize + 13 else LeftAt(x)(n))
            + (if WaitStates(x)(n) then 1 else 0)
  {
    RunLinked(x, n);
    CorePartRuns(x, n);
    RunInv(CorePart(x), n);
    LeftStep(x.u, Contents(x), x.at(n), x.memAck(n), InOrder(CorePart(x), n));
  }

  /** The core with its cache never hangs: an instruction accounts for at most two lines and 13 cycles,
      apart from the memory's wait states. */
  lemma CachedCoreNeverHangs(x: Trace, n: nat)
    requires IsCachedRun(x, n) && LoadsFrom(x.u, Contents(x))
    ensures n <= 4 + (2 * x.u.g.lineSize + 13) * TakenCount(CorePart(x), n) + Count(WaitStates(x), n)
  {
    forall k | 0 <= k < n
      ensures LeftAt(x)(k + 1) + 1
           <= (if TakenIn(CorePart(x))(k) then 2 * x.u.g.lineSize + 13 else LeftAt(x)(k))
              + (if WaitStates(x)(k) then 1 else 0)
    {
      assert CachedStep(x, k);
      LeftFalls(x, k);
    }
    Bounded(LeftAt(x), TakenIn(CorePart(x)), WaitStates(x), 2 * x.u.g.lineSize + 13, n);
  }

  // ---- runs exist ----

  /** The run with a memory that answers at once. */
  ghost function PromptAt(u: Setup, start: Pair, n: nat): (s: Pair)
    requires Fits(u) && I.Inv(u.g, start.cache)
    ensures I.Inv(u.g, s.cache)
  {
    if n == 0 then start
    else
      var s := PromptAt(u, start, n - 1);
      M.StepInv(u.g, s.cache, DriveOf(u, s, s.cache.r.master.enable));
      PairStep(u, s, s.cache.r.master.enable)
  }

  /** There are such runs for every program, all configurations and geometries, and all contents of
      the memory. */
  lemma CachedRunExists(u: Setup, q: S.Request, mem: I.Store, n: nat) returns (x: Trace)
    requires Fits(u) && q.adr < u.g.Size() && I.StoreShaped(u.g, mem)
    ensures x.u == u && x.at(0).cache.mem == mem && IsCachedRun(x, n)
  {
    R.RunsExist(u.g, q, mem, []);
    ghost var start := Pair(Boot(u.pc), I.Sys(S.PowerUp(u.g, q), mem));
    ghost var at := (k: nat) => PromptAt(u, start, k);
    x := Trace.Trace(u, (k: nat) => PromptAt(u, start, k).cache.r.master.enable, at);
    forall k | 0 <= k < n
      ensures CachedStep(x, k)
    {
      assert x.at(k + 1) == PromptAt(u, start, k + 1);
    }
  }
}
