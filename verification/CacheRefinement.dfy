/** Whole runs: the cache answers like one flat array of words. */
module CacheRefinement {
  import opened CacheGeometry
  import opened CacheStep
  import opened CacheInvariant
  import opened CacheMemory
  import opened FlatMemory
  import opened Sequences

  /** Power-up: no valid tag, nothing pending; the data RAM may hold anything. */
  ghost predicate Initial(c: Config, s: Sys): (initial: bool)
    ensures initial ==> Inv(c, s)
  {
    && c.Valid() && Shaped(c, s.r) && StoreShaped(c, s.mem)
    && (forall k :: 0 <= k < c.lines ==> s.r.way.tags[k] == EMPTY_TAG)
    && s.r.way.buffer == EMPTY_TAG && s.r.way.bufferIndex == 0
    && !s.r.bus.pending && !s.r.bus.ack
    && |s.r.ram.slaveRd| == c.mux && |s.r.ram.masterRd| == c.mux && s.r.ram.lane < c.mux
    && s.r.master == Master(Idle, false, false, false, 0, 0)
  }

  // ---- the abstract memory ----

  ghost function CpuLoc(c: Config, adr: nat): Loc
    requires c.Valid()
  {
    var a := Split(c, adr);
    Loc(a.tag, a.index, a.word)
  }

  /** The CPU word at `adr` that a read served now would return. */
  ghost function CpuWord(c: Config, s: Sys, adr: nat): Word
    requires Inv(c, s) && adr < c.Size()
  {
    ConcatSplit(c, adr);
    CellInRange(c, Split(c, adr).index, Split(c, adr).word);
    VisibleAt(c, s, CpuLoc(c, adr))[Split(c, adr).lane]
  }

  /** The words of the memory behind the cache. */
  ghost function StoreWord(c: Config, mem: Store, adr: nat): Word
    requires c.Valid() && StoreShaped(c, mem) && adr < c.Size()
  {
    ConcatSplit(c, adr);
    mem[CpuLoc(c, adr)][Split(c, adr).lane]
  }

  ghost function StoreWords(c: Config, mem: Store): seq<Word>
    requires c.Valid() && StoreShaped(c, mem)
  {
    seq(c.Size(), adr requires 0 <= adr < c.Size() => StoreWord(c, mem, adr))
  }

  /** The flat memory a state stands for: a waiting write has already happened in it. */
  ghost function FlatWord(c: Config, s: Sys, adr: nat): Word
    requires Inv(c, s) && adr < c.Size()
  {
    var q := s.r.bus.saved;
    if s.r.bus.pending && adr == q.adr then Masked(CpuWord(c, s, adr), q.we, q.data) else CpuWord(c, s, adr)
  }

  ghost function FlatOf(c: Config, s: Sys): seq<Word>
    requires Inv(c, s)
  {
    seq(c.Size(), adr requires 0 <= adr < c.Size() => FlatWord(c, s, adr))
  }

  /** Where the words of the memory behind the cache are in the flat one. */
  lemma StoreWordsAt(c: Config, mem: Store, a: Adr, adr: nat)
    requires c.Valid() && StoreShaped(c, mem) && InRange(c, a)
    requires adr == ((a.tag * c.lines + a.index) * c.lineSize + a.word) * c.mux + a.lane
    ensures adr < |StoreWords(c, mem)| && Loc(a.tag, a.index, a.word) in mem
    ensures a.lane < |mem[Loc(a.tag, a.index, a.word)]|
    ensures StoreWords(c, mem)[adr] == mem[Loc(a.tag, a.index, a.word)][a.lane]
  {
    SplitConcat(c, a);
  }

  // ---- what the CPU sends and receives ----

  ghost predicate Accepts(s: Sys, d: Drive) {
    d.en && !s.r.bus.pending
  }

  /** Answers still to be given: the one on the bus now, and the waiting request's. */
  ghost function Due(c: Config, s: Sys): seq<Word>
    requires Inv(c, s)
  {
    Acked(c, s) + Owed(c, s)
  }

  ghost function Owed(c: Config, s: Sys): seq<Word>
    requires Inv(c, s)
  {
    if s.r.bus.pending then [CpuWord(c, s, s.r.bus.saved.adr)] else []
  }

  ghost function Acked(c: Config, s: Sys): seq<Word>
    requires Inv(c, s)
  {
    if s.r.bus.ack then [ReadData(s.r)] else []
  }

  lemma SameWord(c: Config, adr: nat, adr': nat)
    requires c.Valid() && adr < c.Size() && adr' < c.Size()
    requires CpuLoc(c, adr) == CpuLoc(c, adr') && Split(c, adr).lane == Split(c, adr').lane
    ensures adr == adr'
  {
    ConcatSplit(c, adr);
    ConcatSplit(c, adr');
  }

  /** A step changes the CPU's view at the address of a hit only, by that request's write. */
  lemma CpuWordAfter(c: Config, s: Sys, d: Drive, adr: nat)
    requires Inv(c, s) && Legal(c, s, d) && adr < c.Size()
    ensures Inv(c, SysStep(c, s, d))
    ensures var q := Served(c, s, d);
            CpuWord(c, SysStep(c, s, d), adr) ==
              if Hits(c, s, d) && adr == q.adr then Masked(CpuWord(c, s, adr), q.we, q.data) else CpuWord(c, s, adr)
  {
    StepInv(c, s, d);
    ConcatSplit(c, adr);
    var l := CpuLoc(c, adr);
    CellInRange(c, l.index, l.word);
    VisibleAfter(c, s, d, l);
    var q := Served(c, s, d);
    if Hits(c, s, d) && l == CpuLoc(c, q.adr) && Split(c, adr).lane == Split(c, q.adr).lane {
      SameWord(c, adr, q.adr);
    }
  }

  /** The word a hit puts on the read data lines. */
  lemma HitReads(c: Config, s: Sys, d: Drive)
    requires Inv(c, s) && Legal(c, s, d) && Hits(c, s, d)
    ensures Inv(c, SysStep(c, s, d))
    ensures ReadData(SysStep(c, s, d).r) == CpuWord(c, s, Served(c, s, d).adr)
  {
    StepInv(c, s, d);
    HitIsLive(c, s, d);
    PortsInRange(c, s.r, Inputs(c, s, d));
    ConcatSplit(c, Served(c, s, d).adr);
  }

  lemma FlatStep(c: Config, s: Sys, d: Drive)
    requires Inv(c, s) && Legal(c, s, d)
    ensures Inv(c, SysStep(c, s, d))
    ensures FlatOf(c, SysStep(c, s, d)) == if Accepts(s, d) then FlatWrite(FlatOf(c, s), d.request) else FlatOf(c, s)
  {
    StepInv(c, s, d);
    var s' := SysStep(c, s, d);
    var expected := if Accepts(s, d) then FlatWrite(FlatOf(c, s), d.request) else FlatOf(c, s);
    forall adr: nat | adr < c.Size()
      ensures FlatOf(c, s')[adr] == expected[adr]
    {
      CpuWordAfter(c, s, d, adr);
    }
  }

  /** The answer a request is owed does not change while it waits. */
  lemma WaitingWord(c: Config, s: Sys, d: Drive)
    requires Inv(c, s) && Legal(c, s, d)
    ensures Inv(c, SysStep(c, s, d))
    ensures var q := SysStep(c, s, d).r.bus;
            q.pending ==> CpuWord(c, SysStep(c, s, d), q.saved.adr) == CpuWord(c, s, q.saved.adr)
  {
    StepInv(c, s, d);
    if SysStep(c, s, d).r.bus.pending {
      CpuWordAfter(c, s, d, SysStep(c, s, d).r.bus.saved.adr);
    }
  }

  /** The answer flat memory gives to the request taken in this cycle. */
  ghost function Asked(c: Config, s: Sys, d: Drive): seq<Word>
    requires Inv(c, s) && Legal(c, s, d)
  {
    if Accepts(s, d) then [FlatOf(c, s)[d.request.adr]] else []
  }

  lemma OwedStep(c: Config, s: Sys, d: Drive)
    requires Inv(c, s) && Legal(c, s, d)
    ensures Inv(c, SysStep(c, s, d))
    ensures Owed(c, s) + Asked(c, s, d) == Due(c, SysStep(c, s, d))
  {
    WaitingWord(c, s, d);
    if Hits(c, s, d) {
      HitReads(c, s, d);
    }
  }

  lemma DueStep(c: Config, s: Sys, d: Drive)
    requires Inv(c, s) && Legal(c, s, d)
    ensures Inv(c, SysStep(c, s, d))
    ensures Due(c, s) + Asked(c, s, d) == Acked(c, s) + Due(c, SysStep(c, s, d))
  {
    OwedStep(c, s, d);
    Assoc(Acked(c, s), Owed(c, s), Asked(c, s, d));
  }

  // ---- runs ----

  ghost predicate LegalRun(c: Config, s: Sys, ds: seq<Drive>)
    requires Inv(c, s)
    decreases |ds|
  {
    ds == [] || (Legal(c, s, ds[0]) && (StepInv(c, s, ds[0]); LegalRun(c, SysStep(c, s, ds[0]), ds[1..])))
  }

  ghost function Run(c: Config, s: Sys, ds: seq<Drive>): (s': Sys)
    requires Inv(c, s) && LegalRun(c, s, ds)
    ensures Inv(c, s')
    decreases |ds|
  {
    if ds == [] then s else StepInv(c, s, ds[0]); Run(c, SysStep(c, s, ds[0]), ds[1..])
  }

  /** The requests taken, in order: those offered in a cycle that is not stalled. */
  ghost function Accepted(c: Config, s: Sys, ds: seq<Drive>): (qs: seq<Request>)
    requires Inv(c, s) && LegalRun(c, s, ds)
    ensures forall k :: 0 <= k < |qs| ==> qs[k].adr < c.Size()
    decreases |ds|
  {
    if ds == [] then []
    else
      StepInv(c, s, ds[0]);
      (if Accepts(s, ds[0]) then [ds[0].request] else []) + Accepted(c, SysStep(c, s, ds[0]), ds[1..])
  }

  /** The read data of every acknowledged cycle, in order. */
  ghost function Answers(c: Config, s: Sys, ds: seq<Drive>): seq<Word>
    requires Inv(c, s) && LegalRun(c, s, ds)
    decreases |ds|
  {
    if ds == [] then [] else StepInv(c, s, ds[0]); Acked(c, s) + Answers(c, SysStep(c, s, ds[0]), ds[1..])
  }

  /** What the first cycle of a run contributes. */
  lemma FirstCycle(c: Config, s: Sys, ds: seq<Drive>)
    requires Inv(c, s) && LegalRun(c, s, ds) && ds != []
    ensures var s' := SysStep(c, s, ds[0]);
            && Inv(c, s') && LegalRun(c, s', ds[1..]) && Run(c, s, ds) == Run(c, s', ds[1..])
            && Accepted(c, s, ds) == (if Accepts(s, ds[0]) then [ds[0].request] else []) + Accepted(c, s', ds[1..])
            && Answers(c, s, ds) == Acked(c, s) + Answers(c, s', ds[1..])
  {
    StepInv(c, s, ds[0]);
  }

  /** The flat memory's view of the same cycle. */
  lemma {:induction false} FlatCycle(c: Config, s: Sys, d: Drive, rest: seq<Request>)
    requires Inv(c, s) && Legal(c, s, d) && Inv(c, SysStep(c, s, d))
    requires forall k :: 0 <= k < |rest| ==> rest[k].adr < c.Size()
    ensures var taken := if Accepts(s, d) then [d.request] else [];
            && FlatAnswers(FlatOf(c, s), taken + rest) == Asked(c, s, d) + FlatAnswers(FlatOf(c, SysStep(c, s, d)), rest)
            && FlatAfter(FlatOf(c, s), taken + rest) == FlatAfter(FlatOf(c, SysStep(c, s, d)), rest)
  {
    FlatStep(c, s, d);
    if Accepts(s, d) {
      FlatFirst(FlatOf(c, s), d.request, rest);
    } else {
      assert [] + rest == rest;
    }
  }

  lemma {:induction false} RunAnswers(c: Config, s: Sys, ds: seq<Drive>)
    requires Inv(c, s) && LegalRun(c, s, ds)
    ensures Due(c, s) + FlatAnswers(FlatOf(c, s), Accepted(c, s, ds)) == Answers(c, s, ds) + Due(c, Run(c, s, ds))
    decreases |ds|
  {
    if ds == [] {
      assert Due(c, s) + [] == [] + Due(c, s);
    } else {
      FirstCycle(c, s, ds);
      DueStep(c, s, ds[0]);
      var s' := SysStep(c, s, ds[0]);
      RunAnswers(c, s', ds[1..]);
      var rest := Accepted(c, s', ds[1..]);
      FlatCycle(c, s, ds[0], rest);
      Rotate(Due(c, s), Asked(c, s, ds[0]), FlatAnswers(FlatOf(c, s'), rest),
            Acked(c, s), Due(c, s'), Answers(c, s', ds[1..]), Due(c, Run(c, s', ds[1..])));
    }
  }

  lemma {:induction false} RunContents(c: Config, s: Sys, ds: seq<Drive>)
    requires Inv(c, s) && LegalRun(c, s, ds)
    ensures FlatOf(c, Run(c, s, ds)) == FlatAfter(FlatOf(c, s), Accepted(c, s, ds))
    decreases |ds|
  {
    if ds == [] {
    } else {
      FirstCycle(c, s, ds);
      var s' := SysStep(c, s, ds[0]);
      RunContents(c, s', ds[1..]);
      FlatCycle(c, s, ds[0], Accepted(c, s', ds[1..]));
    }
  }

  /** The CPU's lines of a run, with a memory that answers at once. */
  ghost function Prompt(c: Config, s: Sys, lines: seq<Drive>): seq<Drive>
    requires Inv(c, s) && forall k :: 0 <= k < |lines| ==> lines[k].request.adr < c.Size()
    decreases |lines|
  {
    if lines == [] then []
    else
      var d := lines[0].(memAck := s.r.master.enable);
      StepInv(c, s, d);
      [d] + Prompt(c, SysStep(c, s, d), lines[1..])
  }

  /** There are initial states for every geometry and memory, and from there a run for everything
      the CPU can do. */
  lemma {:induction false} RunsExist(c: Config, q: Request, mem: Store, lines: seq<Drive>)
    requires c.Valid() && q.adr < c.Size() && StoreShaped(c, mem)
    requires forall k :: 0 <= k < |lines| ==> lines[k].request.adr < c.Size()
    ensures var s := Sys(PowerUp(c, q), mem);
            Initial(c, s) && LegalRun(c, s, Prompt(c, s, lines))
  {
    PromptLegal(c, Sys(PowerUp(c, q), mem), lines);
  }

  lemma {:induction false} PromptLegal(c: Config, s: Sys, lines: seq<Drive>)
    requires Inv(c, s) && forall k :: 0 <= k < |lines| ==> lines[k].request.adr < c.Size()
    ensures LegalRun(c, s, Prompt(c, s, lines))
    decreases |lines|
  {
    if lines == [] {
    } else {
      var d := lines[0].(memAck := s.r.master.enable);
      StepInv(c, s, d);
      PromptLegal(c, SysStep(c, s, d), lines[1..]);
      assert Prompt(c, s, lines)[1..] == Prompt(c, SysStep(c, s, d), lines[1..]);
    }
  }

  lemma InitialFlat(c: Config, s: Sys)
    requires Initial(c, s)
    ensures FlatOf(c, s) == StoreWords(c, s.mem) && Due(c, s) == []
  {
    forall adr: nat | adr < c.Size()
      ensures FlatWord(c, s, adr) == StoreWord(c, s.mem, adr)
    {
      ConcatSplit(c, adr);
      assert !Live(s.r, CpuLoc(c, adr));
    }
  }

  /** From power-up, for every stream of requests and every pattern of wait states, the
      acknowledges carry, one for one and in order, the answers of a flat memory that starts
      with the contents of the memory behind the cache and gets the same requests; at most the
      last accepted request is still unanswered.  Byte for byte: an answer holds what the last earlier
      write of that byte wrote, or what the memory held at power-up. */
  lemma CacheIsFlatMemory(c: Config, s: Sys, ds: seq<Drive>)
    requires Initial(c, s) && LegalRun(c, s, ds)
    ensures var qs := Accepted(c, s, ds);
            var due := Due(c, Run(c, s, ds));
            && Answers(c, s, ds) + due == FlatAnswers(StoreWords(c, s.mem), qs)
            && |due| <= 1
            && FlatOf(c, Run(c, s, ds)) == FlatAfter(StoreWords(c, s.mem), qs)
            && |Answers(c, s, ds) + due| == |qs|
            && forall n, k :: 0 <= n < |qs| && 0 <= k < 4 ==>
                 ByteAfter(StoreWords(c, s.mem), qs, n, qs[n].adr, k, (Answers(c, s, ds) + due)[n][k])
  {
    AnswersBytes(StoreWords(c, s.mem), Accepted(c, s, ds));
    InitialFlat(c, s);
    RunAnswers(c, s, ds);
    RunContents(c, s, ds);
    var answers := FlatAnswers(FlatOf(c, s), Accepted(c, s, ds));
    assert [] + answers == answers;
  }

  // ---- which requests are accepted ----

  /** One more cycle at the end of a run. */
  ghost predicate OneMore(c: Config, s: Sys, ds: seq<Drive>, d: Drive)
    requires Inv(c, s) && LegalRun(c, s, ds + [d])
  {
    && LegalRun(c, s, ds) && Legal(c, Run(c, s, ds), d)
    && Accepted(c, s, ds + [d]) == Accepted(c, s, ds) + (if Accepts(Run(c, s, ds), d) then [d.request] else [])
    && Answers(c, s, ds + [d]) == Answers(c, s, ds) + Acked(c, Run(c, s, ds))
  }

  lemma OneMoreAtStart(c: Config, s: Sys, d: Drive)
    requires Inv(c, s) && LegalRun(c, s, [] + [d])
    ensures OneMore(c, s, [], d)
  {
    assert [] + [d] == [d];
    FirstCycle(c, s, [d]);
    assert [d][1..] == [];
    assert Acked(c, s) + [] == [] + Acked(c, s);
  }

  lemma OneMoreBefore(c: Config, s: Sys, s': Sys, ds: seq<Drive>, rest: seq<Drive>, d: Drive)
    requires Inv(c, s) && ds != [] && rest == ds[1..] && LegalRun(c, s, ds + [d]) && LegalRun(c, s, ds)
    requires s' == SysStep(c, s, ds[0]) && Inv(c, s') && LegalRun(c, s', rest + [d]) && OneMore(c, s', rest, d)
    ensures OneMore(c, s, ds, d)
  {
    assert (ds + [d])[0] == ds[0] && (ds + [d])[1..] == rest + [d];
    FirstCycle(c, s, ds);
    FirstCycle(c, s, ds + [d]);
    assert Run(c, s, ds) == Run(c, s', rest);
    Assoc(if Accepts(s, ds[0]) then [ds[0].request] else [], Accepted(c, s', rest),
          if Accepts(Run(c, s', rest), d) then [d.request] else []);
    Assoc(Acked(c, s), Answers(c, s', rest), Acked(c, Run(c, s', rest)));
  }

  lemma {:induction false} RunSnoc(c: Config, s: Sys, ds: seq<Drive>, d: Drive)
    requires Inv(c, s) && LegalRun(c, s, ds + [d])
    ensures OneMore(c, s, ds, d)
    decreases |ds|
  {
    if ds == [] {
      OneMoreAtStart(c, s, d);
    } else {
      FirstCycle(c, s, ds + [d]);
      assert (ds + [d])[1..] == ds[1..] + [d];
      var s' := SysStep(c, s, ds[0]);
      RunSnoc(c, s', ds[1..], d);
      OneMoreBefore(c, s, s', ds, ds[1..], d);
    }
  }

  /** A request is accepted in the cycle that offers it exactly if every earlier one has been
      acknowledged by then, and the stall line tells the CPU. */
  lemma AcceptedIffAnswered(c: Config, s: Sys, ds: seq<Drive>, d: Drive)
    requires Initial(c, s) && LegalRun(c, s, ds + [d])
    ensures LegalRun(c, s, ds)
    ensures Accepted(c, s, ds + [d]) ==
              Accepted(c, s, ds) + if d.en && |Answers(c, s, ds + [d])| == |Accepted(c, s, ds)| then [d.request] else []
    ensures Stall(Run(c, s, ds).r, d.en) <==> d.en && Accepted(c, s, ds + [d]) == Accepted(c, s, ds)
  {
    RunSnoc(c, s, ds, d);
    CacheIsFlatMemory(c, s, ds);
  }

  // ---- cost and progress ----

  ghost predicate Present(c: Config, r: Regs, adr: nat)
    requires c.Valid() && Shaped(c, r) && adr < c.Size()
  {
    ConcatSplit(c, adr);
    var a := Split(c, adr);
    r.way.tags[a.index].valid && r.way.tags[a.index].address == a.tag
  }

  /** Memory beats needed to bring in the line of `adr`: none when present, one line when the
      line it replaces is clean, two lines when it is dirty. */
  ghost function Cost(c: Config, r: Regs, adr: nat): nat
    requires c.Valid() && Shaped(c, r) && adr < c.Size()
  {
    ConcatSplit(c, adr);
    if Present(c, r, adr) then 0
    else if r.way.tags[Split(c, adr).index].dirty then 2 * c.lineSize
    else c.lineSize
  }

  /** Beats the waiting request still needs. */
  ghost function BeatsOwed(c: Config, s: Sys): nat
    requires Inv(c, s)
  {
    if !s.r.bus.pending then 0 else Cost(c, s.r, s.r.bus.saved.adr) - s.r.master.masterOffset
  }

  lemma BeatBusy(c: Config, s: Sys, d: Drive)
    requires Inv(c, s) && Legal(c, s, d) && s.r.master.enable
    requires Inv(c, SysStep(c, s, d))
    ensures BeatsOwed(c, SysStep(c, s, d)) + (if d.memAck then 1 else 0) == BeatsOwed(c, s)
  {
    var s' := SysStep(c, s, d);
    PendingInRange(c, s);
    BusyStep(c, s, d);
    EngineBeat(c, s.r.master, s.r.master.write, d.memAck);
    if s'.r.master.enable {
      BurstStep(c, s, d);
    }
  }

  lemma BeatRest(c: Config, s: Sys, d: Drive)
    requires Inv(c, s) && Legal(c, s, d) && !s.r.master.enable
    requires Inv(c, SysStep(c, s, d))
    ensures BeatsOwed(c, SysStep(c, s, d)) == BeatsOwed(c, s) + if Accepts(s, d) then Cost(c, s.r, d.request.adr) else 0
  {
    PendingInRange(c, s);
    ConcatSplit(c, d.request.adr);
    EngineStart(c, s, d);
    RestStep(c, s, d);
  }

  /** Beats are conserved: each acknowledged beat pays for a request that was taken. */
  lemma BeatStep(c: Config, s: Sys, d: Drive)
    requires Inv(c, s) && Legal(c, s, d)
    ensures Inv(c, SysStep(c, s, d))
    ensures BeatsOwed(c, SysStep(c, s, d)) + (if d.memAck then 1 else 0)
         == BeatsOwed(c, s) + if Accepts(s, d) then Cost(c, s.r, d.request.adr) else 0
  {
    StepInv(c, s, d);
    if s.r.master.enable {
      BeatBusy(c, s, d);
    } else {
      BeatRest(c, s, d);
    }
  }

  ghost function Beats(ds: seq<Drive>): nat
    decreases |ds|
  {
    if ds == [] then 0 else (if ds[0].memAck then 1 else 0) + Beats(ds[1..])
  }

  /** What the accepted requests cost, each priced when it is taken. */
  ghost function Costs(c: Config, s: Sys, ds: seq<Drive>): nat
    requires Inv(c, s) && LegalRun(c, s, ds)
    decreases |ds|
  {
    if ds == [] then 0
    else
      StepInv(c, s, ds[0]);
      (if Accepts(s, ds[0]) then Cost(c, s.r, ds[0].request.adr) else 0) + Costs(c, SysStep(c, s, ds[0]), ds[1..])
  }

  /** Over any run the memory sees exactly the beats the misses cost: a hit none, a clean miss
      `lineSize`, a dirty miss twice that. */
  lemma {:induction false} BeatsAreCosts(c: Config, s: Sys, ds: seq<Drive>)
    requires Inv(c, s) && LegalRun(c, s, ds)
    ensures Beats(ds) + BeatsOwed(c, Run(c, s, ds)) == BeatsOwed(c, s) + Costs(c, s, ds)
    decreases |ds|
  {
    if ds == [] {
    } else {
      BeatStep(c, s, ds[0]);
      BeatsAreCosts(c, SysStep(c, s, ds[0]), ds[1..]);
    }
  }

  /** Cycles until the waiting request is served if no more wait states come. */
  ghost function Fuel(c: Config, s: Sys): nat
    requires Inv(c, s)
  {
    var m := s.r.master;
    if !s.r.bus.pending then 0
    else if m.enable then
      c.lineSize - m.masterOffset + (if m.write then c.lineSize + 3 else 1)
    else if Present(c, s.r, s.r.bus.saved.adr) then 1
    else
      (if m.phase == Retire then 1 else 0)
      + (if s.r.way.buffer.dirty then 2 * c.lineSize + 4 else c.lineSize + 2)
  }

  ghost predicate WaitState(s: Sys, d: Drive) {
    s.r.master.enable && !d.memAck
  }

  lemma FuelBusy(c: Config, s: Sys, d: Drive)
    requires Inv(c, s) && Legal(c, s, d) && s.r.master.enable
    requires Inv(c, SysStep(c, s, d))
    ensures SysStep(c, s, d).r.bus.pending
    ensures Fuel(c, SysStep(c, s, d)) + (if WaitState(s, d) then 0 else 1) == Fuel(c, s)
  {
    var s' := SysStep(c, s, d);
    PendingInRange(c, s);
    BusyStep(c, s, d);
    EngineBeat(c, s.r.master, s.r.master.write, d.memAck);
    if s'.r.master.enable {
      BurstStep(c, s, d);
    }
  }

  lemma FuelRest(c: Config, s: Sys, d: Drive)
    requires Inv(c, s) && Legal(c, s, d) && !s.r.master.enable && s.r.bus.pending
    requires Inv(c, SysStep(c, s, d))
    ensures Fuel(c, SysStep(c, s, d)) + 1 == Fuel(c, s)
    ensures SysStep(c, s, d).r.bus.pending || SysStep(c, s, d).r.bus.ack
  {
    PendingInRange(c, s);
    EngineStart(c, s, d);
    RestStep(c, s, d);
  }

  ghost function Waits(c: Config, s: Sys, ds: seq<Drive>): nat
    requires Inv(c, s) && LegalRun(c, s, ds)
    decreases |ds|
  {
    if ds == [] then 0
    else
      StepInv(c, s, ds[0]);
      (if WaitState(s, ds[0]) then 1 else 0) + Waits(c, SysStep(c, s, ds[0]), ds[1..])
  }

  /** The same request waits in every cycle of the run and at its end. */
  ghost predicate StaysPending(c: Config, s: Sys, ds: seq<Drive>)
    requires Inv(c, s) && LegalRun(c, s, ds)
    decreases |ds|
  {
    s.r.bus.pending && (ds == [] || (StepInv(c, s, ds[0]); StaysPending(c, SysStep(c, s, ds[0]), ds[1..])))
  }

  /** No request waits forever: besides wait states, a request waits fewer than
      2 * lineSize + 5 cycles, and the wait ends with its acknowledge. */
  lemma {:induction false} WaitIsBounded(c: Config, s: Sys, ds: seq<Drive>)
    requires Inv(c, s) && LegalRun(c, s, ds) && StaysPending(c, s, ds)
    ensures |ds| + Fuel(c, Run(c, s, ds)) == Fuel(c, s) + Waits(c, s, ds)
    ensures 1 <= Fuel(c, Run(c, s, ds)) && |ds| < 2 * c.lineSize + 5 + Waits(c, s, ds)
    decreases |ds|
  {
    if ds == [] {
    } else {
      StepInv(c, s, ds[0]);
      if s.r.master.enable {
        FuelBusy(c, s, ds[0]);
      } else {
        FuelRest(c, s, ds[0]);
      }
      WaitIsBounded(c, SysStep(c, s, ds[0]), ds[1..]);
    }
  }
}
