/** The clocked cache with a memory behind it: what a CPU gets from it, edge by edge. */
module CacheSystem {
  import opened CacheGeometry
  import opened CacheStep
  import opened CacheInvariant
  import opened CacheMemory
  import opened CacheRefinement
  import opened FlatMemory
  import opened Cache
  import opened Sequences

  /** The inputs of a run are what the CPU drives, with the memory's words for the addresses given. */
  ghost predicate Driven(c: Config, s: Sys, ins: seq<In>, ds: seq<Drive>)
    requires Inv(c, s) && LegalRun(c, s, ds)
    decreases |ds|
  {
    if ds == [] then ins == []
    else
      StepInv(c, s, ds[0]);
      ins != [] && ins[0] == Inputs(c, s, ds[0]) && Driven(c, SysStep(c, s, ds[0]), ins[1..], ds[1..])
  }

  /** In the middle of a run: the words acknowledged so far and the rest of the run. */
  ghost predicate Serving(c: Config, start: Sys, ds: seq<Drive>, s: Sys, ins: seq<In>, rest: seq<Drive>, answers: seq<Word>)
    requires Inv(c, start) && LegalRun(c, start, ds)
  {
    && Inv(c, s) && LegalRun(c, s, rest) && Driven(c, s, ins, rest)
    && Run(c, s, rest) == Run(c, start, ds)
    && answers + Answers(c, s, rest) == Answers(c, start, ds)
  }

  lemma DrivenNext(c: Config, s: Sys, ins: seq<In>, rest: seq<Drive>)
    requires Inv(c, s) && LegalRun(c, s, rest) && Driven(c, s, ins, rest) && ins != []
    ensures rest != [] && Legal(c, s, rest[0]) && ins[0] == Inputs(c, s, rest[0])
    ensures Inv(c, SysStep(c, s, rest[0])) && LegalRun(c, SysStep(c, s, rest[0]), rest[1..])
    ensures Driven(c, SysStep(c, s, rest[0]), ins[1..], rest[1..])
  {
    StepInv(c, s, rest[0]);
  }

  lemma ServingNext(c: Config, start: Sys, ds: seq<Drive>, s: Sys, ins: seq<In>, rest: seq<Drive>,
                    answers: seq<Word>)
    requires Inv(c, start) && LegalRun(c, start, ds) && Serving(c, start, ds, s, ins, rest, answers) && ins != []
    ensures rest != [] && Legal(c, s, rest[0]) && ins[0] == Inputs(c, s, rest[0])
    ensures Serving(c, start, ds, SysStep(c, s, rest[0]), ins[1..], rest[1..], answers + Acked(c, s))
  {
    DrivenNext(c, s, ins, rest);
    FirstCycle(c, s, rest);
    Assoc(answers, Acked(c, s), Answers(c, SysStep(c, s, rest[0]), rest[1..]));
  }

  lemma ServingEnd(c: Config, start: Sys, ds: seq<Drive>, s: Sys, rest: seq<Drive>, answers: seq<Word>)
    requires Inv(c, start) && LegalRun(c, start, ds) && Serving(c, start, ds, s, [], rest, answers)
    ensures s == Run(c, start, ds) && answers == Answers(c, start, ds)
  {
    assert rest == [];
    assert answers + [] == answers;
  }

  class CachedMemory {
    const cache: CacheInstance
    ghost var memory: Store

    constructor (config: Config, request: Request, ghost memory: Store)
      requires config.Valid() && request.adr < config.Size() && StoreShaped(config, memory)
      ensures cache.config == config && this.memory == memory && cache.Valid() && Initial(config, State())
      ensures fresh(cache) && fresh(cache.slave) && fresh(cache.way) && fresh(cache.way.tagRam)
      ensures fresh(cache.way.tagRam.entries) && fresh(cache.ram) && fresh(cache.ram.cells) && fresh(cache.master)
    {
      cache := new CacheInstance(config, request);
      this.memory := memory;
    }

    ghost function State(): Sys
      reads this, cache, cache.slave, cache.way, cache.way.tagRam, cache.way.tagRam.entries
      reads cache.ram, cache.ram.cells, cache.master
    {
      Sys(cache.Registers(), memory)
    }

    method Clock(i: In, ghost d: Drive)
      requires cache.Valid() && Inv(cache.config, State()) && Legal(cache.config, State(), d)
      requires i == Inputs(cache.config, State(), d)
      modifies `memory, cache, cache.slave, cache.way, cache.way.tagRam, cache.way.tagRam.entries
      modifies cache.ram, cache.ram.cells, cache.master
      ensures cache.Valid() && State() == SysStep(cache.config, old(State()), d)
    {
      ghost var next := SysStep(cache.config, State(), d);
      cache.Clock(i);
      memory := next.mem;
    }

    /** The word on the read data lines, when it is acknowledged. */
    method Acknowledged() returns (word: seq<Word>)
      requires cache.Valid() && Inv(cache.config, State())
      ensures word == Acked(cache.config, State())
    {
      word := if cache.slave.ack then [cache.ram.slaveRd[cache.lane]] else [];
    }

    /** One edge of a run, with the word acknowledged before it. */
    method Edge(i: In, ghost start: Sys, ghost ds: seq<Drive>, ghost ins: seq<In>, ghost rest: seq<Drive>,
                ghost answers: seq<Word>)
      returns (word: seq<Word>)
      requires cache.Valid() && Inv(cache.config, start) && LegalRun(cache.config, start, ds)
      requires Serving(cache.config, start, ds, State(), ins, rest, answers) && ins != [] && i == ins[0]
      modifies `memory, cache, cache.slave, cache.way, cache.way.tagRam, cache.way.tagRam.entries
      modifies cache.ram, cache.ram.cells, cache.master
      ensures cache.Valid() && rest != []
      ensures Serving(cache.config, start, ds, State(), ins[1..], rest[1..], answers + word)
    {
      ServingNext(cache.config, start, ds, State(), ins, rest, answers);
      word := Acknowledged();
      Clock(i, rest[0]);
    }

    /** The edges of a run. */
    method Cycles(ins: seq<In>, ghost ds: seq<Drive>) returns (answers: seq<Word>)
      requires cache.Valid() && Inv(cache.config, State())
      requires LegalRun(cache.config, State(), ds) && Driven(cache.config, State(), ins, ds)
      modifies `memory, cache, cache.slave, cache.way, cache.way.tagRam, cache.way.tagRam.entries
      modifies cache.ram, cache.ram.cells, cache.master
      ensures cache.Valid() && State() == Run(cache.config, old(State()), ds)
      ensures answers == Answers(cache.config, old(State()), ds)
    {
      ghost var start, rest := State(), ds;
      answers := [];
      for k := 0 to |ins|
        invariant cache.Valid() && Serving(cache.config, start, ds, State(), ins[k..], rest, answers)
      {
        var word := Edge(ins[k], start, ds, ins[k..], rest, answers);
        assert ins[k..][1..] == ins[k + 1..];
        answers := answers + word;
        rest := rest[1..];
      }
      ServingEnd(cache.config, start, ds, State(), rest, answers);
    }

    /** From power-up: the words acknowledged during the run are, with one that may still be due, the
        answers of a flat memory to the requests the cache accepted. */
    method Serve(ins: seq<In>, ghost ds: seq<Drive>) returns (answers: seq<Word>)
      requires cache.Valid() && Initial(cache.config, State())
      requires LegalRun(cache.config, State(), ds) && Driven(cache.config, State(), ins, ds)
      modifies `memory, cache, cache.slave, cache.way, cache.way.tagRam, cache.way.tagRam.entries
      modifies cache.ram, cache.ram.cells, cache.master
      ensures cache.Valid() && State() == Run(cache.config, old(State()), ds) && |Due(cache.config, State())| <= 1
      ensures answers + Due(cache.config, State())
           == FlatAnswers(StoreWords(cache.config, old(memory)), Accepted(cache.config, old(State()), ds))
    {
      CacheIsFlatMemory(cache.config, State(), ds);
      answers := Cycles(ins, ds);
    }
  }
}
