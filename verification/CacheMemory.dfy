/** No clock edge changes the memory the CPU sees, except a write that hits. */
module CacheMemory {
  import opened CacheGeometry
  import opened CacheStep
  import opened CacheInvariant

  ghost predicate Formed(c: Config, s: Sys) {
    c.Valid() && Shaped(c, s.r) && StoreShaped(c, s.mem) && TagsOk(c, s.r.way)
  }

  /** The request being served in this cycle, if any, and where it points. */
  ghost function Served(c: Config, s: Sys, d: Drive): Request
    requires c.Valid()
  {
    Current(s.r, Inputs(c, s, d))
  }

  ghost predicate Hits(c: Config, s: Sys, d: Drive)
    requires c.Valid()
  {
    Hit(c, s.r, Inputs(c, s, d))
  }

  ghost predicate Serves(c: Config, s: Sys, d: Drive, l: Loc)
    requires c.Valid()
  {
    var a := Split(c, Served(c, s, d).adr);
    Hits(c, s, d) && l == Loc(a.tag, a.index, a.word)
  }

  /** What a step does to the visible word at `l`. */
  ghost predicate VisibleChanges(c: Config, s: Sys, d: Drive, l: Loc)
    requires Formed(c, s) && Legal(c, s, d) && Formed(c, SysStep(c, s, d)) && LocInRange(c, l)
  {
    var q := Served(c, s, d);
    var lane := Split(c, q.adr).lane;
    var was := VisibleAt(c, s, l);
    var now := VisibleAt(c, SysStep(c, s, d), l);
    if Serves(c, s, d, l) then lane < |was| && now == Written(was, lane, q) else now == was
  }

  lemma VisibleInBurst(c: Config, s: Sys, d: Drive, l: Loc)
    requires Inv(c, s) && Legal(c, s, d) && Formed(c, SysStep(c, s, d)) && LocInRange(c, l)
    requires s.r.master.enable && SysStep(c, s, d).r.master.enable
    ensures VisibleChanges(c, s, d, l)
    ensures Live(SysStep(c, s, d).r, l) <==> Live(s.r, l)
    ensures Live(s.r, l) && !s.r.way.tags[l.index].dirty ==> SysStep(c, s, d).mem[l] == s.mem[l]
  {
    BusyMiss(c, s, d);
    BurstStep(c, s, d);
    CellAfter(c, s, d, l.index, l.word);
    MemAfter(c, s, d, l);
  }

  lemma LastBeat(c: Config, s: Sys, d: Drive, l: Loc)
    requires Inv(c, s) && Legal(c, s, d) && Formed(c, SysStep(c, s, d)) && LocInRange(c, l)
    requires s.r.master.enable && !SysStep(c, s, d).r.master.enable
    ensures VisibleChanges(c, s, d, l)
    ensures Live(SysStep(c, s, d).r, l) && !SysStep(c, s, d).r.way.tags[l.index].dirty
        ==> VisibleAt(c, SysStep(c, s, d), l) == SysStep(c, s, d).mem[l]
  {
    var s' := SysStep(c, s, d);
    BusyMiss(c, s, d);
    BusyStep(c, s, d);
    EngineBeat(c, s.r.master, s.r.master.write, d.memAck);
    CellAfter(c, s, d, l.index, l.word);
    MemAfter(c, s, d, l);
    var tag := if s.r.master.write then s.r.way.buffer.address else PendingAdr(c, s.r).tag;
    BeatFills(c, s, d, tag, l.word);
    if l.index != s.r.way.bufferIndex && Live(s.r, l) && !s.r.way.tags[l.index].dirty {
      assert VisibleAt(c, s, l) == s.mem[l];
    }
  }

  /** Effect of a step on the tags while the engine rests. */
  lemma RestStep(c: Config, s: Sys, d: Drive)
    requires Inv(c, s) && Legal(c, s, d) && !s.r.master.enable
    ensures var i := Inputs(c, s, d);
            var s' := SysStep(c, s, d);
            && s'.mem == s.mem
            && s'.r.way.tags == (if Hits(c, s, d) && Served(c, s, d).we != NO_BYTES
                                 then s.r.way.tags[s.r.way.bufferIndex := s.r.way.buffer.(dirty := true)]
                                 else s.r.way.tags)
            && (s'.r.master.enable ==> !Hits(c, s, d) && s'.r.way.bufferIndex == s.r.way.bufferIndex
                                       && s'.r.master.write == s.r.way.buffer.dirty)
  {
    PortsInRange(c, s.r, Inputs(c, s, d));
  }

  lemma VisibleAtRest(c: Config, s: Sys, d: Drive, l: Loc)
    requires Inv(c, s) && Legal(c, s, d) && Formed(c, SysStep(c, s, d)) && LocInRange(c, l)
    requires !s.r.master.enable
    ensures VisibleChanges(c, s, d, l)
    ensures Live(SysStep(c, s, d).r, l) && !SysStep(c, s, d).r.way.tags[l.index].dirty
        ==> VisibleAt(c, SysStep(c, s, d), l) == SysStep(c, s, d).mem[l]
  {
    var s' := SysStep(c, s, d);
    var q := Served(c, s, d);
    RestStep(c, s, d);
    CellAfter(c, s, d, l.index, l.word);
    if Hits(c, s, d) {
      HitIsLive(c, s, d);
      var a := Split(c, q.adr);
      MaskedNone(s.r.ram.cells[Cell(c, l.index, l.word)][a.lane], q.data);
    }
    if Live(s.r, l) && !s.r.way.tags[l.index].dirty {
      assert VisibleAt(c, s, l) == s.mem[l];
    }
  }

  /** No refill, write-back or wait state changes a visible word; a hit changes just its own. */
  lemma VisibleAfter(c: Config, s: Sys, d: Drive, l: Loc)
    requires Inv(c, s) && Legal(c, s, d) && LocInRange(c, l)
    ensures Formed(c, SysStep(c, s, d)) && VisibleChanges(c, s, d, l)
    ensures var s' := SysStep(c, s, d);
            Live(s'.r, l) && !s'.r.way.tags[l.index].dirty ==> VisibleAt(c, s', l) == s'.mem[l]
  {
    StepShaped(c, s, d);
    if !s.r.master.enable {
      VisibleAtRest(c, s, d, l);
    } else if SysStep(c, s, d).r.master.enable {
      VisibleInBurst(c, s, d, l);
      BurstStep(c, s, d);
      if Live(s.r, l) && !s.r.way.tags[l.index].dirty {
        assert VisibleAt(c, s, l) == s.mem[l];
        BusyMiss(c, s, d);
      }
    } else {
      LastBeat(c, s, d, l);
    }
  }

  /** Every step keeps the invariant. */
  lemma StepInv(c: Config, s: Sys, d: Drive)
    requires Inv(c, s) && Legal(c, s, d)
    ensures Inv(c, SysStep(c, s, d))
  {
    var s' := SysStep(c, s, d);
    StepShaped(c, s, d);
    StepMaster(c, s, d);
    StepRefill(c, s, d);
    StepWriteBack(c, s, d);
    forall l | LocInRange(c, l) && Live(s'.r, l) && !s'.r.way.tags[l.index].dirty
      ensures VisibleAt(c, s', l) == s'.mem[l]
    {
      VisibleAfter(c, s, d, l);
    }
  }

  /** Why a line being refilled is left out of the visible memory: its tag entry may still name
      the replaced line while the words already copied are the new line's. */
  lemma StaleTagDuringRefill(c: Config, s: Sys, l: Loc)
    requires Formed(c, s) && BusOk(c, s.r) && MasterOk(c, s.r) && RefillOk(c, s) && LocInRange(c, l)
    requires Refilling(s.r, l.index) && l.word < s.r.master.masterOffset
    requires s.r.way.tags[l.index].valid && s.r.way.tags[l.index].address == l.tag
    ensures PendingAdr(c, s.r).tag != l.tag && PendingAdr(c, s.r).tag < c.tags
    ensures Filled(c, s, l.index, PendingAdr(c, s.r).tag, l.word)
    ensures VisibleAt(c, s, l) == s.mem[l]
  {
    PendingInRange(c, s);
  }
}
