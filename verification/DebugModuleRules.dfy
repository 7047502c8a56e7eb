/** The busy and error rules of abstract commands (section 3.14.6 of the RISC-V Debug
    Specification 1.0) over whole runs.
 */
module DebugModuleRules {
  import opened Arithmetic
  import opened DebugModule

  datatype Cycle = Cycle(h: Hart, a: Access)

  function Run(c: Config, r: Regs, cs: seq<Cycle>): (r': Regs)
    requires c.Valid() && Shaped(c, r)
    ensures Shaped(c, r')
    decreases |cs|
  {
    if cs == [] then r else Run(c, Step(c, r, cs[0].h, cs[0].a), cs[1..])
  }

  /** The module is active in every cycle. */
  ghost predicate Active(c: Config, r: Regs, cs: seq<Cycle>)
    requires c.Valid() && Shaped(c, r)
    decreases |cs|
  {
    cs != [] ==> r.dmactive && Active(c, Step(c, r, cs[0].h, cs[0].a), cs[1..])
  }

  /** A command is busy in every cycle. */
  ghost predicate BusyAll(c: Config, r: Regs, cs: seq<Cycle>)
    requires c.Valid() && Shaped(c, r)
    decreases |cs|
  {
    cs != [] ==> Busy(r, cs[0].h) && BusyAll(c, Step(c, r, cs[0].h, cs[0].a), cs[1..])
  }

  /** data0 after the results the command itself delivers. */
  function WithResults(data: seq<U32>, cs: seq<Cycle>): seq<U32>
    requires |data| >= 1
    decreases |cs|
  {
    if cs == [] then data
    else WithResults(if cs[0].h.command == RegValid then data[0 := cs[0].h.result] else data, cs[1..])
  }

  lemma BusyStep(c: Config, r: Regs, y: Cycle)
    requires c.Valid() && Shaped(c, r) && r.dmactive && Busy(r, y.h)
    ensures Step(c, r, y.h, y.a).shared ==
      if y.h.command == RegValid then r.shared.(data := r.shared.data[0 := y.h.result]) else r.shared
  {
  }

  /** While a command is busy nothing the debugger does changes the data, program buffer,
      autoexec or command registers: only the command's own result reaches data0. */
  lemma {:induction false} BusyFreezes(c: Config, r: Regs, cs: seq<Cycle>)
    requires c.Valid() && Shaped(c, r) && Active(c, r, cs) && BusyAll(c, r, cs)
    ensures Run(c, r, cs).shared == r.shared.(data := WithResults(r.shared.data, cs))
    decreases |cs|
  {
    if cs == [] {
    } else {
      BusyStep(c, r, cs[0]);
      BusyFreezes(c, Step(c, r, cs[0].h, cs[0].a), cs[1..]);
    }
  }

  /** The accesses that may clear an error: writes of ones to abstractcs.cmderr while idle. */
  predicate Clears(r: Regs, y: Cycle) {
    y.a.Write? && y.a.adr == ABSTRACTCS && !Busy(r, y.h) && Field(y.a.data, 11, 8) % 8 != 0
  }

  ghost predicate NeverClears(c: Config, r: Regs, cs: seq<Cycle>)
    requires c.Valid() && Shaped(c, r)
    decreases |cs|
  {
    cs != [] ==> !Clears(r, cs[0]) && NeverClears(c, Step(c, r, cs[0].h, cs[0].a), cs[1..])
  }

  lemma ClearNothing(cmderr: nat, mask: nat)
    requires cmderr < 8 && mask < 8
    ensures mask == 0 ==> ClearErr(cmderr, mask) == cmderr
    ensures ClearErr(cmderr, mask) <= cmderr
  {
  }

  /** What a nonzero error becomes in one cycle: bits written as ones while idle are cleared. */
  lemma ErrorKept(c: Config, r: Regs, y: Cycle)
    requires c.Valid() && Shaped(c, r) && r.dmactive && 0 < r.cmderr < 8
    ensures Step(c, r, y.h, y.a).cmderr == if Clears(r, y) then ClearErr(r.cmderr, Field(y.a.data, 11, 8)) else r.cmderr
  {
    if y.a.Write? && y.a.adr == ABSTRACTCS {
      assert Pow2(11 - 8) == 8;
      ClearNothing(r.cmderr, Field(y.a.data, 11, 8));
    }
  }

  lemma ErrorBlocks(c: Config, r: Regs, y: Cycle)
    requires c.Valid() && Shaped(c, r) && r.dmactive && r.cmderr != ERR_NONE
    ensures var r' := Step(c, r, y.h, y.a);
            (r'.launch ==> r.launch) && r'.shared.command == r.shared.command
  {
  }

  /** An error stays until the debugger clears it while idle, and as long as it stays no command
      is launched and the command registers keep the command that failed. */
  lemma {:induction false} ErrorIsSticky(c: Config, r: Regs, cs: seq<Cycle>)
    requires c.Valid() && Shaped(c, r) && Active(c, r, cs) && NeverClears(c, r, cs)
    requires 0 < r.cmderr < 8
    ensures var r' := Run(c, r, cs);
            && r'.cmderr == r.cmderr && (r'.launch ==> r.launch) && r'.shared.command == r.shared.command
    decreases |cs|
  {
    if cs == [] {
    } else {
      ErrorKept(c, r, cs[0]);
      ErrorBlocks(c, r, cs[0]);
      ErrorIsSticky(c, Step(c, r, cs[0].h, cs[0].a), cs[1..]);
    }
  }

  /** Accesses that ask for a command: a supported command written, or a data or program buffer
      register whose autoexec flag is set. */
  predicate Asks(c: Config, r: Regs, a: Access)
    requires c.Valid() && Shaped(c, r)
  {
    match a
    case NoAccess => false
    case Read(adr) =>
      IsWindow(c, adr) && adr != DMCONTROL && adr != DMSTATUS && adr != HARTINFO && AutoExec(c, r, adr)
    case Write(adr, data) =>
      || (adr == COMMAND && Field(data, 32, 24) == 0 && Supported(data))
      || (adr != DMCONTROL && IsWindow(c, adr) && AutoExec(c, r, adr))
  }

  lemma LaunchedByCommand(c: Config, r: Regs, h: Hart, data: U32)
    requires c.Valid() && Shaped(c, r) && r.dmactive && !r.launch
    ensures var r' := Step(c, r, h, Write(COMMAND, data));
            && (r'.launch <==> !Busy(r, h) && r.cmderr == ERR_NONE && h.state == Halted && Asks(c, r, Write(COMMAND, data)))
            && (r'.launch ==> r'.shared.command == CommandOf(data))
  {
  }

  /** Any other access, after the lifecycle of the same edge. */
  lemma AccessLaunch(c: Config, n: Regs, r: Regs, h: Hart, a: Access)
    requires c.Valid() && Shaped(c, r) && Shaped(c, n) && !(a.Write? && a.adr == COMMAND)
    ensures var n' := AccessStep(c, n, r, h, a);
            && (n'.launch <==> n.launch || (!Busy(r, h) && r.cmderr == ERR_NONE && h.state == Halted && Asks(c, r, a)))
            && n'.shared.command == n.shared.command
  {
  }

  lemma LaunchedByRegister(c: Config, r: Regs, y: Cycle)
    requires c.Valid() && Shaped(c, r) && r.dmactive && !r.launch
    requires !(y.a.Write? && y.a.adr == COMMAND)
    ensures var r' := Step(c, r, y.h, y.a);
            && (r'.launch <==> !Busy(r, y.h) && r.cmderr == ERR_NONE && y.h.state == Halted && Asks(c, r, y.a))
            && r'.shared.command == r.shared.command
  {
    AccessLaunch(c, Lifecycle(c, r, y.h), r, y.h, y.a);
  }

  /** A command is launched exactly when an access asks for one while the module is idle, there is
      no error and the hart is halted; it is the one written, else the last one. */
  lemma LaunchedIff(c: Config, r: Regs, y: Cycle)
    requires c.Valid() && Shaped(c, r) && r.dmactive && !r.launch
    ensures var r' := Step(c, r, y.h, y.a);
            && (r'.launch <==> !Busy(r, y.h) && r.cmderr == ERR_NONE && y.h.state == Halted && Asks(c, r, y.a))
            && (r'.launch ==>
                  r'.shared.command == if y.a.Write? && y.a.adr == COMMAND then CommandOf(y.a.data) else r.shared.command)
  {
    if y.a.Write? && y.a.adr == COMMAND {
      LaunchedByCommand(c, r, y.h, y.a.data);
    } else {
      LaunchedByRegister(c, r, y);
    }
  }

  // ---- a refused access is reported, except in one case ----

  /** An access that writes cmderr itself at this edge, seeing it still clear. */
  predicate Overrides(c: Config, r: Regs, y: Cycle)
    requires c.Valid() && Shaped(c, r)
  {
    match y.a
    case NoAccess => false
    case Read(adr) =>
      IsWindow(c, adr) && adr != DMCONTROL && adr != DMSTATUS && adr != HARTINFO
      && AutoExec(c, r, adr) && y.h.state == Running
    case Write(adr, data) =>
      || adr == ABSTRACTCS
      || (adr != DMCONTROL && IsWindow(c, adr) && AutoExec(c, r, adr) && y.h.state == Running)
      || (adr == COMMAND && (y.h.state == Running || Field(data, 32, 24) != 0 || !Supported(data)))
  }

  lemma ReportedUnlessCleared(c: Config, r: Regs, h: Hart, data: U32)
    requires c.Valid() && Shaped(c, r) && r.dmactive
    requires r.busyError && r.cmderr == ERR_NONE && !Busy(r, h)
    ensures var r' := Step(c, r, h, Write(ABSTRACTCS, data));
            !r'.busyError && r'.cmderr == ERR_NONE
  {
    ClearNone(Field(data, 11, 8));
  }

  lemma ClearNone(mask: nat)
    ensures ClearErr(ERR_NONE, mask) == ERR_NONE
  {
  }

  lemma ReportedDuringRead(c: Config, r: Regs, h: Hart, a: Access)
    requires c.Valid() && Shaped(c, r) && r.dmactive && !a.Write?
    requires r.busyError && r.cmderr == ERR_NONE && !Busy(r, h)
    ensures var r' := Step(c, r, h, a);
            !r'.busyError && (r'.cmderr == ERR_BUSY <==> !Overrides(c, r, Cycle(h, a)))
  {
  }

  lemma ReportedDuringCommand(c: Config, r: Regs, h: Hart, data: U32)
    requires c.Valid() && Shaped(c, r) && r.dmactive
    requires r.busyError && r.cmderr == ERR_NONE && !Busy(r, h)
    ensures var r' := Step(c, r, h, Write(COMMAND, data));
            !r'.busyError && (r'.cmderr == ERR_BUSY <==> !Overrides(c, r, Cycle(h, Write(COMMAND, data))))
  {
  }

  lemma ReportedDuringWrite(c: Config, r: Regs, h: Hart, adr: nat, data: U32)
    requires c.Valid() && Shaped(c, r) && r.dmactive && adr != ABSTRACTCS && adr != COMMAND
    requires r.busyError && r.cmderr == ERR_NONE && !Busy(r, h)
    ensures var r' := Step(c, r, h, Write(adr, data));
            !r'.busyError && (r'.cmderr == ERR_BUSY <==> !Overrides(c, r, Cycle(h, Write(adr, data))))
  {
  }

  /** After a refused access the first idle edge reports the busy error, exactly unless an access
      at that very edge decides cmderr itself; then the busy error is lost. */
  lemma BusyErrorReported(c: Config, r: Regs, y: Cycle)
    requires c.Valid() && Shaped(c, r) && r.dmactive
    requires r.busyError && r.cmderr == ERR_NONE && !Busy(r, y.h)
    ensures var r' := Step(c, r, y.h, y.a);
            && !r'.busyError
            && (r'.cmderr == ERR_BUSY <==> !Overrides(c, r, y))
  {
    if !y.a.Write? {
      ReportedDuringRead(c, r, y.h, y.a);
    } else if y.a.adr == ABSTRACTCS {
      ReportedUnlessCleared(c, r, y.h, y.a.data);
    } else if y.a.adr == COMMAND {
      ReportedDuringCommand(c, r, y.h, y.a.data);
    } else {
      ReportedDuringWrite(c, r, y.h, y.a.adr, y.a.data);
    }
  }

  /** At that edge a command can even be launched although the busy error is being reported. */
  lemma LaunchedWithBusyError(c: Config, r: Regs, h: Hart, data: U32)
    requires c.Valid() && Shaped(c, r) && r.dmactive
    requires r.busyError && r.cmderr == ERR_NONE && !Busy(r, h) && h.state == Halted
    requires Field(data, 32, 24) == 0 && Supported(data)
    ensures var r' := Step(c, r, h, Write(COMMAND, data));
            r'.launch && r'.cmderr == ERR_BUSY
  {
  }
}
