/** From an access refused while a command is busy to the report of the busy error, over runs. */
module DebugBusyReport {
  import opened Arithmetic
  import opened DebugModule
  import opened DebugModuleRules

  /** Accesses the module refuses while a command is busy. */
  predicate Refusable(c: Config, a: Access) {
    match a
    case NoAccess => false
    case Read(adr) => IsWindow(c, adr) && adr != DMCONTROL && adr != DMSTATUS && adr != HARTINFO
    case Write(adr, data) => adr != DMCONTROL && (IsWindow(c, adr) || adr in {ABSTRACTCS, ABSTRACTAUTO, COMMAND})
  }

  /** A busy module does nothing with an access but to mark it as refused. */
  lemma BusyAccess(c: Config, n: Regs, r: Regs, h: Hart, a: Access)
    requires c.Valid() && Shaped(c, r) && Shaped(c, n) && Busy(r, h)
    ensures var n' := AccessStep(c, n, r, h, a);
            n'.cmderr == n.cmderr && n'.busyError == ((r.cmderr == ERR_NONE && Refusable(c, a)) || n.busyError)
  {
  }

  /** What one busy cycle does to the error and to the mark of a refused access. */
  lemma BusyCycle(c: Config, r: Regs, y: Cycle)
    requires c.Valid() && Shaped(c, r) && r.dmactive && Busy(r, y.h)
    ensures var r' := Step(c, r, y.h, y.a);
            var failed := y.h.command == Failed;
            && r'.cmderr == (if failed && r.cmderr == ERR_NONE then (if r.busyError then ERR_BUSY else ERR_EXCEPTION)
                             else r.cmderr)
            && r'.busyError == ((r.cmderr == ERR_NONE && Refusable(c, y.a)) || (r.busyError && !failed))
  {
    var n := Lifecycle(c, r, y.h);
    assert n.cmderr == (if y.h.command == Failed && r.cmderr == ERR_NONE
                        then if r.busyError then ERR_BUSY else ERR_EXCEPTION else r.cmderr);
    BusyAccess(c, n, r, y.h, y.a);
  }

  /** The command fails in one of the cycles. */
  predicate Fails(cs: seq<Cycle>)
    decreases |cs|
  {
    cs != [] && (cs[0].h.command == Failed || Fails(cs[1..]))
  }

  /** An error stays as long as the module is busy. */
  lemma {:induction false} BusyKeepsError(c: Config, r: Regs, cs: seq<Cycle>)
    requires c.Valid() && Shaped(c, r) && Active(c, r, cs) && BusyAll(c, r, cs) && r.cmderr != ERR_NONE
    ensures Run(c, r, cs).cmderr == r.cmderr
    decreases |cs|
  {
    if cs == [] {
    } else {
      BusyCycle(c, r, cs[0]);
      BusyKeepsError(c, Step(c, r, cs[0].h, cs[0].a), cs[1..]);
    }
  }

  /** While the refusal is marked, a failing command reports it at once; else it stays marked. */
  lemma {:induction false} MarkedWhileBusy(c: Config, r: Regs, cs: seq<Cycle>)
    requires c.Valid() && Shaped(c, r) && Active(c, r, cs) && BusyAll(c, r, cs)
    requires r.cmderr == ERR_NONE && r.busyError
    ensures var r' := Run(c, r, cs);
            if Fails(cs) then r'.cmderr == ERR_BUSY else r'.cmderr == ERR_NONE && r'.busyError
    decreases |cs|
  {
    if cs == [] {
    } else {
      BusyCycle(c, r, cs[0]);
      var r' := Step(c, r, cs[0].h, cs[0].a);
      if cs[0].h.command == Failed {
        BusyKeepsError(c, r', cs[1..]);
      } else {
        MarkedWhileBusy(c, r', cs[1..]);
      }
    }
  }

  /** A command that fails at the edge of the refusal reports its own failure, and the refusal is
      forgotten. */
  predicate FailsFirst(r: Regs, first: Cycle) {
    first.h.command == Failed && !r.busyError
  }

  /** An access was refused without error, the module stayed busy, and then came the first idle edge. */
  ghost predicate IsEpisode(c: Config, r: Regs, first: Cycle, busy: seq<Cycle>, last: Cycle)
    requires c.Valid() && Shaped(c, r)
  {
    var r1 := Step(c, r, first.h, first.a);
    && r.dmactive && r.cmderr == ERR_NONE && Busy(r, first.h) && Refusable(c, first.a)
    && Active(c, r1, busy) && BusyAll(c, r1, busy)
    && Run(c, r1, busy).dmactive && !Busy(Run(c, r1, busy), last.h)
  }

  /** The busy error was reported: while the module was still busy, or at the first idle edge.  (An
      error of the command's own that the debugger turns into 1 is no report.) */
  ghost predicate Reported(c: Config, r: Regs, first: Cycle, busy: seq<Cycle>, last: Cycle)
    requires c.Valid() && Shaped(c, r)
  {
    var idle := Run(c, Step(c, r, first.h, first.a), busy);
    idle.cmderr == ERR_BUSY || (idle.cmderr == ERR_NONE && Step(c, idle, last.h, last.a).cmderr == ERR_BUSY)
  }

  /** From the refused access to the first idle edge, whatever happens in between: the busy error is
      reported exactly unless the command fails at the edge of the refusal, or it ends without
      failing and an access at the first idle edge decides the error. */
  lemma RefusalReportedIff(c: Config, r: Regs, first: Cycle, busy: seq<Cycle>, last: Cycle)
    requires c.Valid() && Shaped(c, r) && IsEpisode(c, r, first, busy, last)
    ensures Reported(c, r, first, busy, last) <==>
              && !FailsFirst(r, first)
              && (first.h.command == Failed || Fails(busy)
                  || !Overrides(c, Run(c, Step(c, r, first.h, first.a), busy), last))
  {
    var r1 := Step(c, r, first.h, first.a);
    BusyCycle(c, r, first);
    if first.h.command == Failed {
      BusyKeepsError(c, r1, busy);
    } else {
      MarkedWhileBusy(c, r1, busy);
      if !Fails(busy) {
        BusyErrorReported(c, Run(c, r1, busy), last);
      }
    }
  }

  // ---- both losses can happen ----

  /** The next state the command sequencer may be in: from the command registers, the launch flag, and
      whatever the pipeline reports about the program buffer. */
  predicate MayFollow(r: Regs, h: Hart, next: CommandState) {
    var k := r.shared.command;
    if !r.dmactive then next == NoCommand
    else if h.state != Halted then next == h.command
    else
      match h.command
      case NoCommand => next == if r.launch then Taken else NoCommand
      case Taken =>
        next == (if k.transfer && !k.write then RegValid else if k.postexec then Exec else NoCommand)
      case RegValid => next == if k.postexec then Exec else NoCommand
      case Exec => next in {Exec, NoCommand, WaitRetire}
      case Exec2 => next in {Exec2, NoCommand, WaitRetire}
      case WaitRetire => next in {WaitRetire, Failed, NoCommand, Exec2}
      case Failed => next == NoCommand
  }

  /** A cycle of a running command without access. */
  lemma QuietCycle(c: Config, r: Regs, h: Hart)
    requires c.Valid() && Shaped(c, r) && r.dmactive && Busy(r, h) && h.command in {NoCommand, Taken, Exec, WaitRetire}
    ensures var r' := Step(c, r, h, NoAccess);
            && r'.dmactive && r'.shared == r.shared && r'.cmderr == r.cmderr && r'.busyError == r.busyError
            && r'.launch == (r.launch && h.command != Taken)
  {
  }

  /** A command written while all is quiet. */
  lemma CommandCycle(c: Config, r: Regs, h: Hart, data: U32)
    requires c.Valid() && Shaped(c, r) && r.dmactive && !r.launch && !r.busyError && r.cmderr == ERR_NONE
    requires h.state == Halted && h.command == NoCommand && Supported(data) && Field(data, 32, 24) == 0
    ensures var r' := Step(c, r, h, Write(COMMAND, data));
            && r'.dmactive && r'.launch && !r'.busyError && r'.cmderr == ERR_NONE
            && r'.shared.command == CommandOf(data)
  {
  }

  /** A refused read of data0. */
  lemma ReadCycle(c: Config, r: Regs, h: Hart)
    requires c.Valid() && Shaped(c, r) && r.dmactive && Busy(r, h) && !r.busyError && r.cmderr == ERR_NONE
    requires h.command in {NoCommand, Failed}
    ensures var r' := Step(c, r, h, Read(DATA0));
            && r'.dmactive && r'.shared == r.shared && r'.launch == r.launch && r'.busyError
            && r'.cmderr == if h.command == Failed then ERR_EXCEPTION else ERR_NONE
  {
  }

  /** A supported command without register transfer, and whether it runs the program buffer. */
  predicate IsCommand(command: U32, postexec: bool) {
    && Field(command, 32, 24) == 0 && Supported(command)
    && !CommandOf(command).transfer && CommandOf(command).postexec == postexec
  }

  /** From any active, idle, error-free state with a halted hart: a command that does nothing is written, data0
      is read while it is busy, the command is taken and over, and abstractcs is written at the first
      idle edge.  The refusal leaves no trace. */
  lemma LostAtIdleEdge(c: Config, r: Regs, h: Hart, command: U32, data: U32)
    requires c.Valid() && Shaped(c, r) && r.dmactive && !r.launch && !r.busyError && r.cmderr == ERR_NONE
    requires h.state == Halted && h.command == NoCommand && IsCommand(command, false)
    ensures var taken := h.(command := Taken);
            var r1 := Step(c, r, h, Write(COMMAND, command));
            var r2 := Step(c, r1, h, Read(DATA0));
            var r3 := Step(c, r2, taken, NoAccess);
            var r4 := Step(c, r3, h, Write(ABSTRACTCS, data));
            && MayFollow(r, h, NoCommand) && MayFollow(r1, h, Taken) && MayFollow(r2, taken, NoCommand)
            && r1.launch && r2.busyError && !Busy(r3, h)
            && r4.cmderr == ERR_NONE && !r4.busyError
  {
    CommandCycle(c, r, h, command);
    var r1 := Step(c, r, h, Write(COMMAND, command));
    ReadCycle(c, r1, h);
    var r2 := Step(c, r1, h, Read(DATA0));
    QuietCycle(c, r2, h.(command := Taken));
    ReportedUnlessCleared(c, Step(c, r2, h.(command := Taken), NoAccess), h, data);
  }

  /** From any such state: the program buffer is run, an instruction of it fails, and data0 is read at
      the edge at which the command fails.  The error is 3 and stays 3. */
  lemma LostAtFailure(c: Config, r: Regs, h: Hart, command: U32)
    requires c.Valid() && Shaped(c, r) && r.dmactive && !r.launch && !r.busyError && r.cmderr == ERR_NONE
    requires h.state == Halted && h.command == NoCommand && IsCommand(command, true)
    ensures var taken, exec, wait, failed :=
              h.(command := Taken), h.(command := Exec), h.(command := WaitRetire), h.(command := Failed);
            var r1 := Step(c, r, h, Write(COMMAND, command));
            var r2 := Step(c, r1, h, NoAccess);
            var r3 := Step(c, r2, taken, NoAccess);
            var r4 := Step(c, r3, exec, NoAccess);
            var r5 := Step(c, r4, wait, NoAccess);
            var r6 := Step(c, r5, failed, Read(DATA0));
            var r7 := Step(c, r6, h, NoAccess);
            && MayFollow(r, h, NoCommand) && MayFollow(r1, h, Taken) && MayFollow(r2, taken, Exec)
            && MayFollow(r3, exec, WaitRetire) && MayFollow(r4, wait, Failed) && MayFollow(r5, failed, NoCommand)
            && r6.busyError && !Busy(r6, h)
            && r6.cmderr == r7.cmderr == ERR_EXCEPTION && !r7.busyError
  {
    CommandCycle(c, r, h, command);
    var r1 := Step(c, r, h, Write(COMMAND, command));
    QuietCycle(c, r1, h);
    var r2 := Step(c, r1, h, NoAccess);
    QuietCycle(c, r2, h.(command := Taken));
    var r3 := Step(c, r2, h.(command := Taken), NoAccess);
    QuietCycle(c, r3, h.(command := Exec));
    var r4 := Step(c, r3, h.(command := Exec), NoAccess);
    QuietCycle(c, r4, h.(command := WaitRetire));
    var r5 := Step(c, r4, h.(command := WaitRetire), NoAccess);
    ReadCycle(c, r5, h.(command := Failed));
    LostAtReport(c, Step(c, r5, h.(command := Failed), Read(DATA0)), h);
  }

  lemma LostAtReport(c: Config, r: Regs, h: Hart)
    requires c.Valid() && Shaped(c, r) && r.dmactive && !Busy(r, h) && r.busyError && r.cmderr == ERR_EXCEPTION
    ensures var r' := Step(c, r, h, NoAccess);
            r'.cmderr == ERR_EXCEPTION && !r'.busyError
  {
  }

  lemma Squared(n: nat, p: nat)
    requires Pow2(n) == p
    ensures Pow2(n + n) == p * p && Pow2(n + 1) == 2 * p
  {
    PowAdd(n, n);
  }

  lemma PowValues()
    ensures Pow2(8) == 0x100 && Pow2(17) == 0x2_0000 && Pow2(18) == 0x4_0000 && Pow2(19) == 0x8_0000
    ensures Pow2(24) == 0x100_0000
  {
    assert Pow2(2) == 4;
    Squared(2, 4);
    Squared(4, 0x10);
    Squared(8, 0x100);
    Squared(16, 0x1_0000);
    Squared(17, 0x2_0000);
    Squared(18, 0x4_0000);
    PowAdd(16, 8);
  }

  /** Such commands: 0, and postexec alone. */
  lemma CommandsExist()
    ensures IsCommand(0, false) && IsCommand(0x4_0000, true)
  {
    PowValues();
    assert Down(0, 17) == Down(0, 18) == Down(0, 19) == Down(0, 24) == 0;
    assert Down(0x4_0000, 19) == Down(0x4_0000, 24) == 0 && Down(0x4_0000, 17) == 2 && Down(0x4_0000, 18) == 1;
  }
}
