/** The debug module's register map, register by register: what each register becomes at an edge, for every access
    and every state of the hart, in terms of addresses and bits.
 */
module DebugRegisters {
  import opened Arithmetic
  import opened DebugModule
  import opened DebugModuleRules

  lemma Doubled(n: nat, p: nat)
    requires Pow2(n) == p
    ensures Pow2(n + 1) == 2 * p && Pow2(n + 2) == 4 * p && Pow2(n + 3) == 8 * p && Pow2(n + 4) == 0x10 * p
  {
  }

  lemma PowersOfTwo()
    ensures Pow2(1) == 2 && Pow2(3) == 8 && Pow2(5) == 0x20 && Pow2(8) == 0x100 && Pow2(11) == 0x800
    ensures Pow2(16) == 0x1_0000 && Pow2(17) == 0x2_0000 && Pow2(18) == 0x4_0000 && Pow2(19) == 0x8_0000
    ensures Pow2(20) == 0x10_0000 && Pow2(24) == 0x100_0000 && Pow2(28) == 0x1000_0000
    ensures Pow2(30) == 0x4000_0000 && Pow2(31) == 0x8000_0000
  {
    Doubled(0, 1);
    Doubled(4, 0x10);
    Doubled(8, 0x100);
    Doubled(12, 0x1000);
    Doubled(16, 0x1_0000);
    Doubled(20, 0x10_0000);
    Doubled(24, 0x100_0000);
    Doubled(28, 0x1000_0000);
  }

  lemma SingleBits(x: U32)
    ensures Flag(x, 0) == (x % 2 == 1) && Flag(x, 1) == (x / 2 % 2 == 1)
    ensures Flag(x, 16) == (x / 0x1_0000 % 2 == 1) && Flag(x, 17) == (x / 0x2_0000 % 2 == 1)
    ensures Flag(x, 18) == (x / 0x4_0000 % 2 == 1) && Flag(x, 19) == (x / 0x8_0000 % 2 == 1)
    ensures Flag(x, 28) == (x / 0x1000_0000 % 2 == 1) && Flag(x, 30) == (x / 0x4000_0000 % 2 == 1)
    ensures Flag(x, 31) == (x >= 0x8000_0000)
  {
    PowersOfTwo();
  }

  lemma BitFields(x: U32)
    ensures Field(x, 5, 0) == x % 0x20 && Field(x, 11, 8) == x / 0x100 % 8 && Field(x, 16, 5) == x / 0x20 % 0x800
    ensures Field(x, 23, 20) == x / 0x10_0000 % 8 && Field(x, 32, 24) == x / 0x100_0000
  {
    PowersOfTwo();
  }

  // ---- what is stored ----

  /** What the lifecycle makes of the error before the access counts. */
  function ErrorBefore(r: Regs, h: Hart): nat {
    if r.cmderr != 0 then r.cmderr
    else if h.command == Failed then if r.busyError then 1 else 3
    else if r.busyError && !r.launch && h.command == NoCommand then 1
    else 0
  }

  /** Data and program buffer change only by an idle write of their own address, which stores the word, and data0 by
      the result of a command.  (The window of the data registers starts at 4; with more than twelve of them dmcontrol
      hides the one at 0x10.) */
  lemma StoredWords(c: Config, r: Regs, h: Hart, a: Access, k: nat)
    requires c.Valid() && Shaped(c, r) && k < c.numdata
    ensures var s, s' := r.shared, Step(c, r, h, a).shared;
            var stores := r.dmactive && !r.launch && h.command == NoCommand && a.Write?;
            && s'.data[k] ==
               (if stores && a.adr == 4 + k && a.adr != 0x10 then a.data
                else if k == 0 && r.dmactive && h.command == RegValid then h.result
                else s.data[k])
            && s'.progbuf0 == (if stores && a.adr == 0x20 then a.data else s.progbuf0)
            && s'.progbuf1 == (if stores && a.adr == 0x21 && c.progbufSize == 2 then a.data else s.progbuf1)
  {
  }

  lemma StoredAuto(c: Config, n: Regs, r: Regs, h: Hart, a: Access)
    requires c.Valid() && Shaped(c, r) && Shaped(c, n)
    ensures var s, s' := n.shared, AccessStep(c, n, r, h, a).shared;
            if a.Write? && a.adr == 0x18 && !r.launch && h.command == NoCommand
            then s'.autoData == Flags(a.data, 0, c.numdata) && s'.autoProgbuf == Flags(a.data, 16, c.progbufSize)
            else s'.autoData == s.autoData && s'.autoProgbuf == s.autoProgbuf
  {
  }

  /** abstractauto: the flags of the data registers from bit 0 on, those of the program buffer from bit 16 on. */
  lemma StoredFlags(c: Config, r: Regs, h: Hart, a: Access, k: nat)
    requires c.Valid() && Shaped(c, r) && r.dmactive
    ensures var s, s' := r.shared, Step(c, r, h, a).shared;
            var stores := !r.launch && h.command == NoCommand && a.Write? && a.adr == 0x18;
            && (k < c.numdata ==> s'.autoData[k] == if stores then Bit(a.data, k) else s.autoData[k])
            && (k < c.progbufSize ==> s'.autoProgbuf[k] == if stores then Bit(a.data, 16 + k) else s.autoProgbuf[k])
  {
    StoredAuto(c, Lifecycle(c, r, h), r, h, a);
    if a.Write? {
      BitIsDown(a.data, k);
      BitIsDown(a.data, 16 + k);
    }
  }

  lemma AccessCommand(c: Config, n: Regs, r: Regs, h: Hart, a: Access)
    requires c.Valid() && Shaped(c, r) && Shaped(c, n)
    ensures AccessStep(c, n, r, h, a).shared.command ==
      if a.Write? && a.adr == 0x17 && !Busy(r, h) && r.cmderr == 0 && h.state == Halted && Field(a.data, 32, 24) == 0
      then CommandOf(a.data) else n.shared.command
  {
  }

  /** The command registers take the fields of an access-register command written while idle, halted and without
      error, even if the command is then refused as unsupported. */
  lemma StoredCommand(c: Config, r: Regs, h: Hart, a: Access)
    requires c.Valid() && Shaped(c, r) && r.dmactive
    ensures Step(c, r, h, a).shared.command ==
      if a.Write? && a.adr == 0x17 && !r.launch && h.command == NoCommand && r.cmderr == 0 && h.state == Halted
         && a.data < 0x100_0000
      then Command(a.data / 0x10_0000 % 8, a.data / 0x8_0000 % 2 == 1, a.data / 0x4_0000 % 2 == 1,
                   a.data / 0x2_0000 % 2 == 1, a.data / 0x1_0000 % 2 == 1, a.data % 0x20)
      else r.shared.command
  {
    LifecycleKeeps(c, r, h);
    AccessCommand(c, Lifecycle(c, r, h), r, h, a);
    if a.Write? {
      SingleBits(a.data);
      BitFields(a.data);
    }
  }

  // ---- dmcontrol ----

  lemma LifecycleKeeps(c: Config, r: Regs, h: Hart)
    requires c.Valid() && Shaped(c, r) && r.dmactive
    ensures var n := Lifecycle(c, r, h);
            && n.dmactive && n.control == Acknowledged(r.control, h) && n.shared.command == r.shared.command
            && n.cmderr == ErrorBefore(r, h)
  {
  }

  lemma OtherAccess(c: Config, n: Regs, r: Regs, h: Hart, a: Access)
    requires c.Valid() && Shaped(c, r) && Shaped(c, n) && !(a.Write? && a.adr == 0x10)
    ensures var n' := AccessStep(c, n, r, h, a);
            n'.dmactive == n.dmactive && n'.control == n.control
  {
  }

  lemma TopTwo(x: U32)
    ensures x / 0x4000_0000 == 1 <==> x < 0x8000_0000 && x / 0x4000_0000 % 2 == 1
  {
    var q := x / 0x4000_0000;
    assert 0 <= q < 4;
  }

  lemma TopBits(x: U32)
    ensures x / 0x4000_0000 == 1 <==> !Flag(x, 31) && Flag(x, 30)
  {
    TopTwo(x);
    SingleBits(x);
  }

  /** The effect of a word written to dmcontrol, on requests and acknowledges. */
  lemma ControlWord(t: Control, idle: bool, state: HartState, data: U32)
    ensures var t' := Controlled(t, !idle, state, data);
            var resumes := idle && data / 0x4000_0000 == 1 && state == Halted;
            && (t'.haltreq <==> if idle then data >= 0x8000_0000 else t.haltreq)
            && (t'.resumereq <==> resumes || t.resumereq) && (t'.resumeack <==> !resumes && t.resumeack)
            && (t'.havereset <==> t.havereset && !(idle && data / 0x1000_0000 % 2 == 1))
            && (t'.ndmreset <==> data / 2 % 2 == 1)
  {
    SingleBits(data);
    TopBits(data);
  }

  lemma ControlWritten(c: Config, r: Regs, h: Hart, data: U32)
    requires c.Valid() && Shaped(c, r) && r.dmactive
    ensures var r', t := Step(c, r, h, Write(0x10, data)), Acknowledged(r.control, h);
            if data % 2 == 1
            then r'.dmactive && r'.control == Controlled(t, r.launch || h.command != NoCommand, h.state, data)
            else !r'.dmactive && r'.control == t
  {
    LifecycleKeeps(c, r, h);
    SingleBits(data);
  }

  /** Requests and acknowledges: bit 31 asks for a halt, bit 30 for a resume of a halted hart unless bit 31 is set,
      bit 28 acknowledges a reset, bit 1 resets the rest of the system.  While a command is busy only bits 1 and 0 count;
      bit 0 cleared turns the module off and nothing else. */
  lemma ControlBits(c: Config, r: Regs, h: Hart, a: Access)
    requires c.Valid() && Shaped(c, r) && r.dmactive
    ensures var t, r' := r.control, Step(c, r, h, a);
            var t' := r'.control;
            var writes := a.Write? && a.adr == 0x10 && a.data % 2 == 1;
            var idle := !r.launch && h.command == NoCommand;
            var resumes := writes && idle && a.data / 0x4000_0000 == 1 && h.state == Halted;
            && (r'.dmactive <==> !(a.Write? && a.adr == 0x10 && a.data % 2 == 0))
            && (t'.haltreq <==> if writes && idle then a.data >= 0x8000_0000 else t.haltreq)
            && (t'.resumereq <==> resumes || (t.resumereq && !h.reqAck))
            && (t'.resumeack <==> !resumes && (t.resumeack || (t.resumereq && h.reqAck)))
            && (t'.havereset <==> (t.havereset || h.reset) && !(writes && idle && a.data / 0x1000_0000 % 2 == 1))
            && (t'.ndmreset <==> if writes then a.data / 2 % 2 == 1 else t.ndmreset)
  {
    if a.Write? && a.adr == 0x10 {
      ControlWritten(c, r, h, a.data);
      ControlWord(Acknowledged(r.control, h), !r.launch && h.command == NoCommand, h.state, a.data);
    } else {
      LifecycleKeeps(c, r, h);
      OtherAccess(c, Lifecycle(c, r, h), r, h, a);
    }
  }

  // ---- launches and errors ----

  /** A command the module carries out: cmdtype 0, no postincrement, and without a transfer or with one of 32 bits to
      or from one of the 32 registers at 0x1000. */
  predicate CarriedOut(data: U32) {
    && data < 0x100_0000 && data / 0x8_0000 % 2 == 0
    && (data / 0x2_0000 % 2 == 0 || (data / 0x10_0000 % 8 == 2 && 0x1000 <= data % 0x1_0000 < 0x1020))
  }

  lemma CarriedOutIs(data: U32)
    ensures CarriedOut(data) <==> Field(data, 32, 24) == 0 && Supported(data)
  {
    SingleBits(data);
    BitFields(data);
    RegisterNumber(data % 0x1_0000, data / 0x1_0000);
  }

  /** Bits 15 to 5 are 0x80 exactly for the numbers from 0x1000 to 0x101F. */
  lemma RegisterNumber(low: nat, high: nat)
    requires low < 0x1_0000
    ensures (high * 0x1_0000 + low) / 0x20 % 0x800 == 0x80 <==> 0x1000 <= low < 0x1020
  {
    assert (high * 0x1_0000 + low) / 0x20 == high * 0x800 + low / 0x20;
  }

  /** The access repeats the last command: it hits a data or program buffer register whose flag is set, which the
      control registers at the same address hide. */
  predicate Repeats(c: Config, s: Shared, a: Access)
    requires |s.autoData| == c.numdata && |s.autoProgbuf| == c.progbufSize && c.Valid()
  {
    && !a.NoAccess? && a.adr != 0x10 && (a.Read? ==> a.adr != 0x11 && a.adr != 0x12)
    && ((4 <= a.adr < 4 + c.numdata && s.autoData[a.adr - 4])
        || (a.adr == 0x20 && s.autoProgbuf[0])
        || (a.adr == 0x21 && c.progbufSize == 2 && s.autoProgbuf[1]))
  }

  lemma LaunchByCommand(c: Config, n: Regs, r: Regs, h: Hart, data: U32)
    requires c.Valid() && Shaped(c, r) && Shaped(c, n)
    ensures AccessStep(c, n, r, h, Write(0x17, data)).launch <==>
      || n.launch
      || (!r.launch && h.command == NoCommand && r.cmderr == 0 && h.state == Halted
          && Field(data, 32, 24) == 0 && Supported(data))
  {
  }

  lemma LaunchByRegister(c: Config, n: Regs, r: Regs, h: Hart, a: Access)
    requires c.Valid() && Shaped(c, r) && Shaped(c, n) && !(a.Write? && a.adr == 0x17)
    ensures AccessStep(c, n, r, h, a).launch <==>
      n.launch || (!Busy(r, h) && r.cmderr == 0 && h.state == Halted && Repeats(c, r.shared, a))
  {
    AccessLaunch(c, n, r, h, a);
  }

  /** The launch flag: set by an idle access without error while the hart is halted, cleared when the command is
      taken. */
  lemma LaunchFlag(c: Config, r: Regs, h: Hart, a: Access)
    requires c.Valid() && Shaped(c, r) && r.dmactive
    ensures Step(c, r, h, a).launch <==>
      || (r.launch && h.command != Taken)
      || (!r.launch && h.command == NoCommand && r.cmderr == 0 && h.state == Halted
          && ((a.Write? && a.adr == 0x17 && CarriedOut(a.data)) || Repeats(c, r.shared, a)))
  {
    if a.Write? && a.adr == 0x17 {
      CarriedOutIs(a.data);
      LaunchByCommand(c, Lifecycle(c, r, h), r, h, a.data);
    } else {
      LaunchByRegister(c, Lifecycle(c, r, h), r, h, a);
    }
  }

  lemma AccessError(c: Config, n: Regs, r: Regs, h: Hart, a: Access)
    requires c.Valid() && Shaped(c, r) && Shaped(c, n) && !(a.Write? && (a.adr == 0x16 || a.adr == 0x17))
    ensures AccessStep(c, n, r, h, a).cmderr
         == if !Busy(r, h) && r.cmderr == 0 && h.state == Running && Repeats(c, r.shared, a) then 4 else n.cmderr
  {
  }

  lemma CommandError(c: Config, n: Regs, r: Regs, h: Hart, data: U32)
    requires c.Valid() && Shaped(c, r) && Shaped(c, n)
    ensures AccessStep(c, n, r, h, Write(0x17, data)).cmderr ==
      if Busy(r, h) || r.cmderr != 0 then n.cmderr
      else if h.state == Running then 4
      else if Field(data, 32, 24) == 0 && Supported(data) then n.cmderr
      else 2
  {
  }

  /** The error register, but for writes of abstractcs. */
  lemma ErrorRegister(c: Config, r: Regs, h: Hart, a: Access)
    requires c.Valid() && Shaped(c, r) && r.dmactive && !(a.Write? && a.adr == 0x16)
    ensures var idle := !r.launch && h.command == NoCommand && r.cmderr == 0;
            Step(c, r, h, a).cmderr ==
              if idle && h.state == Running && ((a.Write? && a.adr == 0x17) || Repeats(c, r.shared, a)) then 4
              else if idle && h.state == Halted && a.Write? && a.adr == 0x17 && !CarriedOut(a.data) then 2
              else ErrorBefore(r, h)
  {
    var n := Lifecycle(c, r, h);
    LifecycleKeeps(c, r, h);
    if a.Write? && a.adr == 0x17 {
      CarriedOutIs(a.data);
      CommandError(c, n, r, h, a.data);
    } else {
      AccessError(c, n, r, h, a);
    }
  }

  lemma ClearedBits(e: nat, m: nat)
    requires e < 8
    ensures var e' := ClearErr(e, m);
            && e' < 8 && e' % 2 == (if m % 2 == 1 then 0 else e % 2)
            && e' / 2 % 2 == (if m / 2 % 2 == 1 then 0 else e / 2 % 2)
            && e' / 4 == (if m / 4 % 2 == 1 then 0 else e / 4)
  {
  }

  lemma ClearedWhenIdle(c: Config, r: Regs, h: Hart, data: U32)
    requires c.Valid() && Shaped(c, r) && r.dmactive
    ensures Step(c, r, h, Write(0x16, data)).cmderr
         == if !r.launch && h.command == NoCommand then ClearErr(r.cmderr, Field(data, 11, 8)) else ErrorBefore(r, h)
  {
  }

  /** Writing ones to bits 8 to 10 of abstractcs while idle clears these bits of the error. */
  lemma ErrorCleared(c: Config, r: Regs, h: Hart, data: U32)
    requires c.Valid() && Shaped(c, r) && r.dmactive && r.cmderr < 8
    ensures var e := Step(c, r, h, Write(0x16, data)).cmderr;
            var ones := data / 0x100 % 8;
            if !r.launch && h.command == NoCommand then
              && e < 8 && e % 2 == (if ones % 2 == 1 then 0 else r.cmderr % 2)
              && e / 2 % 2 == (if ones / 2 % 2 == 1 then 0 else r.cmderr / 2 % 2)
              && e / 4 == (if ones / 4 % 2 == 1 then 0 else r.cmderr / 4)
            else e == ErrorBefore(r, h)
  {
    ClearedWhenIdle(c, r, h, data);
    ClearedBits(r.cmderr, Field(data, 11, 8));
    BitFields(data);
  }

  /** The mark of a refused access: set by an access to a register a busy command must not lose, cleared when the
      command fails or at the first idle edge. */
  lemma RefusalMark(c: Config, r: Regs, h: Hart, a: Access)
    requires c.Valid() && Shaped(c, r) && r.dmactive
    ensures var busy := r.launch || h.command != NoCommand;
            var window := !a.NoAccess? && a.adr != 0x10 && (a.Read? ==> a.adr != 0x11 && a.adr != 0x12)
              && (4 <= a.adr < 4 + c.numdata || a.adr == 0x20 || (a.adr == 0x21 && c.progbufSize == 2));
            Step(c, r, h, a).busyError <==>
              || (busy && r.cmderr == 0 && (window || (a.Write? && 0x16 <= a.adr <= 0x18)))
              || (busy && r.busyError && h.command != Failed)
  {
  }

  // ---- the module as a reset ----

  /** While inactive everything but data and program buffer is reset, and only bit 0 of dmcontrol is heard. */
  lemma WhileInactive(c: Config, r: Regs, h: Hart, a: Access)
    requires c.Valid() && Shaped(c, r) && !r.dmactive
    ensures var r' := Step(c, r, h, a);
            && (r'.dmactive <==> a.Write? && a.adr == 0x10 && a.data % 2 == 1)
            && r'.shared.data == r.shared.data
            && r'.shared.progbuf0 == r.shared.progbuf0 && r'.shared.progbuf1 == r.shared.progbuf1
            && (forall k :: 0 <= k < c.numdata ==> !r'.shared.autoData[k])
            && (forall k :: 0 <= k < c.progbufSize ==> !r'.shared.autoProgbuf[k])
            && r'.shared.command == Command(0, false, false, false, false, 0)
            && !r'.launch && r'.cmderr == 0 && !r'.busyError
            && r'.control == Control(false, false, false, false, false)
  {
    if a.Write? {
      SingleBits(a.data);
    }
    forall k: nat
      ensures !Flag(0, k)
    {
      DivUnique(0, 0, Pow2(k));
    }
  }

  // ---- what is read ----

  /** A register of the data and program buffer window. */
  function Word(c: Config, s: Shared, adr: nat): U32
    requires c.Valid() && |s.data| == c.numdata && IsWindow(c, adr)
  {
    if adr == 0x20 then s.progbuf0 else if adr == 0x21 then s.progbuf1 else s.data[adr - 4]
  }

  lemma WindowIs(c: Config, adr: nat)
    requires c.Valid()
    ensures IsWindow(c, adr) <==> 4 <= adr < 4 + c.numdata || adr == 0x20 || (adr == 0x21 && c.progbufSize == 2)
  {
  }

  /** Reads of the window return the register, busy or not, unless a control register has its address. */
  lemma WindowRead(c: Config, r: Regs, h: Hart, adr: nat)
    requires c.Valid() && Shaped(c, r) && IsWindow(c, adr)
    ensures ReadOut(c, r, h, Read(adr)) == Word(c, r.shared, adr)
       || !r.dmactive || adr == 0x10 || adr == 0x11 || adr == 0x12
  {
  }

  /** dmstatus shows halted in bits 8 and 9, running in 10 and 11, the acknowledged resume in 16 and 17, a reset in 18
      and 19 and the reset of the rest in 24; version 3, authenticated (bit 7) and implicit breakpoints (bit 22) are
      fixed.  dmcontrol shows the reset request and that the module is active. */
  lemma StatusRead(c: Config, r: Regs, h: Hart, k: nat)
    requires c.Valid() && Shaped(c, r) && r.dmactive
    ensures Bit(ReadOut(c, r, h, Read(0x11)), k) <==>
      || k == 0 || k == 1 || k == 7 || k == 22
      || ((k == 8 || k == 9) && h.state == Halted) || ((k == 10 || k == 11) && h.state == Running)
      || ((k == 16 || k == 17) && r.control.resumeack) || ((k == 18 || k == 19) && r.control.havereset)
      || (k == 24 && r.control.ndmreset)
    ensures ReadOut(c, r, h, Read(0x10)) == if r.control.ndmreset then 3 else 1
  {
    BitOfNat(StatusBits(r, h), k);
  }

  /** abstractcs: entries of the program buffer, busy, error, data registers; the bits between are zero. */
  lemma AbstractStatusRead(c: Config, r: Regs, h: Hart)
    requires c.Valid() && Shaped(c, r) && r.dmactive && c.numdata < 16 && r.cmderr < 8
    ensures ReadOut(c, r, h, Read(0x16)) == c.progbufSize * 0x100_0000
      + (if r.launch || h.command != NoCommand then 0x1000 else 0) + r.cmderr * 0x100 + c.numdata
  {
  }

  /** abstractauto returns the flags where they are written. */
  lemma AutoRead(c: Config, r: Regs, h: Hart, k: nat)
    requires c.Valid() && Shaped(c, r) && r.dmactive
    ensures Bit(ReadOut(c, r, h, Read(0x18)), k) <==>
      (k < c.numdata && r.shared.autoData[k]) || (16 <= k < 16 + c.progbufSize && r.shared.autoProgbuf[k - 16])
  {
    BitOfNat(AutoBits(r.shared), k);
  }

  // ---- round trips ----

  /** No write of this register, and no result of a command if it is data0. */
  predicate LeavesAlone(cs: seq<Cycle>, adr: nat) {
    forall i :: 0 <= i < |cs| ==> !(cs[i].a.Write? && cs[i].a.adr == adr) && !(adr == 4 && cs[i].h.command == RegValid)
  }

  lemma StepKeepsWord(c: Config, r: Regs, y: Cycle, adr: nat)
    requires c.Valid() && Shaped(c, r) && IsWindow(c, adr) && LeavesAlone([y], adr)
    ensures Word(c, Step(c, r, y.h, y.a).shared, adr) == Word(c, r.shared, adr)
  {
    assert [y][0] == y;
    StoredWords(c, r, y.h, y.a, if adr < 0x20 then adr - 4 else 0);
  }

  lemma {:induction false} RunKeepsWord(c: Config, r: Regs, cs: seq<Cycle>, adr: nat)
    requires c.Valid() && Shaped(c, r) && IsWindow(c, adr) && LeavesAlone(cs, adr)
    ensures Word(c, Run(c, r, cs).shared, adr) == Word(c, r.shared, adr)
    decreases |cs|
  {
    if cs == [] {
    } else {
      assert LeavesAlone([cs[0]], adr);
      StepKeepsWord(c, r, cs[0], adr);
      RunKeepsWord(c, Step(c, r, cs[0].h, cs[0].a), cs[1..], adr);
    }
  }

  /** A word written while idle is read back after any run in which nobody writes it, whatever commands, errors and
      even deactivations of the module happen in between. */
  lemma ReadBack(c: Config, r: Regs, h: Hart, adr: nat, data: U32, cs: seq<Cycle>, h': Hart)
    requires c.Valid() && Shaped(c, r) && r.dmactive && !r.launch && h.command == NoCommand
    requires IsWindow(c, adr) && adr != 0x10 && adr != 0x11 && adr != 0x12 && LeavesAlone(cs, adr)
    ensures var r' := Run(c, Step(c, r, h, Write(adr, data)), cs);
            r'.dmactive ==> ReadOut(c, r', h', Read(adr)) == data
  {
    var r1 := Step(c, r, h, Write(adr, data));
    StoredWords(c, r, h, Write(adr, data), if adr < 0x20 then adr - 4 else 0);
    RunKeepsWord(c, r1, cs, adr);
    WindowRead(c, Run(c, r1, cs), h', adr);
  }

  /** A word written to data register `k` in an idle state is what a read returns. */
  predicate ReadsBack(c: Config, k: nat, r: Regs, h: Hart, data: U32)
    requires c.Valid() && k < c.numdata
  {
    Shaped(c, r) && r.dmactive && !r.launch && h.command == NoCommand
    ==> ReadOut(c, Step(c, r, h, Write(4 + k, data)), h, Read(4 + k)) == data
  }

  /** An idle state. */
  function IdleState(c: Config): (r: Regs)
    requires c.Valid()
    ensures Shaped(c, r) && r.dmactive && !r.launch
  {
    Regs(true, Shared(seq(c.numdata, i => 0), 0, 0, Flags(0, 0, c.numdata), Flags(0, 0, c.progbufSize),
                      Command(0, false, false, false, false, 0)),
         false, 0, false, Control(false, false, false, false, false))
  }

  /** Twelve data registers and the sixteenth have addresses of their own; the others are hidden by dmcontrol, dmstatus
      and hartinfo. */
  lemma ReadBackIff(c: Config, k: nat)
    requires c.Valid() && k < c.numdata
    ensures (forall r: Regs, h: Hart, data: U32 :: ReadsBack(c, k, r, h, data)) <==> k < 12 || k == 15
  {
    if k < 12 || k == 15 {
      forall r: Regs, h: Hart, data: U32
        ensures ReadsBack(c, k, r, h, data)
      {
        if Shaped(c, r) && r.dmactive && !r.launch && h.command == NoCommand {
          ReadBack(c, r, h, 4 + k, data, [], h);
          ControlBits(c, r, h, Write(4 + k, data));
        }
      }
    } else {
      var h := Hart(Halted, NoCommand, 0, false, false);
      Hidden(c, IdleState(c), h, k);
      assert !ReadsBack(c, k, IdleState(c), h, 5);
    }
  }

  /** What comes back from a hidden register is not the word 5. */
  lemma Hidden(c: Config, r: Regs, h: Hart, k: nat)
    requires c.Valid() && k < c.numdata && 12 <= k < 15
    requires Shaped(c, r) && r.dmactive && !r.launch && h.command == NoCommand
    ensures ReadOut(c, Step(c, r, h, Write(4 + k, 5)), h, Read(4 + k)) != 5
  {
    ControlBits(c, r, h, Write(4 + k, 5));
    StatusRead(c, Step(c, r, h, Write(4 + k, 5)), h, 1);
    assert !Bit(5, 1);
  }
}
