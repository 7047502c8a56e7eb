/** The debug module's register file, command error and busy rules (rtl/debug/dmi.py). */
module DebugModule {
  import opened Arithmetic

  type U32 = x: int | 0 <= x < 0x1_0000_0000

  datatype HartState = Running | Halted

  datatype CommandState = NoCommand | RegValid | Taken | Failed | Exec | Exec2 | WaitRetire

  const DATA0 := 0x04
  const DMCONTROL := 0x10
  const DMSTATUS := 0x11
  const HARTINFO := 0x12
  const ABSTRACTCS := 0x16
  const COMMAND := 0x17
  const ABSTRACTAUTO := 0x18
  const PROGBUF0 := 0x20
  const PROGBUF1 := 0x21

  const ERR_NONE := 0
  const ERR_BUSY := 1
  const ERR_NOT_SUPPORTED := 2
  const ERR_EXCEPTION := 3
  const ERR_HART_RUNNING := 4

  datatype Config = Config(numdata: nat, progbufSize: nat) {
    predicate Valid() {
      1 <= numdata <= 16 && 1 <= progbufSize <= 2
    }
  }

  /** Fields of an access-register command. */
  datatype Command = Command(aarsize: nat, postincrement: bool, postexec: bool, transfer: bool, write: bool, regno: nat)

  /** What the DMI must leave alone while a command runs. */
  datatype Shared = Shared(data: seq<U32>, progbuf0: U32, progbuf1: U32, autoData: seq<bool>, autoProgbuf: seq<bool>,
                           command: Command)

  datatype Control = Control(havereset: bool, haltreq: bool, resumereq: bool, resumeack: bool, ndmreset: bool)

  datatype Regs = Regs(dmactive: bool, shared: Shared, launch: bool, cmderr: nat, busyError: bool, control: Control)

  /** One DMI access: an enabled cycle. */
  datatype Access = NoAccess | Read(adr: nat) | Write(adr: nat, data: U32)

  /** The rest of the debug core as the register file sees it in one cycle. */
  datatype Hart = Hart(state: HartState, command: CommandState, result: U32, reqAck: bool, reset: bool)

  predicate Shaped(c: Config, r: Regs) {
    |r.shared.data| == |r.shared.autoData| == c.numdata && |r.shared.autoProgbuf| == c.progbufSize
  }

  function Flag(x: U32, k: nat): bool {
    Down(x, k) % 2 == 1
  }

  function Field(x: U32, high: nat, low: nat): nat
    requires low <= high
  {
    Low(Down(x, low), high - low)
  }

  /** `cmderr & ~mask` on three bits. */
  function ClearErr(cmderr: nat, mask: nat): nat {
    (if cmderr % 2 == 1 && mask % 2 == 0 then 1 else 0)
    + (if cmderr / 2 % 2 == 1 && mask / 2 % 2 == 0 then 2 else 0)
    + (if cmderr / 4 % 2 == 1 && mask / 4 % 2 == 0 then 4 else 0)
  }

  predicate Busy(r: Regs, h: Hart) {
    r.launch || h.command != NoCommand
  }

  predicate IsData(c: Config, adr: nat) {
    DATA0 <= adr <= DATA0 + c.numdata - 1
  }

  /** The data or program buffer register an access touches has its autoexec bit set. */
  predicate AutoExec(c: Config, r: Regs, adr: nat)
    requires Shaped(c, r) && c.Valid()
  {
    if IsData(c, adr) then r.shared.autoData[adr - DATA0]
    else if adr == PROGBUF0 then r.shared.autoProgbuf[0]
    else adr == PROGBUF1 && c.progbufSize == 2 && r.shared.autoProgbuf[1]
  }

  predicate IsWindow(c: Config, adr: nat) {
    IsData(c, adr) || adr == PROGBUF0 || (adr == PROGBUF1 && c.progbufSize == 2)
  }

  // ---- the updates that do not come from the DMI ----

  /** A resume request is a pulse that ends with its acknowledge. */
  function Acknowledged(t: Control, h: Hart): Control {
    Control(t.havereset || h.reset, t.haltreq, t.resumereq && !h.reqAck, t.resumeack || (h.reqAck && t.resumereq), t.ndmreset)
  }

  /** Command lifecycle and request acknowledges, before the DMI access of the same edge. */
  function Lifecycle(c: Config, r: Regs, h: Hart): Regs
    requires Shaped(c, r) && c.Valid()
    ensures Shaped(c, Lifecycle(c, r, h))
  {
    var base := r.(control := Acknowledged(r.control, h));
    if h.command == RegValid then base.(shared := r.shared.(data := r.shared.data[0 := h.result]))
    else if h.command == Taken then base.(launch := false)
    else if h.command == Failed then
      base.(cmderr := if r.cmderr != ERR_NONE then r.cmderr else if r.busyError then ERR_BUSY else ERR_EXCEPTION,
            busyError := false)
    else if !Busy(r, h) && r.busyError then
      base.(cmderr := if r.cmderr == ERR_NONE then ERR_BUSY else r.cmderr, busyError := false)
    else base
  }

  // ---- DMI accesses ----

  /** Launch the stored command when the register has its autoexec bit set. */
  function AutoLaunch(c: Config, n: Regs, r: Regs, h: Hart, adr: nat): (n': Regs)
    requires Shaped(c, r) && c.Valid()
    ensures n'.shared == n.shared && n'.control == n.control && n'.dmactive == n.dmactive
  {
    if !AutoExec(c, r, adr) || r.cmderr != ERR_NONE then n
    else if h.state == Running then n.(cmderr := ERR_HART_RUNNING)
    else n.(launch := true)
  }

  /** Record that an access came while a command was busy. */
  function Refused(n: Regs, r: Regs): (n': Regs)
    ensures n'.shared == n.shared && n'.control == n.control && n'.dmactive == n.dmactive
  {
    if r.cmderr == ERR_NONE then n.(busyError := true) else n
  }

  function WriteWindow(c: Config, s: Shared, adr: nat, data: U32): (s': Shared)
    requires |s.data| == c.numdata && IsWindow(c, adr)
    ensures |s'.data| == |s.data| && s'.autoData == s.autoData && s'.autoProgbuf == s.autoProgbuf
  {
    if IsData(c, adr) then s.(data := s.data[adr - DATA0 := data])
    else if adr == PROGBUF0 then s.(progbuf0 := data)
    else s.(progbuf1 := data)
  }

  function CommandOf(data: U32): Command {
    Command(Field(data, 23, 20), Flag(data, 19), Flag(data, 18), Flag(data, 17), Flag(data, 16), Field(data, 5, 0))
  }

  /** The commands this debug module can carry out. */
  predicate Supported(data: U32) {
    !Flag(data, 19) && (!Flag(data, 17) || (Field(data, 23, 20) == 2 && Field(data, 16, 5) == 0x80))
  }

  function WriteCommand(n: Regs, r: Regs, h: Hart, data: U32): (n': Regs)
    ensures n'.shared == n.shared.(command := n'.shared.command)
    ensures n'.control == n.control && n'.dmactive == n.dmactive
  {
    if r.cmderr != ERR_NONE then n
    else if Busy(r, h) then n.(busyError := true)
    else if h.state == Running then n.(cmderr := ERR_HART_RUNNING)
    else if Field(data, 32, 24) != 0 then n.(cmderr := ERR_NOT_SUPPORTED)
    else
      var loaded := n.(shared := n.shared.(command := CommandOf(data)));
      if Supported(data) then loaded.(launch := true) else loaded.(cmderr := ERR_NOT_SUPPORTED)
  }

  function Controlled(t: Control, busy: bool, state: HartState, data: U32): Control {
    if busy then t.(ndmreset := Flag(data, 1))
    else
      var resume := !Flag(data, 31) && state == Halted && Flag(data, 30);
      Control(t.havereset && !Flag(data, 28), Flag(data, 31), t.resumereq || resume, t.resumeack && !resume, Flag(data, 1))
  }

  function WriteControl(n: Regs, r: Regs, h: Hart, data: U32): (n': Regs)
    ensures n'.shared == n.shared
  {
    if !Flag(data, 0) then n.(dmactive := false)
    else n.(control := Controlled(n.control, Busy(r, h), h.state, data))
  }

  /** The bits of a word as autoexec flags. */
  function Flags(data: U32, low: nat, n: nat): (s: seq<bool>)
    ensures |s| == n
  {
    seq(n, k requires k >= 0 => Flag(data, low + k))
  }

  function ReadStep(c: Config, n: Regs, r: Regs, h: Hart, adr: nat): (n': Regs)
    requires Shaped(c, r) && c.Valid()
    ensures n'.shared == n.shared && n'.control == n.control && n'.dmactive == n.dmactive
  {
    // control registers are decoded before the data window
    if !IsWindow(c, adr) || adr == DMCONTROL || adr == DMSTATUS || adr == HARTINFO then n
    else if Busy(r, h) then Refused(n, r)
    else AutoLaunch(c, n, r, h, adr)
  }

  function WriteShared(c: Config, n: Regs, r: Regs, h: Hart, adr: nat, data: U32): (n': Regs)
    requires Shaped(c, r) && Shaped(c, n) && c.Valid() && IsWindow(c, adr)
    ensures Shaped(c, n') && n'.control == n.control && n'.dmactive == n.dmactive
  {
    if Busy(r, h) then Refused(n, r)
    else AutoLaunch(c, n.(shared := WriteWindow(c, n.shared, adr, data)), r, h, adr)
  }

  function WriteAuto(c: Config, n: Regs, r: Regs, h: Hart, data: U32): (n': Regs)
    requires Shaped(c, n) && c.Valid()
    ensures Shaped(c, n') && n'.control == n.control && n'.dmactive == n.dmactive
  {
    if Busy(r, h) then Refused(n, r)
    else n.(shared := n.shared.(autoData := Flags(data, 0, c.numdata), autoProgbuf := Flags(data, 16, c.progbufSize)))
  }

  function WriteStep(c: Config, n: Regs, r: Regs, h: Hart, adr: nat, data: U32): (n': Regs)
    requires Shaped(c, r) && Shaped(c, n) && c.Valid()
    ensures Shaped(c, n')
  {
    if adr == DMCONTROL then WriteControl(n, r, h, data)
    else if IsWindow(c, adr) then WriteShared(c, n, r, h, adr, data)
    else if adr == ABSTRACTCS then
      if Busy(r, h) then Refused(n, r) else n.(cmderr := ClearErr(r.cmderr, Field(data, 11, 8)))
    else if adr == ABSTRACTAUTO then WriteAuto(c, n, r, h, data)
    else if adr == COMMAND then WriteCommand(n, r, h, data)
    else n
  }

  function AccessStep(c: Config, n: Regs, r: Regs, h: Hart, a: Access): (n': Regs)
    requires Shaped(c, r) && Shaped(c, n) && c.Valid()
    ensures Shaped(c, n')
  {
    match a
    case NoAccess => n
    case Read(adr) => ReadStep(c, n, r, h, adr)
    case Write(adr, data) => WriteStep(c, n, r, h, adr, data)
  }

  /** Reset values while the module is inactive; data and program buffer are kept. */
  function Inactive(c: Config, r: Regs, a: Access): (n: Regs)
    requires Shaped(c, r)
    ensures Shaped(c, n)
  {
    Regs(a.Write? && a.adr == DMCONTROL && Flag(a.data, 0),
         r.shared.(autoData := Flags(0, 0, c.numdata), autoProgbuf := Flags(0, 0, c.progbufSize),
                   command := Command(0, false, false, false, false, 0)),
         false, ERR_NONE, false, Control(false, false, false, false, false))
  }

  function Step(c: Config, r: Regs, h: Hart, a: Access): (r': Regs)
    requires c.Valid() && Shaped(c, r)
    ensures Shaped(c, r')
  {
    if !r.dmactive then Inactive(c, r, a) else AccessStep(c, Lifecycle(c, r, h), r, h, a)
  }

  // ---- the read data register ----

  /** The flags as abstractauto shows them. */
  function AutoBits(s: Shared): (d: Bits)
    requires |s.autoData| <= 16 && |s.autoProgbuf| <= 2
    ensures ToNat(d) < 0x1_0000_0000
  {
    var d := s.autoData + seq(16 - |s.autoData|, k => false) + s.autoProgbuf;
    NatBelow(d);
    SmallPower(|d|);
    d
  }

  /** The bits of dmstatus, with version 3 of the specification in the lowest four. */
  function StatusBits(r: Regs, h: Hart): (d: Bits)
    ensures ToNat(d) < 0x1_0000_0000
  {
    var d := seq(25, k => false)[24 := r.control.ndmreset][22 := true][19 := r.control.havereset]
      [18 := r.control.havereset][17 := r.control.resumeack][16 := r.control.resumeack]
      [11 := h.state == Running][10 := h.state == Running][9 := h.state == Halted][8 := h.state == Halted]
      [7 := true][1 := true][0 := true];
    NatBelow(d);
    SmallPower(|d|);
    d
  }

  lemma SmallPower(n: nat)
    requires n <= 32
    ensures Pow2(n) <= 0x1_0000_0000
  {
    Powers();
    PowMono(n, 32);
  }

  /** What the read data register becomes: zero, or the word addressed by a read. */
  function ReadOut(c: Config, r: Regs, h: Hart, a: Access): U32
    requires c.Valid() && Shaped(c, r)
  {
    if !r.dmactive || !a.Read? then 0
    else if a.adr == DMSTATUS then ToNat(StatusBits(r, h))
    else if a.adr == DMCONTROL then Num(r.control.ndmreset) * 2 + 1
    else if a.adr == HARTINFO then c.numdata % 16 * 0x1000
    else if a.adr == ABSTRACTAUTO then ToNat(AutoBits(r.shared))
    else if a.adr == PROGBUF0 then r.shared.progbuf0
    else if a.adr == PROGBUF1 && c.progbufSize == 2 then r.shared.progbuf1
    else if IsData(c, a.adr) then r.shared.data[a.adr - DATA0]
    else if a.adr == ABSTRACTCS then
      c.progbufSize * 0x100_0000 + Num(Busy(r, h)) * 0x1000 + r.cmderr % 8 * 0x100 + c.numdata % 16
    else 0
  }

  // ---- the circuit ----

  class DebugModuleInterface {
    const config: Config
    var dmactive: bool
    var data: seq<U32>
    var progbuf0: U32
    var progbuf1: U32
    var autoData: seq<bool>
    var autoProgbuf: seq<bool>
    var command: Command
    var launch: bool
    var cmderr: nat
    var busyError: bool
    var control: Control
    var dbo: U32

    function SharedRegs(): Shared
      reads this
    {
      Shared(data, progbuf0, progbuf1, autoData, autoProgbuf, command)
    }

    function Registers(): Regs
      reads this
    {
      Regs(dmactive, SharedRegs(), launch, cmderr, busyError, control)
    }

    predicate Valid()
      reads this
    {
      config.Valid() && Shaped(config, Registers())
    }

    constructor (config: Config)
      requires config.Valid()
      ensures Valid() && this.config == config && !dmactive && dbo == 0
    {
      this.config := config;
      dmactive, launch, busyError, cmderr := false, false, false, ERR_NONE;
      data, progbuf0, progbuf1 := seq(config.numdata, k => 0), 0, 0;
      autoData, autoProgbuf := Flags(0, 0, config.numdata), Flags(0, 0, config.progbufSize);
      command := Command(0, false, false, false, false, 0);
      control := Control(false, false, false, false, false);
      dbo := 0;
    }

    method ClockLifecycle(h: Hart)
      requires Valid()
      modifies this`control, this`data, this`launch, this`cmderr, this`busyError
      ensures Registers() == Lifecycle(config, old(Registers()), h)
    {
      var busy := launch || h.command != NoCommand;
      ClockRequests(h);
      if h.command == RegValid {
        data := data[0 := h.result];
      } else if h.command == Taken {
        launch := false;
      } else if h.command == Failed {
        if cmderr == ERR_NONE {
          cmderr := if busyError then ERR_BUSY else ERR_EXCEPTION;
        }
        busyError := false;
      } else if !busy && busyError {
        if cmderr == ERR_NONE {
          cmderr := ERR_BUSY;
        }
        busyError := false;
      }
    }

    method ClockRequests(h: Hart)
      modifies this`control
      ensures control == Acknowledged(old(control), h)
    {
      if h.reset {
        control := control.(havereset := true);
      }
      if h.reqAck {
        if control.resumereq {
          control := control.(resumeack := true);
        }
        control := control.(resumereq := false);
      }
    }

    method ClockControl(h: Hart, dbi: U32, busy: bool)
      modifies this`control
      ensures control == Controlled(old(control), busy, h.state, dbi)
    {
      control := control.(ndmreset := Flag(dbi, 1));
      if !busy {
        control := control.(haltreq := Flag(dbi, 31));
        if !Flag(dbi, 31) && h.state == Halted && Flag(dbi, 30) {
          control := control.(resumereq := true, resumeack := false);
        }
        if Flag(dbi, 28) {
          control := control.(havereset := false);
        }
      }
    }

    method StoreWindow(adr: nat, dbi: U32)
      requires Valid() && IsWindow(config, adr)
      modifies this`data, this`progbuf0, this`progbuf1
      ensures SharedRegs() == WriteWindow(config, old(SharedRegs()), adr, dbi)
    {
      if IsData(config, adr) {
        data := data[adr - DATA0 := dbi];
      } else if adr == PROGBUF0 {
        progbuf0 := dbi;
      } else {
        progbuf1 := dbi;
      }
    }

    /** Launch rule shared by all data and program buffer accesses; `wasErr` is the error before the edge. */
    method LaunchIfAuto(ghost r: Regs, h: Hart, adr: nat, auto: bool, wasErr: nat)
      requires Valid() && Shaped(config, r)
      requires auto == AutoExec(config, r, adr) && wasErr == r.cmderr
      modifies this`launch, this`cmderr
      ensures Registers() == AutoLaunch(config, old(Registers()), r, h, adr)
    {
      if auto && wasErr == ERR_NONE {
        if h.state == Running {
          cmderr := ERR_HART_RUNNING;
        } else {
          launch := true;
        }
      }
    }

    /** The read data register: cleared, then the pieces of the addressed word. */
    method ClockRead(h: Hart, a: Access)
      requires Valid()
      modifies this`dbo
      ensures dbo == ReadOut(config, Registers(), h, a)
    {
      dbo := 0;
      if dmactive && a.Read? {
        if a.adr == DMSTATUS {
          var running, halted := h.state == Running, h.state == Halted;
          var bits := seq(25, k => false)[24 := control.ndmreset][22 := true][19 := control.havereset]
            [18 := control.havereset][17 := control.resumeack][16 := control.resumeack]
            [11 := running][10 := running][9 := halted][8 := halted][7 := true][1 := true][0 := true];
          assert bits == StatusBits(Registers(), h);
          dbo := ToNat(bits);
        } else if a.adr == DMCONTROL {
          dbo := if control.ndmreset then 3 else 1;
        } else if a.adr == HARTINFO {
          dbo := config.numdata % 16 * 0x1000;
        } else if a.adr == ABSTRACTAUTO {
          dbo := ToNat(AutoBits(SharedRegs()));
        } else if a.adr == PROGBUF0 {
          dbo := progbuf0;
        } else if a.adr == PROGBUF1 && config.progbufSize == 2 {
          dbo := progbuf1;
        } else if IsData(config, a.adr) {
          dbo := data[a.adr - DATA0];
        } else if a.adr == ABSTRACTCS {
          dbo := config.progbufSize * 0x100_0000 + (if launch || h.command != NoCommand then 0x1000 else 0)
                 + cmderr % 8 * 0x100 + config.numdata % 16;
        }
      }
    }

    method Clock(h: Hart, a: Access)
      requires Valid()
      modifies this
      ensures Valid() && Registers() == Step(config, old(Registers()), h, a)
      ensures dbo == ReadOut(config, old(Registers()), h, a)
    {
      ClockRead(h, a);
      ClockRegisters(h, a);
    }

    method ClockRegisters(h: Hart, a: Access)
      requires Valid()
      modifies this
      ensures Valid() && Registers() == Step(config, old(Registers()), h, a)
      ensures dbo == old(dbo)
    {
      ghost var r := Registers();
      if !dmactive {
        control := Control(false, false, false, false, false);
        launch, cmderr, busyError := false, ERR_NONE, false;
        autoData, autoProgbuf := Flags(0, 0, config.numdata), Flags(0, 0, config.progbufSize);
        command := Command(0, false, false, false, false, 0);
        if a.Write? && a.adr == DMCONTROL && Flag(a.data, 0) {
          dmactive := true;
        }
        return;
      }
      var busy, wasErr := launch || h.command != NoCommand, cmderr;
      var auto := a != NoAccess && AutoExec(config, Registers(), a.adr);
      ClockLifecycle(h);
      if a.Read? && IsWindow(config, a.adr) && a.adr != DMCONTROL && a.adr != DMSTATUS && a.adr != HARTINFO {
        if busy {
          if wasErr == ERR_NONE {
            busyError := true;
          }
        } else {
          LaunchIfAuto(r, h, a.adr, auto, wasErr);
        }
      } else if a.Write? {
        ClockWrite(r, h, a.adr, a.data, busy, auto, wasErr);
      }
    }

    method ClockWrite(ghost r: Regs, h: Hart, adr: nat, dbi: U32, busy: bool, auto: bool, wasErr: nat)
      requires Valid() && Shaped(config, r)
      requires busy == Busy(r, h) && auto == AutoExec(config, r, adr) && wasErr == r.cmderr
      modifies this
      ensures Registers() == AccessStep(config, old(Registers()), r, h, Write(adr, dbi)) && dbo == old(dbo)
    {
      if adr == DMCONTROL {
        if !Flag(dbi, 0) {
          dmactive := false;
        } else {
          ClockControl(h, dbi, busy);
        }
      } else if adr == COMMAND {
        ClockCommand(r, h, dbi, busy, wasErr);
      } else if busy {
        if wasErr == ERR_NONE && (IsWindow(config, adr) || adr == ABSTRACTCS || adr == ABSTRACTAUTO) {
          busyError := true;
        }
      } else if IsWindow(config, adr) {
        StoreWindow(adr, dbi);
        LaunchIfAuto(r, h, adr, auto, wasErr);
      } else if adr == ABSTRACTCS {
        cmderr := ClearErr(wasErr, Field(dbi, 11, 8));
      } else if adr == ABSTRACTAUTO {
        autoData := Flags(dbi, 0, config.numdata);
        autoProgbuf := Flags(dbi, 16, config.progbufSize);
      }
    }

    method ClockCommand(ghost r: Regs, h: Hart, dbi: U32, busy: bool, wasErr: nat)
      requires busy == Busy(r, h) && wasErr == r.cmderr
      modifies this`busyError, this`cmderr, this`command, this`launch
      ensures Registers() == WriteCommand(old(Registers()), r, h, dbi)
    {
      if wasErr == ERR_NONE {
        if busy {
          busyError := true;
        } else if h.state == Running {
          cmderr := ERR_HART_RUNNING;
        } else if Field(dbi, 32, 24) == 0 {
          command := CommandOf(dbi);
          if Flag(dbi, 19) {
            cmderr := ERR_NOT_SUPPORTED;
          } else if !Flag(dbi, 17) || (Field(dbi, 23, 20) == 2 && Field(dbi, 16, 5) == 0x80) {
            launch := true;
          } else {
            cmderr := ERR_NOT_SUPPORTED;
          }
        } else {
          cmderr := ERR_NOT_SUPPORTED;
        }
      }
    }
  }
}
