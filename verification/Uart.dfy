/** The serial port (rtl/uncore/uart/uart.py): divisor registers, 8N1 transmitter and
    majority-voting receiver, each as registers and one clock edge.
 */
module Uart {
  type Octet = b: seq<bool> | |b| == 8 witness seq(8, k => false)

  const ZERO: Octet := [false, false, false, false, false, false, false, false]

  type U16 = x: int | 0 <= x < 0x1_0000

  /** Values stored when the divisor is written. */
  datatype Timing = Timing(divider: U16, qualTicks: U16, sampleTicks: U16)

  /** Shift-and-add approximations of 13/16 and 11/16 of the divisor. */
  function ProgramDivider(d: U16): Timing {
    Timing(d, d / 2 + d / 4 + d / 16, d / 2 + d / 8 + d / 16)
  }

  // ---- transmitter ----

  datatype Tx = Tx(busy: bool, line: bool, bufferValid: bool, buffer: Octet, shift: Octet, index: nat, count: U16)

  /** A processor write to the transmit register. */
  datatype Write = NoWrite | Write(data: Octet)

  /** A write is handed to the transmitter only while its buffer is free. */
  predicate Accepts(t: Tx, w: Write) {
    w.Write? && !t.bufferValid
  }

  function TxStart(t: Tx, data: Octet): Tx {
    t.(busy := true, shift := data, line := false, index := 0)
  }

  function TxStep(t: Tx, divider: U16, w: Write): Tx {
    if !t.busy then
      if Accepts(t, w) then TxStart(t, w.data).(count := divider) else t
    else if t.count != 0 then
      Buffer(t.(count := t.count - 1), t, w)
    else if t.index < 8 then
      Buffer(t.(count := divider, line := t.shift[t.index], index := t.index + 1), t, w)
    else if t.index == 8 then
      Buffer(t.(count := divider, line := true, index := 9), t, w)
    else if t.bufferValid then
      TxStart(t, t.buffer).(count := divider, bufferValid := false)
    else if Accepts(t, w) then
      TxStart(t, w.data).(count := divider)
    else
      t.(count := divider, busy := false, line := true, index := 0)
  }

  /** Keep an accepted byte for the next frame. */
  function Buffer(t': Tx, t: Tx, w: Write): Tx {
    if Accepts(t, w) then t'.(buffer := w.data, bufferValid := true) else t'
  }

  // ---- receiver ----

  /** The receive state machine; `prev` is the synchronised line one cycle ago. */
  datatype Rx = Rx(prev: bool, candidate: bool, busy: bool, stop: bool, shift: Octet, index: nat,
                   count: U16, ticks: U16, phase: nat, ones: nat)

  predicate Majority(ones: nat, now: bool) {
    ones == 2 || (ones == 1 && now)
  }

  /** The edge that hands over a received byte. */
  predicate Delivers(x: Rx) {
    !x.candidate && x.busy && x.count == 0 && x.phase == 2 && x.stop
  }

  function RxStep(x: Rx, t: Timing, now: bool): Rx {
    var x' := x.(prev := now);
    if x.candidate then
      if now then x'.(candidate := false, ticks := 0)
      else if x.ticks == t.qualTicks then
        x'.(candidate := false, ticks := 0, busy := true, stop := false, index := 0, phase := 0, ones := 0,
            count := t.sampleTicks)
      else x'.(ticks := (x.ticks + 1) % 0x1_0000)
    else if x.busy then
      if x.count != 0 then x'.(count := x.count - 1)
      else if x.phase != 2 then x'.(ones := x.ones + (if now then 1 else 0), phase := x.phase + 1, count := 0)
      else
        var y := x'.(phase := 0, ones := 0, count := (t.divider - 2) % 0x1_0000);
        if x.stop then y.(busy := false, stop := false, index := 0)
        else
          var z := if x.index < 8 then y.(shift := x.shift[x.index := Majority(x.ones, now)]) else y;
          if x.index == 7 then z.(stop := true) else z.(index := x.index + 1)
    else if x.prev && !now then x'.(candidate := true, ticks := 0)
    else x'
  }

  /** The receive register as the processor sees it. */
  datatype Holding = Holding(data: Octet, ready: bool, framingError: bool)

  function HoldingStep(h: Holding, x: Rx, now: bool, read: bool): Holding {
    if Delivers(x) then Holding(x.shift, true, !Majority(x.ones, now))
    else if read then Holding(h.data, false, false)
    else h
  }

  /** Receiver with its two synchroniser flip-flops. */
  datatype Receiver = Receiver(sync1: bool, sync2: bool, rx: Rx, holding: Holding)

  function ReceiverStep(r: Receiver, t: Timing, line: bool, read: bool): Receiver {
    Receiver(line, r.sync1, RxStep(r.rx, t, r.sync2), HoldingStep(r.holding, r.rx, r.sync2, read))
  }

  const RX_IDLE := Rx(true, false, false, false, ZERO, 0, 0, 0, 0, 0)
  const TX_IDLE := Tx(false, true, false, ZERO, ZERO, 0, 0)
  const RECEIVER_IDLE := Receiver(true, true, RX_IDLE, Holding(ZERO, false, false))

  // ---- the circuit ----

  class BonfireUart {
    var txDivider: U16
    var qualTicks: U16
    var sampleTicks: U16
    // transmitter
    var txBusy: bool
    var txLine: bool
    var txBufferValid: bool
    var txBuffer: Octet
    var txShift: Octet
    var txIndex: nat
    var txCount: U16
    // receiver
    var sync1: bool
    var sync2: bool
    var prev: bool
    var candidate: bool
    var rxBusy: bool
    var stopBit: bool
    var rxShift: Octet
    var rxIndex: nat
    var rxCount: U16
    var startTicks: U16
    var samplePhase: nat
    var sampleOnes: nat
    var rxData: Octet
    var rxReady: bool
    var rxFramingError: bool

    constructor ()
      ensures Times() == ProgramDivider(0xFFFF) && Transmitter() == TX_IDLE && Receiving() == RECEIVER_IDLE
    {
      txDivider, qualTicks, sampleTicks := 0xFFFF, 0x7FFF + 0x3FFF + 0xFFF, 0x7FFF + 0x1FFF + 0xFFF;
      txBusy, txLine, txBufferValid, txBuffer, txShift, txIndex, txCount := false, true, false, ZERO, ZERO, 0, 0;
      sync1, sync2, prev, candidate, rxBusy, stopBit := true, true, true, false, false, false;
      rxShift, rxIndex, rxCount, startTicks, samplePhase, sampleOnes := ZERO, 0, 0, 0, 0, 0;
      rxData, rxReady, rxFramingError := ZERO, false, false;
    }

    function Times(): Timing
      reads this
    {
      Timing(txDivider, qualTicks, sampleTicks)
    }

    function Transmitter(): Tx
      reads this
    {
      Tx(txBusy, txLine, txBufferValid, txBuffer, txShift, txIndex, txCount)
    }

    function Fsm(): Rx
      reads this
    {
      Rx(prev, candidate, rxBusy, stopBit, rxShift, rxIndex, rxCount, startTicks, samplePhase, sampleOnes)
    }

    function Receiving(): Receiver
      reads this
    {
      Receiver(sync1, sync2, Fsm(), Holding(rxData, rxReady, rxFramingError))
    }

    /** A write to the control register. */
    method WriteControl(d: U16)
      modifies this`txDivider, this`qualTicks, this`sampleTicks
      ensures Times() == ProgramDivider(d)
    {
      txDivider := d;
      qualTicks := d / 2 + d / 4 + d / 16;
      sampleTicks := d / 2 + d / 8 + d / 16;
    }

    method ClockTx(w: Write)
      modifies this`txBusy, this`txLine, this`txBufferValid, this`txBuffer, this`txShift, this`txIndex, this`txCount
      ensures Transmitter() == TxStep(old(Transmitter()), txDivider, w)
    {
      var regWrite := w.Write? && !txBufferValid;
      if txBusy {
        var direct := txCount == 0 && txIndex > 8 && !txBufferValid;
        if txCount == 0 {
          txCount := txDivider;
          if txIndex < 8 {
            txLine := txShift[txIndex];
            txIndex := txIndex + 1;
          } else if txIndex == 8 {
            txLine := true;
            txIndex := 9;
          } else {
            if txBufferValid {
              txShift := txBuffer;
              txBufferValid := false;
              txLine := false;
              txIndex := 0;
            } else if regWrite {
              txShift := w.data;
              txLine := false;
              txIndex := 0;
            } else {
              txBusy := false;
              txLine := true;
              txIndex := 0;
            }
          }
        } else {
          txCount := txCount - 1;
        }
        if regWrite && !direct {
          txBuffer := w.data;
          txBufferValid := true;
        }
      } else if regWrite {
        txBusy := true;
        txShift := w.data;
        txLine := false;
        txIndex := 0;
        txCount := txDivider;
      }
    }

    method ClockHolding(read: bool)
      modifies this`rxData, this`rxReady, this`rxFramingError
      ensures Holding(rxData, rxReady, rxFramingError)
           == HoldingStep(old(Holding(rxData, rxReady, rxFramingError)), Fsm(), sync2, read)
    {
      if read {
        rxReady := false;
        rxFramingError := false;
      }
      if !candidate && rxBusy && rxCount == 0 && samplePhase == 2 && stopBit {
        rxData := rxShift;
        rxReady := true;
        rxFramingError := !(sampleOnes == 2 || (sampleOnes == 1 && sync2));
      }
    }

    /** The third sample of a bit: store the vote, or finish the frame. */
    method EndOfBit()
      requires !candidate && rxBusy && rxCount == 0 && samplePhase == 2
      modifies this`rxBusy, this`stopBit, this`rxShift, this`rxIndex, this`rxCount, this`samplePhase, this`sampleOnes
      ensures Fsm().(prev := sync2) == RxStep(old(Fsm()), Times(), sync2)
    {
      if stopBit {
        rxBusy := false;
        stopBit := false;
        rxIndex := 0;
      } else {
        if rxIndex < 8 {
          rxShift := rxShift[rxIndex := sampleOnes == 2 || (sampleOnes == 1 && sync2)];
        }
        if rxIndex == 7 {
          stopBit := true;
        } else {
          rxIndex := rxIndex + 1;
        }
      }
      samplePhase := 0;
      sampleOnes := 0;
      rxCount := (txDivider - 2) % 0x1_0000;
    }

    method ClockFsm()
      modifies this`prev, this`candidate, this`rxBusy, this`stopBit, this`rxShift, this`rxIndex, this`rxCount,
        this`startTicks, this`samplePhase, this`sampleOnes
      ensures Fsm() == RxStep(old(Fsm()), Times(), sync2)
    {
      var now := sync2;
      if candidate {
        if now {
          candidate := false;
          startTicks := 0;
        } else if startTicks == qualTicks {
          candidate := false;
          startTicks := 0;
          rxBusy := true;
          stopBit := false;
          rxIndex := 0;
          samplePhase := 0;
          sampleOnes := 0;
          rxCount := sampleTicks;
        } else {
          startTicks := (startTicks + 1) % 0x1_0000;
        }
      } else if rxBusy {
        if rxCount == 0 {
          if samplePhase == 2 {
            EndOfBit();
          } else {
            if now {
              sampleOnes := sampleOnes + 1;
            }
            samplePhase := samplePhase + 1;
            rxCount := 0;
          }
        } else {
          rxCount := rxCount - 1;
        }
      } else if prev && !now {
        candidate := true;
        startTicks := 0;
      }
      prev := now;
    }

    method ClockRx(line: bool, read: bool)
      modifies this`sync1, this`sync2, this`prev, this`candidate, this`rxBusy, this`stopBit, this`rxShift,
        this`rxIndex, this`rxCount, this`startTicks, this`samplePhase, this`sampleOnes, this`rxData, this`rxReady,
        this`rxFramingError
      ensures Receiving() == ReceiverStep(old(Receiving()), Times(), line, read)
    {
      ClockHolding(read);
      ClockFsm();
      sync2 := sync1;
      sync1 := line;
    }
  }
}
