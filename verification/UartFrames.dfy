/** 8N1 frames as waveforms, and the transmitter as a producer of them. */
module UartFrames {
  import opened Sequences
  import opened Uart

  /** `n` cycles of the same line level. */
  function Rep(v: bool, n: nat): (s: seq<bool>)
    ensures |s| == n
  {
    seq(n, k => v)
  }

  lemma RepSplit(v: bool, a: nat, b: nat)
    ensures Rep(v, a + b) == Rep(v, a) + Rep(v, b)
  {
  }

  /** Data bits `from`.. of a byte, least significant first, then the stop bit; a bit lasts d + 1 cycles. */
  function Tail(d: U16, data: Octet, from: nat): seq<bool>
    requires from <= 8
    decreases 8 - from
  {
    if from == 8 then Rep(true, d + 1) else Rep(data[from], d + 1) + Tail(d, data, from + 1)
  }

  function FrameWave(d: U16, data: Octet): seq<bool> {
    Rep(false, d + 1) + Tail(d, data, 0)
  }

  /** A line history in units: a cycle of rest, or a whole frame. */
  datatype Item = Quiet | Frame(data: Octet)

  function ItemWave(d: U16, i: Item): seq<bool> {
    match i
    case Quiet => [true]
    case Frame(data) => FrameWave(d, data)
  }

  function Wave(d: U16, items: seq<Item>): seq<bool> {
    if items == [] then [] else ItemWave(d, items[0]) + Wave(d, items[1..])
  }

  function Bytes(items: seq<Item>): seq<Octet> {
    if items == [] then []
    else (if items[0].Frame? then [items[0].data] else []) + Bytes(items[1..])
  }

  lemma WaveFirst(d: U16, i: Item, rest: seq<Item>)
    ensures Wave(d, [i] + rest) == ItemWave(d, i) + Wave(d, rest)
  {
    assert ([i] + rest)[1..] == rest;
  }

  lemma WaveJoin(d: U16, i: Item, rest: seq<Item>, b: seq<Item>)
    requires Wave(d, rest + b) == Wave(d, rest) + Wave(d, b)
    ensures Wave(d, [i] + (rest + b)) == Wave(d, [i] + rest) + Wave(d, b)
  {
    WaveFirst(d, i, rest + b);
    WaveFirst(d, i, rest);
    Assoc(ItemWave(d, i), Wave(d, rest), Wave(d, b));
  }

  lemma WaveSplit(d: U16, a: seq<Item>, i: Item, rest: seq<Item>, b: seq<Item>)
    requires a == [i] + rest
    requires Wave(d, rest + b) == Wave(d, rest) + Wave(d, b)
    ensures Wave(d, a + b) == Wave(d, a) + Wave(d, b)
  {
    WaveJoin(d, i, rest, b);
    Assoc([i], rest, b);
  }

  lemma {:induction false} WaveConcat(d: U16, a: seq<Item>, b: seq<Item>)
    ensures Wave(d, a + b) == Wave(d, a) + Wave(d, b)
  {
    if a == [] {
      assert a + b == b;
    } else {
      WaveConcat(d, a[1..], b);
      WaveSplit(d, a, a[0], a[1..], b);
    }
  }

  lemma {:induction false} BytesConcat(a: seq<Item>, b: seq<Item>)
    ensures Bytes(a + b) == Bytes(a) + Bytes(b)
  {
    if a == [] {
      assert a + b == b;
    } else {
      BytesConcat(a[1..], b);
      assert (a + b)[1..] == a[1..] + b;
      Assoc(if a[0].Frame? then [a[0].data] else [], Bytes(a[1..]), Bytes(b));
    }
  }

  // ---- the transmitter ----

  predicate TxOk(t: Tx) {
    && t.index <= 9
    && (!t.busy ==> t.line && !t.bufferValid)
    && (t.busy && t.index == 9 ==> t.line)
  }

  /** The part of the current frame that is still to come, with the level driven now. */
  function Remaining(d: U16, t: Tx): seq<bool>
    requires TxOk(t)
  {
    if !t.busy then []
    else Rep(t.line, t.count + 1) + if t.index == 9 then [] else Tail(d, t.shift, t.index)
  }

  function Buffered(t: Tx): seq<Octet> {
    if t.bufferValid then [t.buffer] else []
  }

  /** Bytes taken from the processor at this edge. */
  function Taken(t: Tx, w: Write): seq<Octet> {
    if w.Write? && !t.bufferValid then [w.data] else []
  }

  /** The frame that begins at this edge, if one does. */
  function Starting(t: Tx, w: Write): seq<Item> {
    if !t.busy then (if Accepts(t, w) then [Frame(w.data)] else [])
    else if t.count != 0 || t.index < 9 then []
    else if t.bufferValid then [Frame(t.buffer)]
    else if Accepts(t, w) then [Frame(w.data)]
    else []
  }

  /** The units that begin with this cycle or with its edge. */
  function Begun(t: Tx, w: Write): seq<Item> {
    (if t.busy then [] else [Quiet]) + Starting(t, w)
  }

  lemma WaveOfOne(d: U16, i: Item)
    ensures Wave(d, [i]) == ItemWave(d, i)
    ensures Bytes([i]) == if i.Frame? then [i.data] else []
  {
    assert [i][1..] == [];
    assert ItemWave(d, i) + [] == ItemWave(d, i);
  }

  lemma WaveOfBegun(d: U16, t: Tx, w: Write)
    ensures Wave(d, Begun(t, w)) ==
      (if t.busy then [] else [true]) + if Starting(t, w) == [] then [] else FrameWave(d, Starting(t, w)[0].data)
    ensures Bytes(Begun(t, w)) == if Starting(t, w) == [] then [] else [Starting(t, w)[0].data]
  {
    var rest := if t.busy then [] else [Quiet];
    WaveConcat(d, rest, Starting(t, w));
    BytesConcat(rest, Starting(t, w));
    WaveOfOne(d, Quiet);
    if Starting(t, w) != [] {
      WaveOfOne(d, Starting(t, w)[0]);
      assert Starting(t, w) == [Starting(t, w)[0]];
    }
  }

  /** A frame that just started has the whole frame to come. */
  lemma RemainingAtStart(d: U16, t: Tx)
    requires TxOk(t) && t.busy && !t.line && t.index == 0 && t.count == d
    ensures Remaining(d, t) == FrameWave(d, t.shift)
  {
  }

  lemma OneRep(v: bool)
    ensures Rep(v, 1) == [v]
  {
  }

  /** In the middle of a bit the level stays and one cycle less remains. */
  lemma TxLineInBit(d: U16, t: Tx, w: Write)
    requires TxOk(t) && t.busy && t.count != 0
    ensures [t.line] + Remaining(d, TxStep(t, d, w)) == Remaining(d, t)
  {
    var rest := if t.index == 9 then [] else Tail(d, t.shift, t.index);
    RepSplit(t.line, 1, t.count);
    OneRep(t.line);
    Assoc([t.line], Rep(t.line, t.count), rest);
  }

  /** At the end of a bit the next one begins with all its cycles. */
  lemma TxLineAfterBit(d: U16, t: Tx, w: Write)
    requires TxOk(t) && t.busy && t.count == 0 && t.index < 9
    ensures [t.line] + Remaining(d, TxStep(t, d, w)) == Remaining(d, t)
  {
    OneRep(t.line);
    assert Rep(true, d + 1) + [] == Rep(true, d + 1);
    assert Remaining(d, TxStep(t, d, w)) == Tail(d, t.shift, t.index);
  }

  /** At rest, or at the end of a stop bit, the frame that starts is all there is to come. */
  lemma TxLineBetween(d: U16, t: Tx, w: Write, begun: seq<bool>)
    requires TxOk(t) && !(t.busy && (t.count != 0 || t.index < 9))
    requires begun == if Starting(t, w) == [] then [] else FrameWave(d, Starting(t, w)[0].data)
    ensures TxOk(TxStep(t, d, w))
    ensures [t.line] + Remaining(d, TxStep(t, d, w)) == Remaining(d, t) + ((if t.busy then [] else [true]) + begun)
  {
    if Starting(t, w) != [] {
      RemainingAtStart(d, TxStep(t, d, w));
    }
    assert Remaining(d, TxStep(t, d, w)) == begun;
    OneRep(t.line);
    assert Remaining(d, t) == if t.busy then [t.line] else [];
    assert [] + begun == begun && [true] + [] + begun == [true] + begun;
  }

  /** Each cycle sends one level; frames begun and the cycle's level balance the remaining wave. */
  lemma TxLine(d: U16, t: Tx, w: Write)
    requires TxOk(t)
    ensures TxOk(TxStep(t, d, w))
    ensures [t.line] + Remaining(d, TxStep(t, d, w)) == Remaining(d, t) + Wave(d, Begun(t, w))
  {
    WaveOfBegun(d, t, w);
    if t.busy && (t.count != 0 || t.index < 9) {
      if t.count != 0 {
        TxLineInBit(d, t, w);
      } else {
        TxLineAfterBit(d, t, w);
      }
      assert Wave(d, Begun(t, w)) == [];
    } else {
      TxLineBetween(d, t, w, if Starting(t, w) == [] then [] else FrameWave(d, Starting(t, w)[0].data));
    }
  }

  /** Bytes are conserved: taken ones are either begun as frames or wait in the buffer. */
  lemma TxBytes(d: U16, t: Tx, w: Write)
    requires TxOk(t)
    ensures Buffered(t) + Taken(t, w) == Bytes(Begun(t, w)) + Buffered(TxStep(t, d, w))
  {
    WaveOfBegun(d, t, w);
  }

  // ---- transmitter runs ----

  function TxRun(t: Tx, d: U16, ws: seq<Write>): Tx
    decreases |ws|
  {
    if ws == [] then t else TxRun(TxStep(t, d, ws[0]), d, ws[1..])
  }

  /** The level of the line in every cycle of a run. */
  function Line(t: Tx, d: U16, ws: seq<Write>): (s: seq<bool>)
    ensures |s| == |ws|
    decreases |ws|
  {
    if ws == [] then [] else [t.line] + Line(TxStep(t, d, ws[0]), d, ws[1..])
  }

  function Items(t: Tx, d: U16, ws: seq<Write>): seq<Item>
    decreases |ws|
  {
    if ws == [] then [] else Begun(t, ws[0]) + Items(TxStep(t, d, ws[0]), d, ws[1..])
  }

  /** The bytes the processor handed over, in order. */
  function Accepted(t: Tx, d: U16, ws: seq<Write>): seq<Octet>
    decreases |ws|
  {
    if ws == [] then [] else Taken(t, ws[0]) + Accepted(TxStep(t, d, ws[0]), d, ws[1..])
  }

  lemma {:induction false} TxRunLine(t: Tx, d: U16, ws: seq<Write>)
    requires TxOk(t)
    ensures TxOk(TxRun(t, d, ws))
    ensures Line(t, d, ws) + Remaining(d, TxRun(t, d, ws)) == Remaining(d, t) + Wave(d, Items(t, d, ws))
    decreases |ws|
  {
    if ws == [] {
      assert [] + Remaining(d, t) == Remaining(d, t) + [];
    } else {
      var t' := TxStep(t, d, ws[0]);
      TxLine(d, t, ws[0]);
      TxRunLine(t', d, ws[1..]);
      WaveConcat(d, Begun(t, ws[0]), Items(t', d, ws[1..]));
      Rotate(Remaining(d, t), Wave(d, Begun(t, ws[0])), Wave(d, Items(t', d, ws[1..])),
             [t.line], Remaining(d, t'), Line(t', d, ws[1..]), Remaining(d, TxRun(t', d, ws[1..])));
    }
  }

  lemma {:induction false} TxRunBytes(t: Tx, d: U16, ws: seq<Write>)
    requires TxOk(t)
    ensures Buffered(t) + Accepted(t, d, ws) == Bytes(Items(t, d, ws)) + Buffered(TxRun(t, d, ws))
    decreases |ws|
  {
    if ws == [] {
      assert Buffered(t) + [] == [] + Buffered(t);
    } else {
      var t' := TxStep(t, d, ws[0]);
      TxLine(d, t, ws[0]);
      TxBytes(d, t, ws[0]);
      TxRunBytes(t', d, ws[1..]);
      BytesConcat(Begun(t, ws[0]), Items(t', d, ws[1..]));
      Rotate(Buffered(t), Taken(t, ws[0]), Accepted(t', d, ws[1..]),
             Bytes(Begun(t, ws[0])), Buffered(t'), Bytes(Items(t', d, ws[1..])), Buffered(TxRun(t', d, ws[1..])));
    }
  }

  /** From power-up, for every timing of writes: the line so far, continued by the rest of the
      current frame, is a sequence of rest cycles and whole frames, and these frames carry exactly
      the accepted bytes in order, except for one that may still wait in the buffer. */
  lemma {:induction false} TransmitsAccepted(d: U16, ws: seq<Write>)
    ensures TxOk(TxRun(TX_IDLE, d, ws))
    ensures Line(TX_IDLE, d, ws) + Remaining(d, TxRun(TX_IDLE, d, ws)) == Wave(d, Items(TX_IDLE, d, ws))
    ensures Accepted(TX_IDLE, d, ws) == Bytes(Items(TX_IDLE, d, ws)) + Buffered(TxRun(TX_IDLE, d, ws))
  {
    TxRunLine(TX_IDLE, d, ws);
    TxRunBytes(TX_IDLE, d, ws);
  }
}
