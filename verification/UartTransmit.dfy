/** What the transmitter takes from the processor, when it has sent it, and what a frame is, without the
    transmitter's own predicates.
 */
module UartTransmit {
  import opened Sequences
  import opened Uart
  import opened UartFrames

  // ---- frames ----

  lemma TimesNext(m: nat, w: nat)
    ensures (m + 1) * w == w + m * w
  {
  }

  lemma {:induction false} TailLength(d: U16, data: Octet, from: nat, w: nat)
    requires from <= 8 && w == d + 1
    ensures |Tail(d, data, from)| == (9 - from) * w
    decreases 8 - from
  {
    if from == 8 {
    } else {
      TailLength(d, data, from + 1, w);
      TimesNext(8 - from, w);
    }
  }

  /** An index behind the first of two parts. */
  lemma Behind(u: seq<bool>, v: seq<bool>, i: nat)
    requires i < |v|
    ensures (u + v)[|u| + i] == v[i]
  {
  }

  /** The `i`-th cycle of bit `k`, counted from bit `from`. */
  function Cycle(k: nat, from: nat, c: nat, w: nat): (i: nat)
    requires from <= k
  {
    (k - from) * w + c
  }

  lemma CycleNext(k: nat, from: nat, c: nat, w: nat)
    requires from <= k
    ensures if k == from then Cycle(k, from, c, w) == c else Cycle(k, from, c, w) == w + Cycle(k, from + 1, c, w)
  {
    if k == from {
    } else {
      TimesNext(k - from - 1, w);
    }
  }

  lemma {:induction false} TailAt(d: U16, data: Octet, from: nat, k: nat, c: nat, w: nat, i: nat)
    requires from <= k < 9 && c < w && w == d + 1 && i == Cycle(k, from, c, w)
    ensures i < |Tail(d, data, from)| && Tail(d, data, from)[i] == if k == 8 then true else data[k]
    decreases 8 - from
  {
    CycleNext(k, from, c, w);
    if k == from {
    } else {
      TailAt(d, data, from + 1, k, c, w, i - w);
      Behind(Rep(data[from], w), Tail(d, data, from + 1), i - w);
    }
  }

  /** A frame is ten bits of d + 1 cycles: a low start bit, the data bits from the least significant one on, and a
      high stop bit. */
  lemma FrameAt(d: U16, data: Octet, k: nat, c: nat, w: nat)
    requires k < 10 && c < w && w == d + 1
    ensures |FrameWave(d, data)| == 10 * w && k * w + c < |FrameWave(d, data)|
    ensures FrameWave(d, data)[k * w + c] == if k == 0 then false else if k == 9 then true else data[k - 1]
  {
    FrameLength(d, data, w);
    if k == 0 {
    } else {
      BitAt(d, data, k, c, w, (k - 1) * w + c);
      TimesNext(k - 1, w);
    }
  }

  lemma FrameLength(d: U16, data: Octet, w: nat)
    requires w == d + 1
    ensures |FrameWave(d, data)| == 10 * w
  {
    TailLength(d, data, 0, w);
  }

  /** A bit behind the start bit. */
  lemma BitAt(d: U16, data: Octet, k: nat, c: nat, w: nat, i: nat)
    requires 1 <= k < 10 && c < w && w == d + 1 && i == (k - 1) * w + c
    ensures w + i < |FrameWave(d, data)| && FrameWave(d, data)[w + i] == if k == 9 then true else data[k - 1]
  {
    TailAt(d, data, 0, k - 1, c, w, i);
    Behind(Rep(false, w), Tail(d, data, 0), i);
  }

  // ---- which writes are taken ----

  /** The run with one more cycle. */
  lemma {:induction false} RunSnoc(t: Tx, d: U16, ws: seq<Write>, w: Write)
    ensures TxRun(t, d, ws + [w]) == TxStep(TxRun(t, d, ws), d, w)
    ensures Accepted(t, d, ws + [w]) == Accepted(t, d, ws) + Taken(TxRun(t, d, ws), w)
    decreases |ws|
  {
    if ws == [] {
      assert ws + [w] == [w] && [w][1..] == [];
      assert Taken(t, w) + [] == Taken(t, w) == [] + Taken(t, w);
    } else {
      assert (ws + [w])[1..] == ws[1..] + [w];
      RunSnoc(TxStep(t, d, ws[0]), d, ws[1..], w);
      Assoc(Taken(t, ws[0]), Accepted(TxStep(t, d, ws[0]), d, ws[1..]), Taken(TxRun(t, d, ws), w));
    }
  }

  /** The bytes of all frames begun, and the one in the buffer. */
  function Sent(d: U16, ws: seq<Write>): seq<Octet> {
    var t := TxRun(TX_IDLE, d, ws);
    Bytes(Items(TX_IDLE, d, ws)) + if t.bufferValid then [t.buffer] else []
  }

  /** A write adds its byte exactly when the buffer is free, whatever the transmitter is doing; nothing else adds
      or removes one. */
  lemma SentSnoc(d: U16, ws: seq<Write>, w: Write)
    ensures Sent(d, ws) == Accepted(TX_IDLE, d, ws)
    ensures Sent(d, ws + [w])
         == Sent(d, ws) + if w.Write? && !TxRun(TX_IDLE, d, ws).bufferValid then [w.data] else []
  {
    TransmitsAccepted(d, ws);
    TransmitsAccepted(d, ws + [w]);
    RunSnoc(TX_IDLE, d, ws, w);
  }

  /** Seen from outside: a write is taken if and only if the frame of every byte taken before has begun. */
  lemma TakenIffBegun(d: U16, ws: seq<Write>, b: Octet)
    ensures Accepted(TX_IDLE, d, ws + [Write(b)])
         == Accepted(TX_IDLE, d, ws)
          + if Accepted(TX_IDLE, d, ws) == Bytes(Items(TX_IDLE, d, ws)) then [b] else []
    ensures Accepted(TX_IDLE, d, ws + [NoWrite]) == Accepted(TX_IDLE, d, ws)
  {
    TransmitsAccepted(d, ws);
    SentSnoc(d, ws, Write(b));
    SentSnoc(d, ws, NoWrite);
    TransmitsAccepted(d, ws + [Write(b)]);
    TransmitsAccepted(d, ws + [NoWrite]);
    var t := TxRun(TX_IDLE, d, ws);
    assert t.bufferValid ==> |Accepted(TX_IDLE, d, ws)| == |Bytes(Items(TX_IDLE, d, ws))| + 1;
    assert Bytes(Items(TX_IDLE, d, ws)) + [] == Bytes(Items(TX_IDLE, d, ws));
  }

  function Pause(n: nat): (ws: seq<Write>)
    ensures |ws| == n
  {
    seq(n, k => NoWrite)
  }

  /** A free buffer stays free without writes, and nothing is taken. */
  lemma {:induction false} StaysFree(d: U16, ws: seq<Write>, n: nat)
    requires !TxRun(TX_IDLE, d, ws).bufferValid
    ensures !TxRun(TX_IDLE, d, ws + Pause(n)).bufferValid && Sent(d, ws + Pause(n)) == Sent(d, ws)
  {
    if n == 0 {
      assert ws + Pause(0) == ws;
    } else {
      StaysFree(d, ws, n - 1);
      assert ws + Pause(n) == ws + Pause(n - 1) + [NoWrite];
      RunSnoc(TX_IDLE, d, ws + Pause(n - 1), NoWrite);
      SentSnoc(d, ws + Pause(n - 1), NoWrite);
    }
  }

  /** Two bytes written after power-up are both sent, in every cycle the second one may come. */
  lemma TwoWritesSent(d: U16, a: Octet, b: Octet, n: nat)
    ensures Sent(d, [Write(a)] + Pause(n) + [Write(b)]) == [a, b]
  {
    assert [] + [Write(a)] == [Write(a)];
    SentSnoc(d, [], Write(a));
    assert Sent(d, []) == [];
    RunSnoc(TX_IDLE, d, [], Write(a));
    StaysFree(d, [Write(a)], n);
    SentSnoc(d, [Write(a)] + Pause(n), Write(b));
  }

  // ---- when everything is sent ----

  /** Cycles until the transmitter is at rest, if nothing more is written. */
  function CyclesLeft(d: U16, t: Tx): nat
    requires TxOk(t)
  {
    |Remaining(d, t)| + if t.bufferValid then 10 * (d + 1) else 0
  }

  /** Without a write, each cycle of a busy transmitter brings the rest one cycle closer. */
  lemma PauseStep(d: U16, t: Tx)
    requires TxOk(t)
    ensures TxOk(TxStep(t, d, NoWrite)) && (t.busy <==> CyclesLeft(d, t) > 0)
    ensures CyclesLeft(d, TxStep(t, d, NoWrite)) == if t.busy then CyclesLeft(d, t) - 1 else 0
  {
    TxLine(d, t, NoWrite);
    WaveOfBegun(d, t, NoWrite);
    if t.bufferValid {
      FrameLength(d, t.buffer, d + 1);
    }
  }

  /** The transmitter is busy for exactly these cycles. */
  lemma {:induction false} BusyIffLeft(d: U16, t: Tx, n: nat)
    requires TxOk(t)
    ensures TxOk(TxRun(t, d, Pause(n))) && (TxRun(t, d, Pause(n)).busy <==> n < CyclesLeft(d, t))
    decreases n
  {
    PauseStep(d, t);
    if n == 0 {
    } else {
      assert Pause(n)[1..] == Pause(n - 1);
      BusyIffLeft(d, TxStep(t, d, NoWrite), n - 1);
    }
  }

  /** The remaining cycles are at most those of two frames. */
  lemma LeftBound(d: U16, t: Tx)
    requires TxOk(t) && t.count <= d
    ensures CyclesLeft(d, t) <= 20 * (d + 1)
  {
    if t.busy && t.index < 9 {
      TailLength(d, t.shift, t.index, d + 1);
      assert (9 - t.index) * (d + 1) <= 9 * (d + 1);
    }
  }

  lemma {:induction false} CountBound(d: U16, t: Tx, ws: seq<Write>)
    requires t.count <= d
    ensures TxRun(t, d, ws).count <= d
    decreases |ws|
  {
    if ws == [] {
    } else {
      CountBound(d, TxStep(t, d, ws[0]), ws[1..]);
    }
  }

  lemma {:induction false} TxRunConcat(t: Tx, d: U16, a: seq<Write>, b: seq<Write>)
    ensures TxRun(t, d, a + b) == TxRun(TxRun(t, d, a), d, b)
    decreases |a|
  {
    if a == [] {
      assert a + b == b;
    } else {
      assert (a + b)[1..] == a[1..] + b;
      TxRunConcat(TxStep(t, d, a[0]), d, a[1..], b);
    }
  }

  lemma {:induction false} PauseTakesNothing(d: U16, ws: seq<Write>, n: nat)
    ensures Accepted(TX_IDLE, d, ws + Pause(n)) == Accepted(TX_IDLE, d, ws)
  {
    if n == 0 {
      assert ws + Pause(0) == ws;
    } else {
      PauseTakesNothing(d, ws, n - 1);
      assert ws + Pause(n) == ws + Pause(n - 1) + [NoWrite];
      TakenIffBegun(d, ws + Pause(n - 1), ZERO);
    }
  }

  /** After any run and twenty bits without a write, the line has been exactly the frames of all bytes taken, in
      order, and rest cycles. */
  lemma AllSent(d: U16, ws: seq<Write>, n: nat)
    requires n >= 20 * (d + 1)
    ensures !TxRun(TX_IDLE, d, ws + Pause(n)).busy
    ensures Line(TX_IDLE, d, ws + Pause(n)) == Wave(d, Items(TX_IDLE, d, ws + Pause(n)))
    ensures Bytes(Items(TX_IDLE, d, ws + Pause(n))) == Accepted(TX_IDLE, d, ws)
  {
    TransmitsAccepted(d, ws);
    CountBound(d, TX_IDLE, ws);
    var t := TxRun(TX_IDLE, d, ws);
    LeftBound(d, t);
    BusyIffLeft(d, t, n);
    TxRunConcat(TX_IDLE, d, ws, Pause(n));
    TransmitsAccepted(d, ws + Pause(n));
    PauseTakesNothing(d, ws, n);
    var line := Line(TX_IDLE, d, ws + Pause(n));
    assert line + [] == line;
    var bytes := Bytes(Items(TX_IDLE, d, ws + Pause(n)));
    assert bytes + [] == bytes;
  }
}
