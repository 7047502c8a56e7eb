/** Transmitter and receiver connected to each other, and where the timing stops working. */
module UartLoopback {
  import opened Sequences
  import opened Uart
  import opened UartFrames
  import opened UartReceive
  import opened UartTransmit

  // ---- the synchroniser is a delay of two cycles ----

  function ReceiverRun(r: Receiver, t: Timing, line: seq<bool>, polls: seq<bool>): Receiver
    requires |line| == |polls|
    decreases |line|
  {
    if line == [] then r else ReceiverRun(ReceiverStep(r, t, line[0], polls[0]), t, line[1..], polls[1..])
  }

  /** The bytes the receiver hands over while it watches `line`. */
  function Receives(r: Receiver, t: Timing, line: seq<bool>, polls: seq<bool>): seq<Received>
    requires |line| == |polls|
    decreases |line|
  {
    if line == [] then []
    else Delivered(r.rx, r.sync2) + Receives(ReceiverStep(r, t, line[0], polls[0]), t, line[1..], polls[1..])
  }

  lemma {:induction false} SynchroniserDelays(r: Receiver, t: Timing, line: seq<bool>, polls: seq<bool>)
    requires |line| == |polls|
    ensures Receives(r, t, line, polls) == RxBytes(r.rx, t, ([r.sync2, r.sync1] + line)[..|line|])
    decreases |line|
  {
    if line == [] {
    } else {
      var r' := ReceiverStep(r, t, line[0], polls[0]);
      var seen := ([r.sync2, r.sync1] + line)[..|line|];
      SynchroniserDelays(r', t, line[1..], polls[1..]);
      assert seen[0] == r.sync2;
      assert seen[1..] == ([r'.sync2, r'.sync1] + line[1..])[..|line| - 1];
    }
  }

  /** The receive register after a run without a read: the last byte handed over, marked as ready and with its own
      framing error; unchanged if there was none. */
  lemma {:induction false} HeldUnread(r: Receiver, t: Timing, line: seq<bool>, polls: seq<bool>)
    requires |line| == |polls| && forall k :: 0 <= k < |polls| ==> !polls[k]
    ensures var got := Receives(r, t, line, polls);
            ReceiverRun(r, t, line, polls).holding ==
            if got == [] then r.holding else Holding(got[|got| - 1].data, true, got[|got| - 1].framingError)
    decreases |line|
  {
    if line == [] {
    } else {
      HeldUnread(ReceiverStep(r, t, line[0], polls[0]), t, line[1..], polls[1..]);
    }
  }

  lemma {:induction false} ReceiverConcat(r: Receiver, t: Timing, a: seq<bool>, pa: seq<bool>, b: seq<bool>, pb: seq<bool>)
    requires |a| == |pa| && |b| == |pb|
    ensures ReceiverRun(r, t, a + b, pa + pb) == ReceiverRun(ReceiverRun(r, t, a, pa), t, b, pb)
    ensures Receives(r, t, a + b, pa + pb) == Receives(r, t, a, pa) + Receives(ReceiverRun(r, t, a, pa), t, b, pb)
    decreases |a|
  {
    if a == [] {
      assert a + b == b && pa + pb == pb;
    } else {
      assert (a + b)[1..] == a[1..] + b && (pa + pb)[1..] == pa[1..] + pb;
      ReceiverConcat(ReceiverStep(r, t, a[0], pa[0]), t, a[1..], pa[1..], b, pb);
      Assoc(Delivered(r.rx, r.sync2), Receives(ReceiverStep(r, t, a[0], pa[0]), t, a[1..], pa[1..]),
            Receives(ReceiverRun(r, t, a, pa), t, b, pb));
    }
  }

  /** Nothing is hidden by a read: with the last read in cycle n, the register is ready if and only if a byte has been
      handed over in that cycle or later, has that byte's framing error, and holds the last byte of all. */
  lemma HeldSinceRead(r: Receiver, t: Timing, line: seq<bool>, polls: seq<bool>, n: nat)
    requires |line| == |polls| && n < |line|
    requires polls[n] && forall k :: n < k < |polls| ==> !polls[k]
    ensures var before := ReceiverRun(r, t, line[..n], polls[..n]);
            var since := Receives(before, t, line[n..], polls[n..]);
            var h := ReceiverRun(r, t, line, polls).holding;
            && (h.ready <==> since != [])
            && (h.framingError <==> since != [] && since[|since| - 1].framingError)
            && h.data == (if since == [] then before.holding.data else since[|since| - 1].data)
            && Receives(r, t, line, polls) == Receives(r, t, line[..n], polls[..n]) + since
  {
    var before := ReceiverRun(r, t, line[..n], polls[..n]);
    assert line == line[..n] + line[n..] && polls == polls[..n] + polls[n..];
    ReceiverConcat(r, t, line[..n], polls[..n], line[n..], polls[n..]);
    HeldUnread(ReceiverStep(before, t, line[n], polls[n]), t, line[n..][1..], polls[n..][1..]);
  }

  /** The byte in the register is the last one handed over, whatever has been read. */
  lemma {:induction false} LastByteHeld(r: Receiver, t: Timing, line: seq<bool>, polls: seq<bool>)
    requires |line| == |polls|
    ensures var got := Receives(r, t, line, polls);
            ReceiverRun(r, t, line, polls).holding.data == if got == [] then r.holding.data else got[|got| - 1].data
    decreases |line|
  {
    if line == [] {
    } else {
      LastByteHeld(ReceiverStep(r, t, line[0], polls[0]), t, line[1..], polls[1..]);
    }
  }

  // ---- loopback ----

  /** What the receiver hands over in a run whose line is driven by the transmitter. */
  function Loopback(d: U16, ws: seq<Write>, polls: seq<bool>): seq<Received>
    requires |ws| == |polls|
  {
    Receives(RECEIVER_IDLE, ProgramDivider(d), Line(TX_IDLE, d, ws), polls)
  }

  lemma {:induction false} AfterTwoQuiet(d: U16, items: seq<Item>)
    ensures Wave(d, [Quiet, Quiet] + items) == [true, true] + Wave(d, items)
    ensures Bytes([Quiet, Quiet] + items) == Bytes(items)
  {
    assert ([Quiet, Quiet] + items)[1..] == [Quiet] + items;
    assert ([Quiet] + items)[1..] == items;
    Assoc([true], [true], Wave(d, items));
  }

  /** The receiver sees two idle cycles and then the transmitter's units. */
  lemma SeenWave(d: U16, ws: seq<Write>)
    ensures TxOk(TxRun(TX_IDLE, d, ws))
    ensures [true, true] + Line(TX_IDLE, d, ws) + Remaining(d, TxRun(TX_IDLE, d, ws))
         == Wave(d, [Quiet, Quiet] + Items(TX_IDLE, d, ws))
    ensures Bytes([Quiet, Quiet] + Items(TX_IDLE, d, ws)) == Bytes(Items(TX_IDLE, d, ws))
  {
    TransmitsAccepted(d, ws);
    AfterTwoQuiet(d, Items(TX_IDLE, d, ws));
    Assoc([true, true], Line(TX_IDLE, d, ws), Remaining(d, TxRun(TX_IDLE, d, ws)));
  }

  /** What the receiver has seen is the line two cycles ago, a part of the transmitter's units. */
  lemma LoopbackOfWave(d: U16, ws: seq<Write>, polls: seq<bool>, seen: seq<bool>)
    requires |ws| == |polls| && seen == ([true, true] + Line(TX_IDLE, d, ws))[..|ws|]
    ensures Loopback(d, ws, polls) == RxBytes(RX_IDLE, ProgramDivider(d), seen)
    ensures TxOk(TxRun(TX_IDLE, d, ws))
    ensures seen <= Wave(d, [Quiet, Quiet] + Items(TX_IDLE, d, ws))
  {
    SynchroniserDelays(RECEIVER_IDLE, ProgramDivider(d), Line(TX_IDLE, d, ws), polls);
    SeenWave(d, ws);
  }

  /** The frames begun are an upper bound of what can have been received. */
  lemma LoopbackBegun(d: U16, ws: seq<Write>, polls: seq<bool>)
    requires d >= 3 && |ws| == |polls|
    ensures Loopback(d, ws, polls) <= Good(Bytes(Items(TX_IDLE, d, ws)))
  {
    var seen := ([true, true] + Line(TX_IDLE, d, ws))[..|ws|];
    LoopbackOfWave(d, ws, polls, seen);
    SeenWave(d, ws);
    var units := [Quiet, Quiet] + Items(TX_IDLE, d, ws);
    WaveReceived(RX_IDLE, d, units);
    var wave := Wave(d, units);
    EarlierBytes(RX_IDLE, ProgramDivider(d), seen, wave[|seen|..]);
    assert wave == seen + wave[|seen|..];
  }

  /** For every divisor of at least 3 and every timing of writes and polls of the receive register, what has been
      received is a prefix of what has been accepted, unchanged and free of framing errors. */
  lemma LoopbackPrefix(d: U16, ws: seq<Write>, polls: seq<bool>)
    requires d >= 3 && |ws| == |polls|
    ensures Loopback(d, ws, polls) <= Good(Accepted(TX_IDLE, d, ws))
  {
    LoopbackBegun(d, ws, polls);
    TransmitsAccepted(d, ws);
    GoodConcat(Bytes(Items(TX_IDLE, d, ws)), Buffered(TxRun(TX_IDLE, d, ws)));
  }

  /** Watching a line longer only adds bytes. */
  lemma EarlierBytes(x: Rx, t: Timing, seen: seq<bool>, later: seq<bool>)
    ensures RxBytes(x, t, seen) <= RxBytes(x, t, seen + later)
  {
    var x' := RxRun(x, t, seen);
    LeadsConcat(x, t, seen, x', RxBytes(x, t, seen), later, RxRun(x', t, later), RxBytes(x', t, later));
  }

  /** Two cycles after the transmitter came to rest everything accepted has been received. */
  lemma LoopbackComplete(d: U16, ws: seq<Write>, more: seq<Write>, polls: seq<bool>)
    requires d >= 3 && |more| == 2 && |ws| + 2 == |polls|
    requires !TxRun(TX_IDLE, d, ws).busy
    ensures Loopback(d, ws + more, polls) == Good(Accepted(TX_IDLE, d, ws))
  {
    var t := ProgramDivider(d);
    var line := Line(TX_IDLE, d, ws);
    SeenWave(d, ws);
    TransmitsAccepted(d, ws);
    LineConcat(TX_IDLE, d, ws, more);
    SynchroniserDelays(RECEIVER_IDLE, t, Line(TX_IDLE, d, ws + more), polls);
    WaveReceived(RX_IDLE, d, [Quiet, Quiet] + Items(TX_IDLE, d, ws));
    assert ([true, true] + Line(TX_IDLE, d, ws + more))[..|ws| + 2] == [true, true] + line;
    assert [true, true] + line + [] == [true, true] + line;
  }

  /** From any run on: after twenty bits and two cycles without a write, everything taken has been received. */
  lemma LoopbackDrains(d: U16, ws: seq<Write>, n: nat, polls: seq<bool>)
    requires d >= 3 && n >= 20 * (d + 1) && |ws| + n + 2 == |polls|
    ensures Loopback(d, ws + Pause(n) + Pause(2), polls) == Good(Accepted(TX_IDLE, d, ws))
  {
    AllSent(d, ws, n);
    PauseTakesNothing(d, ws, n);
    LoopbackComplete(d, ws + Pause(n), Pause(2), polls);
  }

  /** Two bytes written at any distance arrive. */
  lemma TwoWritesReceived(d: U16, a: Octet, b: Octet, m: nat, n: nat, polls: seq<bool>)
    requires d >= 3 && n >= 20 * (d + 1) && |polls| == m + n + 4
    ensures Loopback(d, [Write(a)] + Pause(m) + [Write(b)] + Pause(n) + Pause(2), polls)
         == [Received(a, false), Received(b, false)]
  {
    var ws := [Write(a)] + Pause(m) + [Write(b)];
    TwoWritesSent(d, a, b, m);
    SentSnoc(d, ws, NoWrite);
    LoopbackDrains(d, ws, n, polls);
  }

  lemma {:induction false} LineConcat(t: Tx, d: U16, a: seq<Write>, b: seq<Write>)
    ensures Line(t, d, a + b) == Line(t, d, a) + Line(TxRun(t, d, a), d, b)
    decreases |a|
  {
    if a == [] {
      assert a + b == b;
    } else {
      assert (a + b)[1..] == a[1..] + b;
      LineConcat(TxStep(t, d, a[0]), d, a[1..], b);
    }
  }

  // ---- smaller divisors ----

  const ONES: Octet := [true, true, true, true, true, true, true, true]

  function Frames(bytes: seq<Octet>): seq<Item> {
    seq(|bytes|, k requires 0 <= k < |bytes| => Frame(bytes[k]))
  }

  /** Every sequence of frames sent back to back is received unchanged. */
  ghost predicate BackToBackExact(d: U16) {
    forall bytes: seq<Octet> :: RxBytes(RX_IDLE, ProgramDivider(d), Wave(d, Frames(bytes))) == Good(bytes)
  }

  lemma {:induction false} FramesBytes(bytes: seq<Octet>)
    ensures Bytes(Frames(bytes)) == bytes
  {
    if bytes == [] {
    } else {
      FramesBytes(bytes[1..]);
      assert Frames(bytes)[1..] == Frames(bytes[1..]);
    }
  }

  lemma {:induction false} OnesTail(d: U16, from: nat)
    requires from <= 8
    ensures Tail(d, ONES, from) == Rep(true, (9 - from) * (d + 1))
    decreases 8 - from
  {
    if from == 8 {
    } else {
      OnesTail(d, from + 1);
      RepSplit(true, d + 1, (8 - from) * (d + 1));
      assert (9 - from) * (d + 1) == (d + 1) + (8 - from) * (d + 1);
    }
  }

  /** Two frames of 0xFF: two long high levels, each after one low bit. */
  function TwoOnes(d: U16): seq<bool> {
    Rep(false, d + 1) + Rep(true, 9 * (d + 1)) + (Rep(false, d + 1) + Rep(true, 9 * (d + 1)))
  }

  lemma WaveTwoOnes(d: U16)
    ensures Wave(d, Frames([ONES, ONES])) == TwoOnes(d)
  {
    OnesTail(d, 0);
    assert Frames([ONES, ONES]) == [Frame(ONES)] + [Frame(ONES)];
    WaveConcat(d, [Frame(ONES)], [Frame(ONES)]);
    WaveOfOne(d, Frame(ONES));
  }

  /** Divisor 0: the start bit is over before it can be qualified. */
  lemma LostAt0()
    ensures RxBytes(RX_IDLE, ProgramDivider(0), TwoOnes(0)) == []
  {
    var t := ProgramDivider(0);
    var x1 := RxStep(RX_IDLE, t, false);
    var x2 := RxStep(x1, t, true);
    LeadsOne(RX_IDLE, t, false);
    LeadsOne(x1, t, true);
    LeadsConcat(RX_IDLE, t, [false], x1, [], [true], x2, []);
    StayResting(x2, t, 8);
    LeadsConcat(RX_IDLE, t, [false] + [true], x2, [] + [], Rep(true, 8), x2, []);
    assert x2 == RX_IDLE;
    var half := [false] + [true] + Rep(true, 8);
    LeadsConcat(RX_IDLE, t, half, RX_IDLE, [] + [] + [], half, RX_IDLE, [] + [] + []);
    assert Rep(false, 1) + Rep(true, 9) == half;
  }

  /** While a wait is counted down nothing is received, whatever the line does. */
  lemma {:induction false} Silent(x: Rx, t: Timing, u: seq<bool>)
    requires !x.candidate && x.busy && |u| <= x.count
    ensures RxBytes(x, t, u) == []
    decreases |u|
  {
    if u == [] {
    } else {
      Silent(RxStep(x, t, u[0]), t, u[1..]);
    }
  }

  lemma TwoSteps(x: Rx, t: Timing, v: bool)
    requires Delivered(x, v) == [] && Delivered(RxStep(x, t, v), v) == []
    ensures Leads(x, t, Rep(v, 2), RxStep(RxStep(x, t, v), t, v), [])
  {
    var x1 := RxStep(x, t, v);
    LeadsOne(x, t, v);
    LeadsOne(x1, t, v);
    LeadsConcat(x, t, [v], x1, [], [v], RxStep(x1, t, v), []);
    assert Rep(v, 2) == [v] + [v];
  }

  /** Divisor 1: the wait for the second bit underflows to 65535, so the first two frames of ones
      pass unnoticed. */
  lemma LostAt1(x: Rx, t: Timing, rest: seq<bool>)
    requires Resting(x) && x.phase == 0 && x.ones == 0 && !x.stop && t == ProgramDivider(1) && |rest| <= 65535
    ensures RxBytes(x, t, Rep(false, 2) + Rep(true, 3) + rest) == []
  {
    TwoSteps(x, t, false);
    var x2 := RxStep(RxStep(x, t, false), t, false);
    ThreeSamples(x2, t, true);
    var x3 := Sampled(x2, t, true);
    Silent(x3, t, rest);
    LeadsConcat(x, t, Rep(false, 2), x2, [], Rep(true, 3), x3, []);
    LeadsConcat(x, t, Rep(false, 2) + Rep(true, 3), x3, [] + [], rest, RxRun(x3, t, rest), []);
  }

  lemma SplitTwoOnes1()
    ensures TwoOnes(1) == Rep(false, 2) + Rep(true, 3) + (Rep(true, 15) + (Rep(false, 2) + Rep(true, 18)))
  {
  }

  /** Receiving ones at divisor 2: three cycles a bit, sampled in each cycle. */
  lemma {:induction false} OnesAt2(x: Rx, j: nat)
    requires !x.candidate && x.busy && x.phase == 0 && x.ones == 0 && x.count == 0
    requires j <= 8 && (if j < 8 then !x.stop && x.index == j else x.stop)
    ensures var x' := RxRun(x, ProgramDivider(2), Rep(true, 3 * (8 - j)));
            && Leads(x, ProgramDivider(2), Rep(true, 3 * (8 - j)), x', [])
            && !x'.candidate && x'.busy && x'.phase == 0 && x'.ones == 0 && x'.count == 0 && x'.stop
    decreases 8 - j
  {
    if j == 8 {
    } else {
      var t := ProgramDivider(2);
      ThreeSamples(x, t, true);
      var x1 := Sampled(x, t, true);
      OnesAt2(x1, j + 1);
      LeadsConcat(x, t, Rep(true, 3), x1, [], Rep(true, 3 * (7 - j)), RxRun(x1, t, Rep(true, 3 * (7 - j))), []);
      RepSplit(true, 3, 3 * (7 - j));
    }
  }

  /** Without a falling edge nothing starts. */
  lemma {:induction false} NoEdge(x: Rx, t: Timing, n: nat, m: nat)
    requires !x.candidate && !x.busy && !x.prev
    ensures RxBytes(x, t, Rep(false, n) + Rep(true, m)) == []
    decreases n
  {
    if n > 0 {
      assert RxStep(x, t, false) == x;
      assert (Rep(false, n) + Rep(true, m))[1..] == Rep(false, n - 1) + Rep(true, m);
      NoEdge(x, t, n - 1, m);
    } else if m > 0 {
      var x1 := RxStep(x, t, true);
      StayResting(x1, t, m - 1);
      assert (Rep(false, 0) + Rep(true, m))[1..] == Rep(true, m - 1);
    }
  }

  lemma StartAt2()
    ensures var t := ProgramDivider(2);
            var x := RxRun(RX_IDLE, t, Rep(false, 3) + Rep(true, 1));
            && Leads(RX_IDLE, t, Rep(false, 3) + Rep(true, 1), x, [])
            && !x.candidate && x.busy && x.phase == 0 && x.ones == 0 && x.count == 0 && !x.stop && x.index == 0
  {
    var t := ProgramDivider(2);
    StartBit2(t);
    var x3 := RxStep(RxStep(RxStep(RX_IDLE, t, false), t, false), t, false);
    LeadsOne(x3, t, true);
    LeadsConcat(RX_IDLE, t, Rep(false, 3), x3, [], [true], RxStep(x3, t, true), []);
    assert Rep(true, 1) == [true];
  }

  lemma StartBit2(t: Timing)
    requires t == ProgramDivider(2)
    ensures Leads(RX_IDLE, t, Rep(false, 3), RxStep(RxStep(RxStep(RX_IDLE, t, false), t, false), t, false), [])
  {
    TwoSteps(RX_IDLE, t, false);
    var x2 := RxStep(RxStep(RX_IDLE, t, false), t, false);
    LeadsOne(x2, t, false);
    LeadsConcat(RX_IDLE, t, Rep(false, 2), x2, [], [false], RxStep(x2, t, false), []);
    assert Rep(false, 3) == Rep(false, 2) + [false];
  }

  /** Bytes of a run whose first two parts are silent. */
  lemma AfterSilence(x: Rx, t: Timing, a: seq<bool>, x1: Rx, b: seq<bool>, x2: Rx, c: seq<bool>)
    requires Leads(x, t, a, x1, []) && Leads(x1, t, b, x2, [])
    ensures RxBytes(x, t, a + b + c) == RxBytes(x2, t, c)
  {
    LeadsConcat(x, t, a, x1, [], b, x2, []);
    LeadsConcat(x, t, a + b, x2, [] + [], c, RxRun(x2, t, c), RxBytes(x2, t, c));
    assert [] + [] + RxBytes(x2, t, c) == RxBytes(x2, t, c);
  }

  /** Divisor 2: the third sample of the stop bit falls on the next start bit, whose falling edge
      is then missed, so the second byte is lost. */
  lemma LostAt2(t: Timing, a: seq<bool>, n: nat, b: seq<bool>)
    requires t == ProgramDivider(2) && n == 24
    requires a == Rep(false, 3) + Rep(true, 1)
    requires b == [true] + [true] + [false] + (Rep(false, 2) + Rep(true, 27))
    ensures |RxBytes(RX_IDLE, t, a + Rep(true, n) + b)| == 1
  {
    StartAt2();
    var x := RxRun(RX_IDLE, t, a);
    OnesAt2(x, 0);
    var x' := RxRun(x, t, Rep(true, n));
    StopAt2(x');
    AfterSilence(RX_IDLE, t, a, x, Rep(true, n), x', b);
  }

  lemma SplitTwoOnes2()
    ensures TwoOnes(2) ==
      Rep(false, 3) + Rep(true, 1) + Rep(true, 24) + ([true] + [true] + [false] + (Rep(false, 2) + Rep(true, 27)))
  {
  }

  lemma StopAt2(x: Rx)
    requires !x.candidate && x.busy && x.phase == 0 && x.ones == 0 && x.count == 0 && x.stop
    ensures |RxBytes(x, ProgramDivider(2), [true] + [true] + [false] + (Rep(false, 2) + Rep(true, 27)))| == 1
  {
    var t := ProgramDivider(2);
    var x1 := RxStep(x, t, true);
    var x2 := RxStep(x1, t, true);
    var x3 := RxStep(x2, t, false);
    LeadsOne(x, t, true);
    LeadsOne(x1, t, true);
    LeadsOne(x2, t, false);
    LeadsConcat(x, t, [true], x1, [], [true], x2, []);
    LeadsConcat(x, t, [true] + [true], x2, [] + [], [false], x3, Delivered(x2, false));
    NoEdge(x3, t, 2, 27);
    var rest := Rep(false, 2) + Rep(true, 27);
    LeadsConcat(x, t, [true] + [true] + [false], x3, [] + [] + Delivered(x2, false), rest, RxRun(x3, t, rest), []);
  }

  /** Back-to-back loopback is exact for exactly the divisors from 3 up. */
  lemma BackToBackIff(d: U16)
    ensures BackToBackExact(d) <==> d >= 3
  {
    if d >= 3 {
      forall bytes: seq<Octet>
        ensures RxBytes(RX_IDLE, ProgramDivider(d), Wave(d, Frames(bytes))) == Good(bytes)
      {
        WaveReceived(RX_IDLE, d, Frames(bytes));
        FramesBytes(bytes);
      }
    } else {
      var bytes := [ONES, ONES];
      WaveTwoOnes(d);
      if d == 0 {
        LostAt0();
      } else if d == 1 {
        SplitTwoOnes1();
        LostAt1(RX_IDLE, ProgramDivider(d), Rep(true, 15) + (Rep(false, 2) + Rep(true, 18)));
      } else {
        SplitTwoOnes2();
        LostAt2(ProgramDivider(d), Rep(false, 3) + Rep(true, 1), 24,
                [true] + [true] + [false] + (Rep(false, 2) + Rep(true, 27)));
      }
      assert RxBytes(RX_IDLE, ProgramDivider(d), Wave(d, Frames(bytes))) != Good(bytes);
    }
  }
}
