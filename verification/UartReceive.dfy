/** The receiver decodes every sequence of frames, provided the divisor is at least 3. */
module UartReceive {
  import opened Sequences
  import opened Uart
  import opened UartFrames

  datatype Received = Received(data: Octet, framingError: bool)

  function Delivered(x: Rx, now: bool): seq<Received> {
    if Delivers(x) then [Received(x.shift, !Majority(x.ones, now))] else []
  }

  function RxRun(x: Rx, t: Timing, u: seq<bool>): Rx
    decreases |u|
  {
    if u == [] then x else RxRun(RxStep(x, t, u[0]), t, u[1..])
  }

  function RxBytes(x: Rx, t: Timing, u: seq<bool>): seq<Received>
    decreases |u|
  {
    if u == [] then [] else Delivered(x, u[0]) + RxBytes(RxStep(x, t, u[0]), t, u[1..])
  }

  /** The run over `u` ends in `x'` having delivered `got`. */
  predicate Leads(x: Rx, t: Timing, u: seq<bool>, x': Rx, got: seq<Received>) {
    RxRun(x, t, u) == x' && RxBytes(x, t, u) == got
  }

  lemma {:induction false} LeadsConcat(x: Rx, t: Timing, u: seq<bool>, x': Rx, got: seq<Received>,
                                       v: seq<bool>, x'': Rx, got': seq<Received>)
    requires Leads(x, t, u, x', got) && Leads(x', t, v, x'', got')
    ensures Leads(x, t, u + v, x'', got + got')
    decreases |u|
  {
    if u == [] {
      assert u + v == v;
      assert [] + got' == got';
    } else {
      var rest := RxBytes(RxStep(x, t, u[0]), t, u[1..]);
      LeadsConcat(RxStep(x, t, u[0]), t, u[1..], x', rest, v, x'', got');
      assert (u + v)[1..] == u[1..] + v;
      Assoc(Delivered(x, u[0]), rest, got');
    }
  }

  lemma LeadsOne(x: Rx, t: Timing, v: bool)
    ensures Leads(x, t, [v], RxStep(x, t, v), Delivered(x, v))
  {
    assert [v][1..] == [];
    assert Delivered(x, v) + [] == Delivered(x, v);
  }

  /** The lines of a bit: where the first sample falls, counted from the start of a bit. */
  function Offset(d: U16): int {
    var t := ProgramDivider(d);
    t.qualTicks + t.sampleTicks + 1 - d
  }

  /** The start bit is qualified before it ends, and all three samples of a bit, which are taken
      in its cycles Offset, Offset + 1 and Offset + 2 of 0 .. d, lie inside that bit. */
  predicate SamplesInside(d: U16) {
    ProgramDivider(d).qualTicks + 1 <= d && 0 <= Offset(d) && Offset(d) + 2 <= d
  }

  /** How far the stored values fall short of 13/16 and 11/16 of the divisor: what the shifts cut off. */
  lemma TimingApproximates(d: U16)
    ensures var t := ProgramDivider(d);
            && t.divider == d
            && 16 * t.qualTicks == 13 * d - (8 * (d % 2) + 4 * (d % 4) + d % 16)
            && 16 * t.sampleTicks == 11 * d - (8 * (d % 2) + 2 * (d % 8) + d % 16)
            && 13 * d - 35 <= 16 * t.qualTicks <= 13 * d && 11 * d - 37 <= 16 * t.sampleTicks <= 11 * d
  {
  }

  lemma SamplesInsideIff(d: U16)
    ensures SamplesInside(d) <==> d >= 3
  {
  }

  // ---- one level for some cycles ----

  lemma {:induction false} CountDown(x: Rx, t: Timing, v: bool, n: nat)
    requires !x.candidate && x.busy && n <= x.count
    ensures Leads(x, t, Rep(v, n), x.(count := x.count - n, prev := if n == 0 then x.prev else v), [])
    decreases n
  {
    if n == 0 {
    } else {
      CountDown(RxStep(x, t, v), t, v, n - 1);
      assert Rep(v, n)[1..] == Rep(v, n - 1);
    }
  }

  lemma {:induction false} KeepLow(x: Rx, t: Timing, n: nat)
    requires x.candidate && x.ticks + n <= t.qualTicks
    ensures Leads(x, t, Rep(false, n), x.(ticks := x.ticks + n, prev := if n == 0 then x.prev else false), [])
    decreases n
  {
    if n == 0 {
    } else {
      KeepLow(RxStep(x, t, false), t, n - 1);
      assert Rep(false, n)[1..] == Rep(false, n - 1);
    }
  }

  predicate Resting(x: Rx) {
    !x.candidate && !x.busy && x.prev
  }

  lemma {:induction false} StayResting(x: Rx, t: Timing, n: nat)
    requires Resting(x)
    ensures Leads(x, t, Rep(true, n), x, [])
    decreases n
  {
    if n == 0 {
    } else {
      StayResting(x, t, n - 1);
      assert RxStep(x, t, true) == x;
      assert Rep(true, n)[1..] == Rep(true, n - 1);
    }
  }

  /** Three samples of one level. */
  function Sampled(x: Rx, t: Timing, v: bool): Rx {
    RxStep(RxStep(RxStep(x, t, v), t, v), t, v)
  }

  lemma ThreeSamples(x: Rx, t: Timing, v: bool)
    requires !x.candidate && x.busy && x.count == 0 && x.phase == 0 && x.ones == 0
    ensures Leads(x, t, Rep(v, 3), Sampled(x, t, v), if x.stop then [Received(x.shift, !v)] else [])
  {
    var x1 := RxStep(x, t, v);
    var x2 := RxStep(x1, t, v);
    LeadsOne(x, t, v);
    LeadsOne(x1, t, v);
    LeadsOne(x2, t, v);
    LeadsConcat(x, t, [v], x1, [], [v], x2, []);
    LeadsConcat(x, t, [v] + [v], x2, [] + [], [v], Sampled(x, t, v), Delivered(x2, v));
    assert Rep(v, 3) == [v] + [v] + [v];
    assert [] + [] + Delivered(x2, v) == Delivered(x2, v);
  }

  /** Three samples of any levels: a data bit becomes what at least two of them are, and no other bit changes; at the
      stop bit the byte is handed over once, with an error if and only if fewer than two are high. */
  lemma Voted(x: Rx, t: Timing, a: bool, b: bool, c: bool)
    requires !x.candidate && x.busy && x.count == 0 && x.phase == 0 && x.ones == 0
    ensures var high := (a && b) || (a && c) || (b && c);
            var x' := RxRun(x, t, [a, b, c]);
            && RxBytes(x, t, [a, b, c]) == (if x.stop then [Received(x.shift, !high)] else [])
            && x'.shift == (if x.stop || x.index >= 8 then x.shift else x.shift[x.index := high])
            && (x'.busy <==> !x.stop)
  {
    var x1 := RxStep(x, t, a);
    var x2 := RxStep(x1, t, b);
    LeadsOne(x, t, a);
    LeadsOne(x1, t, b);
    LeadsOne(x2, t, c);
    LeadsConcat(x, t, [a], x1, [], [b], x2, []);
    LeadsConcat(x, t, [a] + [b], x2, [] + [], [c], RxStep(x2, t, c), Delivered(x2, c));
    assert [a, b, c] == [a] + [b] + [c];
    assert [] + [] + Delivered(x2, c) == Delivered(x2, c);
  }

  /** A low pulse of n cycles starts a reception if and only if it lasts two cycles longer than the qualification
      time; a shorter one leaves no trace. */
  lemma PulseStartsIff(x: Rx, d: U16, n: nat)
    requires Resting(x) && 1 <= n <= ProgramDivider(d).qualTicks + 2
    ensures var x' := RxRun(x, ProgramDivider(d), Rep(false, n) + [true]);
            && RxBytes(x, ProgramDivider(d), Rep(false, n) + [true]) == []
            && (x'.busy <==> n >= ProgramDivider(d).qualTicks + 2)
            && (!x'.busy ==> x' == x.(ticks := 0))
  {
    var t := ProgramDivider(d);
    var m := if n == t.qualTicks + 2 then n - 2 else n - 1;
    var x1 := RxStep(x, t, false);
    LeadsOne(x, t, false);
    KeepLow(x1, t, m);
    var x2 := x1.(ticks := m, prev := false);
    LeadsConcat(x, t, [false], x1, [], Rep(false, m), x2, []);
    if n == t.qualTicks + 2 {
      LeadsOne(x2, t, false);
      var x3 := RxStep(x2, t, false);
      LeadsConcat(x, t, [false] + Rep(false, m), x2, [] + [], [false], x3, []);
      LeadsOne(x3, t, true);
      LeadsConcat(x, t, [false] + Rep(false, m) + [false], x3, [] + [] + [], [true], RxStep(x3, t, true), []);
      assert Rep(false, n) == [false] + Rep(false, m) + [false];
    } else {
      LeadsOne(x2, t, true);
      LeadsConcat(x, t, [false] + Rep(false, m), x2, [] + [], [true], RxStep(x2, t, true), []);
      assert Rep(false, n) == [false] + Rep(false, m);
    }
  }

  // ---- bits ----

  /** At the start of a line bit: `j` data bits are in, and the next sample is `Offset` cycles away. */
  predicate Waiting(x: Rx, d: U16, j: nat) {
    && !x.candidate && x.busy && x.phase == 0 && x.ones == 0 && x.count == Offset(d)
    && j <= 8
    && (if j < 8 then !x.stop && x.index == j else x.stop)
  }

  lemma StartBit(x: Rx, d: U16)
    requires Resting(x) && d >= 3
    ensures var x' := RxRun(x, ProgramDivider(d), Rep(false, d + 1));
            Waiting(x', d, 0) && Leads(x, ProgramDivider(d), Rep(false, d + 1), x', [])
  {
    var t := ProgramDivider(d);
    var q, s := t.qualTicks, t.sampleTicks;
    var x1 := RxStep(x, t, false);
    LeadsOne(x, t, false);
    KeepLow(x1, t, q);
    var x2 := x1.(ticks := q, prev := if q == 0 then x1.prev else false);
    LeadsConcat(x, t, [false], x1, [], Rep(false, q), x2, []);
    var x3 := RxStep(x2, t, false);
    LeadsOne(x2, t, false);
    LeadsConcat(x, t, [false] + Rep(false, q), x2, [] + [], [false], x3, []);
    var n := d + 1 - (q + 2);
    CountDown(x3, t, false, n);
    LeadsConcat(x, t, [false] + Rep(false, q) + [false], x3, [] + [] + [], Rep(false, n),
                x3.(count := x3.count - n, prev := if n == 0 then x3.prev else false), []);
    assert Rep(false, d + 1) == [false] + Rep(false, q) + [false] + Rep(false, n);
  }

  /** A level held for a whole bit, from one waiting state over the three samples. */
  lemma WholeBit(x: Rx, d: U16, j: nat, v: bool)
    requires Waiting(x, d, j) && d >= 3
    ensures var t := ProgramDivider(d);
            var o := Offset(d);
            var y := Sampled(x.(count := 0, prev := if o == 0 then x.prev else v), t, v);
            Leads(x, t, Rep(v, o) + Rep(v, 3), y, if x.stop then [Received(x.shift, !v)] else [])
  {
    var t := ProgramDivider(d);
    var o := Offset(d);
    var x1 := x.(count := 0, prev := if o == 0 then x.prev else v);
    CountDown(x, t, v, o);
    ThreeSamples(x1, t, v);
    var got := if x.stop then [Received(x.shift, !v)] else [];
    LeadsConcat(x, t, Rep(v, o), x1, [], Rep(v, 3), Sampled(x1, t, v), got);
    assert [] + got == got;
  }

  lemma RepBit(v: bool, d: U16, o: nat)
    requires o + 2 <= d
    ensures Rep(v, d + 1) == Rep(v, o) + Rep(v, 3) + Rep(v, d - 2 - o)
  {
  }

  /** The vote of three equal samples is stored, and the wait for the next bit starts. */
  lemma SampledBit(x: Rx, d: U16, j: nat, v: bool)
    requires !x.candidate && x.busy && x.phase == 0 && x.ones == 0 && x.count == 0
    requires j < 8 && !x.stop && x.index == j && d >= 3
    ensures var y := Sampled(x, ProgramDivider(d), v);
            && !y.candidate && y.busy && y.phase == 0 && y.ones == 0 && y.count == d - 2
            && (if j + 1 < 8 then !y.stop && y.index == j + 1 else y.stop) && y.shift == x.shift[j := v]
  {
  }

  lemma DataBit(x: Rx, d: U16, j: nat, v: bool)
    requires Waiting(x, d, j) && j < 8 && d >= 3
    ensures var x' := RxRun(x, ProgramDivider(d), Rep(v, d + 1));
            && Waiting(x', d, j + 1) && x'.shift == x.shift[j := v]
            && Leads(x, ProgramDivider(d), Rep(v, d + 1), x', [])
  {
    var t := ProgramDivider(d);
    var o := Offset(d);
    var x0 := x.(count := 0, prev := if o == 0 then x.prev else v);
    var y := Sampled(x0, t, v);
    WholeBit(x, d, j, v);
    SampledBit(x0, d, j, v);
    RestOfBit(x, y, t, v, o, d - 2 - o);
    RepBit(v, d, o);
  }

  /** The line keeps its level after the samples. */
  lemma RestOfBit(x: Rx, y: Rx, t: Timing, v: bool, o: nat, n: nat)
    requires Leads(x, t, Rep(v, o) + Rep(v, 3), y, []) && !y.candidate && y.busy && n <= y.count
    ensures Leads(x, t, Rep(v, o) + Rep(v, 3) + Rep(v, n),
                  y.(count := y.count - n, prev := if n == 0 then y.prev else v), [])
  {
    CountDown(y, t, v, n);
    LeadsConcat(x, t, Rep(v, o) + Rep(v, 3), y, [], Rep(v, n),
                y.(count := y.count - n, prev := if n == 0 then y.prev else v), []);
  }

  lemma StopBit(x: Rx, d: U16)
    requires Waiting(x, d, 8) && d >= 3
    ensures var x' := RxRun(x, ProgramDivider(d), Rep(true, d + 1));
            Resting(x') && Leads(x, ProgramDivider(d), Rep(true, d + 1), x', [Received(x.shift, false)])
  {
    var t := ProgramDivider(d);
    var o := Offset(d);
    WholeBit(x, d, 8, true);
    var y := Sampled(x.(count := 0, prev := if o == 0 then x.prev else true), t, true);
    StayResting(y, t, d - 2 - o);
    var got := [Received(x.shift, false)];
    LeadsConcat(x, t, Rep(true, o) + Rep(true, 3), y, got, Rep(true, d - 2 - o), y, []);
    assert got + [] == got;
    RepBit(true, d, o);
  }

  // ---- frames ----

  lemma {:induction false} TailReceived(x: Rx, d: U16, data: Octet, from: nat)
    requires Waiting(x, d, from) && d >= 3
    requires x.shift[..from] == data[..from]
    ensures var x' := RxRun(x, ProgramDivider(d), Tail(d, data, from));
            Resting(x') && Leads(x, ProgramDivider(d), Tail(d, data, from), x', [Received(data, false)])
    decreases 8 - from
  {
    var t := ProgramDivider(d);
    if from == 8 {
      StopBit(x, d);
      assert x.shift == data;
    } else {
      DataBit(x, d, from, data[from]);
      var x1 := RxRun(x, t, Rep(data[from], d + 1));
      assert x1.shift[..from + 1] == data[..from + 1];
      TailReceived(x1, d, data, from + 1);
      var x2 := RxRun(x1, t, Tail(d, data, from + 1));
      LeadsConcat(x, t, Rep(data[from], d + 1), x1, [], Tail(d, data, from + 1), x2, [Received(data, false)]);
      assert [] + [Received(data, false)] == [Received(data, false)];
    }
  }

  lemma FrameReceived(x: Rx, d: U16, data: Octet)
    requires Resting(x) && d >= 3
    ensures var x' := RxRun(x, ProgramDivider(d), FrameWave(d, data));
            Resting(x') && Leads(x, ProgramDivider(d), FrameWave(d, data), x', [Received(data, false)])
  {
    var t := ProgramDivider(d);
    StartBit(x, d);
    var x1 := RxRun(x, t, Rep(false, d + 1));
    TailReceived(x1, d, data, 0);
    LeadsConcat(x, t, Rep(false, d + 1), x1, [], Tail(d, data, 0), RxRun(x1, t, Tail(d, data, 0)), [Received(data, false)]);
    assert [] + [Received(data, false)] == [Received(data, false)];
  }

  function Good(bytes: seq<Octet>): (g: seq<Received>)
    ensures |g| == |bytes|
  {
    seq(|bytes|, k requires 0 <= k < |bytes| => Received(bytes[k], false))
  }

  lemma GoodConcat(a: seq<Octet>, b: seq<Octet>)
    ensures Good(a + b) == Good(a) + Good(b)
  {
  }

  lemma ItemReceived(x: Rx, d: U16, i: Item)
    requires Resting(x) && d >= 3
    ensures var x' := RxRun(x, ProgramDivider(d), ItemWave(d, i));
            Resting(x') && Leads(x, ProgramDivider(d), ItemWave(d, i), x', Good(Bytes([i])))
  {
    WaveOfOne(d, i);
    match i
    case Quiet =>
      StayResting(x, ProgramDivider(d), 1);
      assert Rep(true, 1) == [true];
    case Frame(data) =>
      FrameReceived(x, d, data);
  }

  /** For every divisor of at least 3, any sequence of frames and rest cycles, back to back or
      not, is received byte for byte without framing error; no error carries over between frames. */
  lemma {:induction false} WaveReceived(x: Rx, d: U16, items: seq<Item>)
    requires Resting(x) && d >= 3
    ensures var x' := RxRun(x, ProgramDivider(d), Wave(d, items));
            Resting(x') && Leads(x, ProgramDivider(d), Wave(d, items), x', Good(Bytes(items)))
    decreases |items|
  {
    var t := ProgramDivider(d);
    if items == [] {
    } else {
      ItemReceived(x, d, items[0]);
      var x1 := RxRun(x, t, ItemWave(d, items[0]));
      WaveReceived(x1, d, items[1..]);
      LeadsConcat(x, t, ItemWave(d, items[0]), x1, Good(Bytes([items[0]])),
                  Wave(d, items[1..]), RxRun(x1, t, Wave(d, items[1..])), Good(Bytes(items[1..])));
      WaveOfOne(d, items[0]);
      GoodConcat(Bytes([items[0]]), Bytes(items[1..]));
    }
  }
}
