/** The one-entry request/response register of an interconnect slot
    (rtl/uncore/dbus_interconnect.py, make_registered_slave).
 */
module RegisteredSlot {
  import opened Sequences

  datatype Payload = Payload(adr: nat, data: nat, we: nat)

  /** A slave's answer: acknowledge or error, with read data. */
  datatype Answer = Answer(ack: bool, error: bool, data: nat)

  datatype State = Idle | Request | WaitResponse | Response

  datatype Regs = Regs(state: State, payload: Payload, answer: Answer)

  /** `select` is the slot's decoded enable while no other target is being waited for. */
  datatype In = In(select: bool, payload: Payload, answer: Answer, stall: bool)

  predicate Answers(i: In) {
    i.answer.ack || i.answer.error
  }

  const NO_ANSWER := Answer(false, false, 0)

  function Step(r: Regs, i: In): Regs {
    match r.state
    case Idle =>
      var r' := r.(answer := r.answer.(ack := false, error := false));
      if i.select then r'.(payload := i.payload, state := Request) else r'
    case Request =>
      if Answers(i) then r.(answer := i.answer, state := Response)
      else if !i.stall then r.(state := WaitResponse)
      else r
    case WaitResponse =>
      if Answers(i) then r.(answer := i.answer, state := Response) else r
    case Response => r.(state := Idle)
  }

  // ---- the signals of a cycle ----

  /** Downstream enable. */
  predicate Enable(r: Regs) {
    r.state == Request
  }

  predicate Stall(r: Regs) {
    r.state != Idle
  }

  /** What the master sees from this slot. */
  function Shown(r: Regs): Answer {
    Answer(r.state == Response && r.answer.ack, r.state == Response && r.answer.error, r.answer.data)
  }

  class Slot {
    var state: State
    var adr: nat
    var data: nat
    var we: nat
    var ack: bool
    var error: bool
    var readData: nat

    constructor ()
      ensures Registers() == Regs(Idle, Payload(0, 0, 0), NO_ANSWER)
    {
      state, adr, data, we, ack, error, readData := Idle, 0, 0, 0, false, false, 0;
    }

    function Registers(): Regs
      reads this
    {
      Regs(state, Payload(adr, data, we), Answer(ack, error, readData))
    }

    method Clock(i: In)
      modifies this
      ensures Registers() == Step(old(Registers()), i)
    {
      if state == Idle {
        ack := false;
        error := false;
        if i.select {
          adr := i.payload.adr;
          data := i.payload.data;
          we := i.payload.we;
          state := Request;
        }
      } else if state == Request {
        if i.answer.ack || i.answer.error {
          ack := i.answer.ack;
          error := i.answer.error;
          readData := i.answer.data;
          state := Response;
        } else if !i.stall {
          state := WaitResponse;
        }
      } else if state == WaitResponse {
        if i.answer.ack || i.answer.error {
          ack := i.answer.ack;
          error := i.answer.error;
          readData := i.answer.data;
          state := Response;
        }
      } else {
        state := Idle;
      }
    }
  }

  // ---- runs ----

  function Run(r: Regs, ins: seq<In>): Regs
    decreases |ins|
  {
    if ins == [] then r else Run(Step(r, ins[0]), ins[1..])
  }

  /** Requests captured from the master. */
  function Captured(r: Regs, ins: seq<In>): seq<Payload>
    decreases |ins|
  {
    if ins == [] then []
    else (if r.state == Idle && ins[0].select then [ins[0].payload] else []) + Captured(Step(r, ins[0]), ins[1..])
  }

  /** Requests the slave takes: enabled cycles that are answered or not stalled, with the
      payload on the slave's bus in that cycle. */
  function Taken(r: Regs, ins: seq<In>): seq<Payload>
    decreases |ins|
  {
    if ins == [] then []
    else
      (if Enable(r) && (ins[0].answer.ack || ins[0].answer.error || !ins[0].stall) then [r.payload] else [])
      + Taken(Step(r, ins[0]), ins[1..])
  }

  /** The slave's answers to them: the first acknowledge or error from the cycle in which the request is taken. */
  function Given(r: Regs, ins: seq<In>): seq<Answer>
    decreases |ins|
  {
    if ins == [] then []
    else
      (if (r.state == Request || r.state == WaitResponse) && (ins[0].answer.ack || ins[0].answer.error)
       then [ins[0].answer] else [])
      + Given(Step(r, ins[0]), ins[1..])
  }

  /** The answers the master sees, one for every cycle with acknowledge or error. */
  function Seen(r: Regs, ins: seq<In>): seq<Answer>
    decreases |ins|
  {
    if ins == [] then []
    else (if Shown(r).ack || Shown(r).error then [Shown(r)] else []) + Seen(Step(r, ins[0]), ins[1..])
  }

  predicate Ok(r: Regs) {
    r.state == Response ==> r.answer.ack || r.answer.error
  }

  function NotYetTaken(r: Regs): seq<Payload> {
    if r.state == Request then [r.payload] else []
  }

  function Unanswered(r: Regs): nat {
    if r.state == WaitResponse then 1 else 0
  }

  function NotYetSeen(r: Regs): seq<Answer> {
    if r.state == Response then [r.answer] else []
  }

  /** For every pattern of requests, stalls and delays: the slave takes exactly the captured
      requests, once each, in order and with the captured payload. */
  lemma {:induction false} TakenOnce(r: Regs, ins: seq<In>)
    ensures NotYetTaken(r) + Captured(r, ins) == Taken(r, ins) + NotYetTaken(Run(r, ins))
    decreases |ins|
  {
    if ins == [] {
      assert NotYetTaken(r) + [] == [] + NotYetTaken(r);
    } else {
      var r' := Step(r, ins[0]);
      TakenOnce(r', ins[1..]);
      Rotate(NotYetTaken(r), if r.state == Idle && ins[0].select then [ins[0].payload] else [], Captured(r', ins[1..]),
             if Enable(r) && (Answers(ins[0]) || !ins[0].stall) then [r.payload] else [],
             NotYetTaken(r'), Taken(r', ins[1..]), NotYetTaken(Run(r', ins[1..])));
    }
  }

  /** Every request taken by the slave gets exactly one answer. */
  lemma {:induction false} AnsweredOnce(r: Regs, ins: seq<In>)
    ensures Unanswered(r) + |Taken(r, ins)| == |Given(r, ins)| + Unanswered(Run(r, ins))
    decreases |ins|
  {
    if ins == [] {
    } else {
      AnsweredOnce(Step(r, ins[0]), ins[1..]);
    }
  }

  /** The master sees exactly the slave's answers, each for one cycle, in order and unchanged. */
  lemma {:induction false} SeenOnce(r: Regs, ins: seq<In>)
    requires Ok(r)
    ensures Ok(Run(r, ins))
    ensures NotYetSeen(r) + Given(r, ins) == Seen(r, ins) + NotYetSeen(Run(r, ins))
    decreases |ins|
  {
    if ins == [] {
      assert NotYetSeen(r) + [] == [] + NotYetSeen(r);
    } else {
      var r' := Step(r, ins[0]);
      SeenOnce(r', ins[1..]);
      Rotate(NotYetSeen(r),
             if (r.state == Request || r.state == WaitResponse) && Answers(ins[0]) then [ins[0].answer] else [],
             Given(r', ins[1..]),
             if Shown(r).ack || Shown(r).error then [Shown(r)] else [],
             NotYetSeen(r'), Seen(r', ins[1..]), NotYetSeen(Run(r', ins[1..])));
    }
  }

  /** The slot holds a request in every cycle of the run. */
  predicate Occupied(r: Regs, ins: seq<In>)
    decreases |ins|
  {
    ins == [] || (r.state != Idle && Occupied(Step(r, ins[0]), ins[1..]))
  }

  /** From capture until the slot is idle again the payload stays, and the answer register changes only
      at the slave's one answer, which it keeps. */
  lemma {:induction false} Frozen(r: Regs, ins: seq<In>)
    requires Occupied(r, ins)
    ensures Run(r, ins).payload == r.payload
    ensures |Given(r, ins)| <= (if r.state == Request || r.state == WaitResponse then 1 else 0)
    ensures Run(r, ins).answer == if Given(r, ins) == [] then r.answer else Given(r, ins)[0]
    decreases |ins|
  {
    if ins == [] {
    } else if r.state == Response {
      assert ins[1..] == [];
    } else {
      Frozen(Step(r, ins[0]), ins[1..]);
    }
  }

  /** From idle: requests and answers correspond one to one, and at most one is in the slot. */
  lemma SlotIsTransparent(r: Regs, ins: seq<In>)
    requires r.state == Idle
    ensures var end := Run(r, ins);
            && Captured(r, ins) == Taken(r, ins) + NotYetTaken(end)
            && |Taken(r, ins)| == |Given(r, ins)| + Unanswered(end)
            && Given(r, ins) == Seen(r, ins) + NotYetSeen(end)
            && |Captured(r, ins)| == |Seen(r, ins)| + if end.state == Idle then 0 else 1
  {
    TakenOnce(r, ins);
    AnsweredOnce(r, ins);
    SeenOnce(r, ins);
    assert [] + Captured(r, ins) == Captured(r, ins);
    assert [] + Given(r, ins) == Given(r, ins);
  }
}
