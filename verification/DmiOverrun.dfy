/** A request issued while another one is pending: which of the two the debug module sees, and how
    often, and what the host is told, by how far the first one has come. */
module DmiOverrun {
  import opened DmiBridge
  import opened DmiTransport

  /** What the debug module sees of a pulse. */
  datatype Shot = Shot(adr: nat, data: nat, we: bool)

  function ShotOf(q: Request): Shot {
    Shot(q.adr, q.data, q.op == 2)
  }

  function Shots(pulses: seq<Pulse>): seq<Shot> {
    seq(|pulses|, k requires 0 <= k < |pulses| => Shot(pulses[k].adr, pulses[k].data, pulses[k].we))
  }

  /** The accesses a request asks for: one or none. */
  function Asked(q: Request): seq<Shot> {
    if Asks(q) then [ShotOf(q)] else []
  }

  // ---- the core's side without further host actions ----

  predicate CoreBusy(w: World) {
    w.core.s.active || w.core.s.readCapture
  }

  /** Toggle changes between host, first and second synchroniser flip-flop, and the one last seen. */
  predicate AtFirst(w: World) {
    w.reqToggle != w.core.t.reqMeta
  }

  predicate AtSecond(w: World) {
    w.core.t.reqMeta != w.core.t.reqSync
  }

  predicate AtSeen(w: World) {
    w.core.t.reqSync != w.core.s.reqSeen
  }

  function Num(b: bool): nat {
    if b then 1 else 0
  }

  /** How many toggle changes the core will still detect. */
  function Changes(w: World): nat {
    Num(AtFirst(w)) + Num(AtSecond(w)) + Num(AtSeen(w))
  }

  /** No hard reset is on its way. */
  predicate NoFlush(w: World) {
    w.hardToggle == w.core.t.hardMeta == w.core.t.hardSync == w.core.s.hardSeen
  }

  /** No change can reach the core's detector while it is busy with another one and a third waits. */
  predicate Orderly(w: World) {
    && NoFlush(w) && |w.log.issued| > 0
    && w.core.s.port.en == w.core.s.active
    && !(w.core.s.active && w.core.s.readCapture)
    && (!CoreBusy(w) ==> !w.core.s.readPending)
    && (w.core.s.readCapture ==> !w.core.s.readPending)
    && Changes(w) <= (if CoreBusy(w) then 1 else 2)
  }

  function Times(n: nat, shots: seq<Shot>): seq<Shot> {
    if n == 0 then [] else shots + Times(n - 1, shots)
  }

  /** The pulse being driven. */
  function Driven(w: World): seq<Shot> {
    if w.core.s.active then [Shot(w.core.s.port.adr, w.core.s.port.data, w.core.s.port.we)] else []
  }

  /** The pulse being driven, and one access for every change to come, with the payload at that time. */
  function Ahead(w: World): seq<Shot> {
    Driven(w) + Times(Changes(w), Asked(w.payload))
  }

  /** Core edges needed at most until nothing is ahead. */
  function Work(w: World): nat {
    4 * Changes(w) + 3 * Num(AtFirst(w)) + 2 * Num(AtSecond(w)) + Num(AtSeen(w))
    + (if w.core.s.active then (if w.core.s.readPending then 2 else 1) else Num(w.core.s.readCapture))
  }

  lemma OrderlyKept(w: World, e: Event)
    requires Orderly(w) && e.action == Nothing
    ensures Orderly(Step(w, e)) && Step(w, e).payload == w.payload && Step(w, e).log.issued == w.log.issued
    ensures Work(Step(w, e)) <= if e.core && Work(w) > 0 then Work(w) - 1 else Work(w)
  {
  }

  lemma ShotsSnoc(pulses: seq<Pulse>, p: Pulse)
    ensures Shots(pulses + [p]) == Shots(pulses) + [Shot(p.adr, p.data, p.we)]
  {
  }

  /** The driven pulse is logged at the next core edge. */
  lemma LoggedNext(w: World, e: Event)
    requires Orderly(w) && e.action == Nothing
    ensures Shots(Step(w, e).log.pulses) == Shots(w.log.pulses) + if e.core then Driven(w) else []
  {
    if e.core && w.core.s.active {
      var p := w.core.s.port;
      ShotsSnoc(w.log.pulses, Pulse(|w.log.issued| - 1, p.adr, p.data, p.we));
    }
  }

  /** An idle core turns a change it detects into the access the payload asks for. */
  lemma DetectedNext(w: World, e: Event)
    requires Orderly(w) && e.action == Nothing
    ensures var w' := Step(w, e);
            var detects := e.core && !CoreBusy(w) && AtSeen(w);
            && Changes(w') == (if detects then Changes(w) - 1 else Changes(w))
            && Driven(w') == (if detects then Asked(w.payload) else if e.core then [] else Driven(w))
  {
  }

  /** An instant without host action: pulses move from ahead into the log. */
  lemma OrderlyStep(w: World, e: Event)
    requires Orderly(w) && e.action == Nothing
    ensures Shots(Step(w, e).log.pulses) + Ahead(Step(w, e)) == Shots(w.log.pulses) + Ahead(w)
  {
    OrderlyKept(w, e);
    LoggedNext(w, e);
    DetectedNext(w, e);
    var w' := Step(w, e);
    if e.core && !CoreBusy(w) && AtSeen(w) {
      assert Times(Changes(w), Asked(w.payload)) == Asked(w.payload) + Times(Changes(w'), Asked(w.payload));
    }
    Reorder(Shots(w.log.pulses), Driven(w), Times(Changes(w), Asked(w.payload)));
  }

  lemma Reorder(a: seq<Shot>, b: seq<Shot>, c: seq<Shot>)
    ensures a + (b + c) == a + b + c && a + ([] + c) == a + c && a + [] + c == a + c
  {
  }

  // ---- runs ----

  predicate NoAction(es: seq<Event>) {
    forall k :: 0 <= k < |es| ==> es[k].action == Nothing
  }

  lemma {:induction false} OrderlyRun(w: World, es: seq<Event>)
    requires Orderly(w) && NoAction(es)
    ensures Orderly(Run(w, es))
    ensures Shots(Run(w, es).log.pulses) + Ahead(Run(w, es)) == Shots(w.log.pulses) + Ahead(w)
    ensures CoreEdges(es) >= Work(w) ==> Work(Run(w, es)) == 0
    decreases |es|
  {
    if es == [] {
    } else {
      OrderlyKept(w, es[0]);
      OrderlyStep(w, es[0]);
      OrderlyRun(Step(w, es[0]), es[1..]);
    }
  }

  /** Once the work is done everything ahead has been pulsed. */
  lemma NothingAhead(w: World)
    requires Orderly(w) && Work(w) == 0
    ensures Ahead(w) == []
  {
  }

  // ---- the response ----

  /** The core is driving the access the payload asks for. */
  predicate DrivesPayload(w: World) {
    var c, q := w.core.s, w.payload;
    && c.active && Asks(q) && c.port == Port(true, q.op == 2, q.adr, q.data)
    && c.readPending == (q.op == 1) && c.response == Response(q.adr, 0, 0)
  }

  /** It is about to capture the data of the read the payload asks for. */
  predicate CapturesPayload(w: World) {
    var c, q := w.core.s, w.payload;
    && c.readCapture && !c.readPending && q.op == 1 && w.dbo == w.log.answer
    && c.response == Response(q.adr, 0, 0)
  }

  /** Changes are still to be detected, or the payload is being served, or the response is its own. */
  predicate Settling(w: World) {
    || Changes(w) > 0 || DrivesPayload(w) || CapturesPayload(w)
    || (!CoreBusy(w) && w.core.s.response == Own(w.payload, w.log.answer))
  }

  lemma SettlingStep(w: World, e: Event)
    requires Orderly(w) && Settling(w) && e.action == Nothing
    ensures Settling(Step(w, e))
  {
    DetectedNext(w, e);
    if Changes(Step(w, e)) == 0 && Changes(w) > 0 {
      assert e.core && !CoreBusy(w) && AtSeen(w);
    }
  }

  lemma {:induction false} SettlingRun(w: World, es: seq<Event>)
    requires Orderly(w) && Settling(w) && NoAction(es)
    ensures Orderly(Run(w, es)) && Settling(Run(w, es)) && Run(w, es).payload == w.payload
    decreases |es|
  {
    if es == [] {
    } else {
      OrderlyKept(w, es[0]);
      SettlingStep(w, es[0]);
      SettlingRun(Step(w, es[0]), es[1..]);
    }
  }

  lemma Settled(w: World)
    requires Orderly(w) && Settling(w) && Work(w) == 0
    ensures w.core.s.response == Own(w.payload, w.log.answer)
  {
  }

  /** With nothing to detect the response stays. */
  lemma {:induction false} ResponseStays(w: World, es: seq<Event>)
    requires Orderly(w) && Changes(w) == 0 && !CoreBusy(w) && NoAction(es)
    ensures Run(w, es).core.s.response == w.core.s.response
    decreases |es|
  {
    if es == [] {
    } else {
      OrderlyKept(w, es[0]);
      DetectedNext(w, es[0]);
      ResponseStays(Step(w, es[0]), es[1..]);
    }
  }

  // ---- a request issued while another one is pending ----

  /** What is still to be pulsed after a request `q` is issued at a stage of the last one. */
  function Outcome(w: World, stage: Stage, q: Request): seq<Shot>
    requires |w.log.issued| > 0
  {
    match stage
    case AtHost => []
    case AtMeta => Asked(q) + Asked(q)
    case AtSync => Asked(q) + Asked(q)
    case Served => (if w.core.s.active then [ShotOf(Last(w))] else []) + Asked(q)
    case _ => Asked(q)
  }

  lemma IssueIsOrderly(w: World, stage: Stage, q: Request)
    requires StageOk(w, stage) && stage != Resting && NoFlush(w)
    ensures var w' := HostStep(w, Issue(q));
            && Orderly(w') && !Waiting(w') && Ahead(w') == Outcome(w, stage, q) && Work(w') <= 16
            && (if stage == AtHost then Changes(w') == 0 && !CoreBusy(w') else Settling(w'))
  {
    var w' := HostStep(w, Issue(q));
    assert w'.core == w.core && w'.payload == q;
    assert Times(0, Asked(q)) == [] && Times(1, Asked(q)) == Asked(q) + [] && Times(2, Asked(q)) == Asked(q) + (Asked(q) + []);
  }

  /** A request issued while another is pending makes the pending signal fall at once.  From then on,
      without further host action and whatever the clocks do: before the first synchroniser stage saw
      the first request, neither is ever served; between that and its detection, the first is lost and the
      second served twice; later, each is served once. */
  lemma IssueWhilePending(w: World, stage: Stage, q: Request, es: seq<Event>)
    requires StageOk(w, stage) && stage != Resting && NoFlush(w)
    requires NoAction(es) && CoreEdges(es) >= 16
    ensures var w' := HostStep(w, Issue(q));
            !Waiting(w') && Shots(Run(w', es).log.pulses) == Shots(w.log.pulses) + Outcome(w, stage, q)
  {
    var w' := HostStep(w, Issue(q));
    IssueIsOrderly(w, stage, q);
    OrderlyRun(w', es);
    NothingAhead(Run(w', es));
    assert Shots(Run(w', es).log.pulses) + [] == Shots(Run(w', es).log.pulses);
  }

  /** What the host is told when the pending signal falls with the early request: the response to the
      request before the first one (or none), the first one's without its data, or the first one's own. */
  lemma ResponseAtFall(w: World, stage: Stage, q: Request)
    requires StageOk(w, stage) && stage != Resting
    ensures var w' := HostStep(w, Issue(q));
            !Waiting(w') && w'.core == w.core
    ensures stage in {AtHost, AtMeta, AtSync} ==> EarlierOk(w)
    ensures stage == Served ==> w.core.s.response == Response(Last(w).adr, 0, 0)
    ensures stage in {AtResponse, AtReturn} ==> w.core.s.response in {NO_RESPONSE, Own(Last(w), w.log.answer)}
  {
  }

  /** And what the response is in the end: unchanged if neither is served, else the second one's own. */
  lemma ResponseInTheEnd(w: World, stage: Stage, q: Request, es: seq<Event>)
    requires StageOk(w, stage) && stage != Resting && NoFlush(w)
    requires NoAction(es) && CoreEdges(es) >= 16
    ensures var end := Run(HostStep(w, Issue(q)), es);
            end.core.s.response == if stage == AtHost then w.core.s.response else Own(q, end.log.answer)
  {
    var w' := HostStep(w, Issue(q));
    IssueIsOrderly(w, stage, q);
    if stage == AtHost {
      ResponseStays(w', es);
    } else {
      OrderlyRun(w', es);
      SettlingRun(w', es);
      Settled(Run(w', es));
    }
  }

  /** What the first request is still due. */
  function StillDue(w: World, stage: Stage): seq<Shot>
    requires |w.log.issued| > 0
  {
    match stage
    case AtHost => Asked(Last(w))
    case AtMeta => Asked(Last(w))
    case AtSync => Asked(Last(w))
    case Served => if w.core.s.active then [ShotOf(Last(w))] else []
    case _ => []
  }

  /** So the host may issue before the response exactly once the core has detected the first request
      (or when losing it does not show, because both ask for the same access). */
  lemma ServedOnceIff(w: World, stage: Stage, q: Request)
    requires StageOk(w, stage) && stage != Resting && Asks(Last(w)) && Asks(q)
    ensures Outcome(w, stage, q) == StillDue(w, stage) + Asked(q)
       <==> stage in {Served, AtResponse, AtReturn} || (stage in {AtMeta, AtSync} && ShotOf(Last(w)) == ShotOf(q))
  {
    if stage in {AtHost, AtMeta, AtSync} {
      assert (StillDue(w, stage) + Asked(q))[0] == ShotOf(Last(w));
    }
  }

  /** Every pending state of every run, with no hard reset on its way, is at one of these stages. */
  lemma EarlyRequest(before: seq<Event>, q: Request, es: seq<Event>) returns (stage: Stage)
    requires LegalRun(START, before) && Waiting(Run(START, before)) && NoFlush(Run(START, before))
    requires NoAction(es) && CoreEdges(es) >= 16
    ensures var w := Run(START, before);
            var end := Run(HostStep(w, Issue(q)), es);
            && StageOk(w, stage) && stage != Resting
            && Shots(end.log.pulses) == Shots(w.log.pulses) + Outcome(w, stage, q)
            && end.core.s.response == if stage == AtHost then w.core.s.response else Own(q, end.log.answer)
  {
    StartInv();
    RunInv(START, before);
    var w := Run(START, before);
    stage :| StageOk(w, stage);
    IssueWhilePending(w, stage, q, es);
    ResponseInTheEnd(w, stage, q, es);
  }
}
