/** The bridge between a scan host and a debug module, under every interleaving of their clocks. */
module DmiTransport {
  import opened DmiBridge

  /** A core cycle with DMI enable, as the debug module sees it; `index` numbers the request. */
  datatype Pulse = Pulse(index: nat, adr: nat, data: nat, we: bool)

  /** What happened so far: requests issued by the host, DMI pulses, the debug module's answer to
      the last read, whether a hard reset reached the core since the last request, or ever. */
  datatype Log = Log(issued: seq<Request>, pulses: seq<Pulse>, answer: nat, flushed: bool, wasReset: bool)

  /** Host toggles and payload, the two halves of the bridge, and the debug module's read register. */
  datatype World = World(reqToggle: bool, hardToggle: bool, payload: Request, sync: Sync, core: Core, dbo: nat, log: Log)

  datatype Action = Nothing | Issue(request: Request) | HardReset

  /** An instant: any of the clocks may have an edge, and the host may act.  `answer` is what the
      debug module returns if it is being read. */
  datatype Event = Event(core: bool, scan: bool, action: Action, answer: nat)

  predicate Waiting(w: World) {
    Pending(w.reqToggle, w.sync)
  }

  /** The host issues a request only when none is pending. */
  predicate Legal(w: World, e: Event) {
    e.action.Issue? ==> !Waiting(w)
  }

  function HostStep(w: World, a: Action): World {
    match a
    case Nothing => w
    case Issue(q) =>
      w.(reqToggle := !w.reqToggle, payload := q, log := w.log.(issued := w.log.issued + [q], flushed := false))
    case HardReset => w.(hardToggle := !w.hardToggle)
  }

  /** The log entries of a core edge. */
  function LogStep(w: World, answer: nat): Log {
    var l := if w.core.t.hardSync != w.core.s.hardSeen then w.log.(flushed := true, wasReset := true) else w.log;
    var p := w.core.s.port;
    if !p.en || |l.issued| == 0 then l
    else
      l.(pulses := l.pulses + [Pulse(|l.issued| - 1, p.adr, p.data, p.we)], answer := if p.we then l.answer else answer)
  }

  /** All parts that have an edge step at once, from the values before it. */
  function Step(w: World, e: Event): World {
    var cored :=
      if e.core then
        w.(core := CoreStep(w.core, CoreIn(w.reqToggle, w.hardToggle, w.payload, w.dbo)),
           dbo := if w.core.s.port.en && !w.core.s.port.we then e.answer else 0,
           log := LogStep(w, e.answer))
      else w;
    var scanned := if e.scan then cored.(sync := SyncStep(w.sync, w.core.s.respToggle)) else cored;
    HostStep(scanned, e.action)
  }

  const START := World(false, false, Request(0, 0, 0), Sync(false, false), CORE_RESET, 0, Log([], [], 0, false, false))

  // ---- invariant ----

  /** How far the last request has come, by the one boundary in the chain of toggles
      request - meta - sync - seen - response - meta - sync. */
  datatype Stage = Resting | AtHost | AtMeta | AtSync | Served | AtResponse | AtReturn

  predicate Chain(w: World, stage: Stage) {
    var r, c, s := w.reqToggle, w.core, w.sync;
    && (c.t.reqMeta == (if stage in {AtHost} then !r else r))
    && (c.t.reqSync == (if stage in {AtHost, AtMeta} then !r else r))
    && (c.s.reqSeen == (if stage in {AtHost, AtMeta, AtSync} then !r else r))
    && (c.s.respToggle == (if stage in {AtHost, AtMeta, AtSync, Served} then !r else r))
    && (s.meta == (if stage in {AtHost, AtMeta, AtSync, Served, AtResponse} then !r else r))
    && (s.sync == (if stage == Resting then r else !r))
  }

  function Last(w: World): Request
    requires |w.log.issued| > 0
  {
    w.log.issued[|w.log.issued| - 1]
  }

  predicate Asks(q: Request) {
    q.op == 1 || q.op == 2
  }

  /** The response that belongs to a request and the debug module's answer to it. */
  function Own(q: Request, answer: nat): Response {
    Response(q.adr, if q.op == 1 then answer else 0, 0)
  }

  /** The last request has had its pulse. */
  predicate Pulsed(w: World) {
    && |w.log.pulses| > 0 && |w.log.issued| > 0
    && w.log.pulses[|w.log.pulses| - 1].index == |w.log.issued| - 1
  }

  /** Pulses are those of distinct requests, in order, with the request's address and data. */
  predicate PulsesOk(w: World) {
    && (forall k :: 0 <= k < |w.log.pulses| ==>
          var p := w.log.pulses[k];
          && p.index < |w.log.issued| && Asks(w.log.issued[p.index])
          && p.adr == w.log.issued[p.index].adr && p.data == w.log.issued[p.index].data
          && p.we == (w.log.issued[p.index].op == 2))
    && (forall k, j :: 0 <= k < j < |w.log.pulses| ==> w.log.pulses[k].index < w.log.pulses[j].index)
  }

  /** The core serves the request: driving the pulse, or about to capture the read data. */
  predicate ServingOk(w: World) {
    var c := w.core.s;
    && |w.log.issued| > 0 && c.response == Response(Last(w).adr, 0, 0)
    && c.active != c.readCapture && c.port.en == c.active
    && (c.active ==>
          && Asks(Last(w)) && !Pulsed(w)
          && c.port == Port(true, Last(w).op == 2, Last(w).adr, Last(w).data)
          && c.readPending == (Last(w).op == 1))
    && (c.readCapture ==> Last(w).op == 1 && !c.readPending && Pulsed(w) && w.dbo == w.log.answer)
  }

  /** The request is done: it has had its pulse if it asks for one and the response is its own,
      unless a hard reset flushed it. */
  predicate DoneOk(w: World) {
    var c := w.core.s;
    |w.log.issued| > 0 ==>
      && (!w.log.flushed ==> (Asks(Last(w)) ==> Pulsed(w)) && c.response == Own(Last(w), w.log.answer))
      && (c.response == NO_RESPONSE || c.response == Own(Last(w), w.log.answer))
  }

  /** Until the core sees the request, the response is the one before it, or was flushed. */
  predicate EarlierOk(w: World) {
    var n := |w.log.issued|;
    w.core.s.response == NO_RESPONSE || (n > 1 && w.core.s.response == Own(w.log.issued[n - 2], w.log.answer))
  }

  predicate StageOk(w: World, stage: Stage) {
    var c := w.core.s;
    && Chain(w, stage)
    && (stage != Served ==> !c.active && !c.readPending && !c.readCapture && !c.port.en)
    && (stage != Resting ==> |w.log.issued| > 0)
    && (stage in {AtHost, AtMeta, AtSync} ==> !Pulsed(w) && EarlierOk(w))
    && (|w.log.issued| == 0 ==> c.response == NO_RESPONSE)
    && (stage == Served ==> ServingOk(w))
    && (stage in {Resting, AtResponse, AtReturn} ==> DoneOk(w))
  }

  /** The pulses of a list of requests, one for each that asks. */
  function Expected(issued: seq<Request>): seq<Pulse>
    decreases |issued|
  {
    if issued == [] then []
    else
      var n := |issued| - 1;
      var q := issued[n];
      Expected(issued[..n]) + if Asks(q) then [Pulse(n, q.adr, q.data, q.op == 2)] else []
  }

  /** Without hard resets every request that asks has had its pulse, except perhaps the last. */
  predicate NoneMissing(w: World) {
    !w.log.wasReset ==>
      if |w.log.issued| == 0 || Pulsed(w) || !Asks(Last(w)) then w.log.pulses == Expected(w.log.issued)
      else w.log.pulses == Expected(w.log.issued[..|w.log.issued| - 1])
  }

  ghost predicate Inv(w: World) {
    && PulsesOk(w)
    && NoneMissing(w)
    && (w.log.flushed ==> w.log.wasReset)
    && (|w.log.issued| > 0 ==> w.payload == Last(w))
    && exists stage :: StageOk(w, stage)
  }

  lemma StartInv()
    ensures Inv(START)
  {
    assert StageOk(START, Resting);
  }

  /** The stage after an instant without host action. */
  function NextStage(w: World, stage: Stage, e: Event): Stage {
    match stage
    case Resting => Resting
    case AtHost => if e.core then AtMeta else AtHost
    case AtMeta => if e.core then AtSync else AtMeta
    case AtSync =>
      if !e.core then AtSync
      else if w.core.t.hardSync != w.core.s.hardSeen || !Asks(w.payload) then AtResponse
      else Served
    case Served =>
      if !e.core then Served
      else if w.core.t.hardSync == w.core.s.hardSeen && w.core.s.readPending then Served
      else AtResponse
    case AtResponse => if e.scan then AtReturn else AtResponse
    case AtReturn => if e.scan then Resting else AtReturn
  }

  /** The toggles move one place along the chain at a time. */
  lemma ChainStep(w: World, stage: Stage, e: Event)
    requires StageOk(w, stage) && !e.action.Issue?
    ensures Chain(Step(w, e), NextStage(w, stage, e))
  {
  }

  lemma EarlierStep(w: World, stage: Stage, e: Event)
    requires StageOk(w, stage) && !e.action.Issue? && stage in {AtHost, AtMeta, AtSync}
    requires NextStage(w, stage, e) in {AtHost, AtMeta, AtSync}
    ensures EarlierOk(Step(w, e))
  {
  }

  /** Before the core has seen the request. */
  lemma ComingStep(w: World, stage: Stage, e: Event)
    requires |w.log.issued| > 0 ==> w.payload == Last(w)
    requires StageOk(w, stage) && !e.action.Issue? && stage in {AtHost, AtMeta, AtSync}
    ensures StageOk(Step(w, e), NextStage(w, stage, e))
  {
    ChainStep(w, stage, e);
    assert Step(w, e).log.pulses == w.log.pulses && Step(w, e).log.issued == w.log.issued;
    if NextStage(w, stage, e) in {AtHost, AtMeta, AtSync} {
      EarlierStep(w, stage, e);
    }
  }

  /** While the core serves the request: its clock rests, drives the pulse, captures, or flushes. */
  lemma ServedResting(w: World, e: Event)
    requires StageOk(w, Served) && !e.action.Issue? && !e.core
    ensures StageOk(Step(w, e), Served)
  {
    ChainStep(w, Served, e);
  }

  lemma ServedPulse(w: World, e: Event)
    requires StageOk(w, Served) && !e.action.Issue? && e.core && w.core.s.active
    ensures StageOk(Step(w, e), NextStage(w, Served, e))
  {
    ChainStep(w, Served, e);
  }

  lemma ServedCapture(w: World, e: Event)
    requires StageOk(w, Served) && !e.action.Issue? && e.core && !w.core.s.active
    ensures StageOk(Step(w, e), NextStage(w, Served, e))
  {
    ChainStep(w, Served, e);
  }

  lemma ServedStep(w: World, e: Event)
    requires StageOk(w, Served) && !e.action.Issue?
    ensures StageOk(Step(w, e), NextStage(w, Served, e))
  {
    if !e.core {
      ServedResting(w, e);
    } else if w.core.s.active {
      ServedPulse(w, e);
    } else {
      ServedCapture(w, e);
    }
  }

  lemma DoneStep(w: World, stage: Stage, e: Event)
    requires StageOk(w, stage) && !e.action.Issue? && stage in {Resting, AtResponse, AtReturn}
    ensures StageOk(Step(w, e), NextStage(w, stage, e))
  {
  }

  lemma StageStep(w: World, stage: Stage, e: Event)
    requires |w.log.issued| > 0 ==> w.payload == Last(w)
    requires StageOk(w, stage) && !e.action.Issue?
    ensures StageOk(Step(w, e), NextStage(w, stage, e))
  {
    if stage in {AtHost, AtMeta, AtSync} {
      ComingStep(w, stage, e);
    } else if stage == Served {
      ServedStep(w, e);
    } else {
      DoneStep(w, stage, e);
    }
  }

  lemma ExpectedNext(issued: seq<Request>, q: Request)
    ensures Expected(issued + [q]) ==
      Expected(issued) + if Asks(q) then [Pulse(|issued|, q.adr, q.data, q.op == 2)] else []
  {
    assert (issued + [q])[..|issued|] == issued;
  }

  /** What a step without a new request does to the log. */
  lemma LogAfter(w: World, stage: Stage, e: Event)
    requires StageOk(w, stage) && !e.action.Issue?
    ensures var w' := Step(w, e);
            && w'.payload == w.payload && w'.log.issued == w.log.issued
            && (w.log.wasReset ==> w'.log.wasReset)
            && ((w.log.flushed ==> w.log.wasReset) ==> (w'.log.flushed ==> w'.log.wasReset))
            && (if e.core && stage == Served && w.core.s.active then
                  w'.log.pulses == w.log.pulses
                                   + [Pulse(|w.log.issued| - 1, Last(w).adr, Last(w).data, Last(w).op == 2)]
                else w'.log.pulses == w.log.pulses)
  {
  }

  /** A pulse of the core is the last request's only one. */
  lemma PulseStep(w: World, stage: Stage, e: Event)
    requires PulsesOk(w) && NoneMissing(w) && StageOk(w, stage) && !e.action.Issue?
    ensures PulsesOk(Step(w, e)) && NoneMissing(Step(w, e))
  {
    LogAfter(w, stage, e);
    if e.core && stage == Served && w.core.s.active {
      LastPulse(w, Step(w, e));
    }
  }

  /** Before its pulse, all pulses belong to earlier requests. */
  lemma EarlierPulses(w: World)
    requires PulsesOk(w) && |w.log.issued| > 0 && !Pulsed(w)
    ensures forall k :: 0 <= k < |w.log.pulses| ==> w.log.pulses[k].index < |w.log.issued| - 1
  {
    var last := |w.log.pulses| - 1;
    forall k | 0 <= k < |w.log.pulses|
      ensures w.log.pulses[k].index < |w.log.issued| - 1
    {
      assert k < last ==> w.log.pulses[k].index < w.log.pulses[last].index;
      assert w.log.pulses[last].index < |w.log.issued|;
    }
  }

  lemma LastPulse(w: World, w': World)
    requires PulsesOk(w) && NoneMissing(w) && |w.log.issued| > 0 && Asks(Last(w)) && !Pulsed(w)
    requires w'.log.issued == w.log.issued && (w.log.wasReset ==> w'.log.wasReset)
    requires w'.log.pulses == w.log.pulses
               + [Pulse(|w.log.issued| - 1, Last(w).adr, Last(w).data, Last(w).op == 2)]
    ensures PulsesOk(w') && NoneMissing(w')
  {
    EarlierPulses(w);
    LastExpected(w, w');
  }

  lemma LastExpected(w: World, w': World)
    requires NoneMissing(w) && |w.log.issued| > 0 && Asks(Last(w)) && !Pulsed(w)
    requires w'.log.issued == w.log.issued && (w.log.wasReset ==> w'.log.wasReset)
    requires w'.log.pulses == w.log.pulses
               + [Pulse(|w.log.issued| - 1, Last(w).adr, Last(w).data, Last(w).op == 2)]
    ensures NoneMissing(w')
  {
    var before := w.log.issued[..|w.log.issued| - 1];
    ExpectedNext(before, Last(w));
    assert before + [Last(w)] == w.log.issued;
  }

  /** Issuing a request when none is pending. */
  lemma IssueStep(w: World, q: Request)
    requires PulsesOk(w) && NoneMissing(w) && (w.log.flushed ==> w.log.wasReset) && StageOk(w, Resting)
    ensures var w' := HostStep(w, Issue(q));
            PulsesOk(w') && NoneMissing(w') && StageOk(w', AtHost) && w'.payload == Last(w')
  {
    ExpectedNext(w.log.issued, q);
    var issued' := w.log.issued + [q];
    assert issued'[..|issued'| - 1] == w.log.issued;
  }

  lemma StepInv(w: World, e: Event)
    requires Inv(w) && Legal(w, e)
    ensures Inv(Step(w, e))
  {
    var stage :| StageOk(w, stage);
    var e' := if e.action.Issue? then e.(action := Nothing) else e;
    StageStep(w, stage, e');
    PulseStep(w, stage, e');
    LogAfter(w, stage, e');
    if e.action.Issue? {
      assert stage == Resting;
      assert NextStage(w, stage, e') == Resting;
      IssueStep(Step(w, e'), e.action.request);
      assert Step(w, e) == HostStep(Step(w, e'), e.action);
      assert StageOk(Step(w, e), AtHost);
    }
  }

  // ---- runs ----

  ghost predicate LegalRun(w: World, es: seq<Event>)
    decreases |es|
  {
    es == [] || (Legal(w, es[0]) && LegalRun(Step(w, es[0]), es[1..]))
  }

  function Run(w: World, es: seq<Event>): World
    decreases |es|
  {
    if es == [] then w else Run(Step(w, es[0]), es[1..])
  }

  /** In every run the toggle chain keeps at most one boundary, and every pulse belongs to a
      request of its own, in order, with that request's address, data and direction: whatever hard
      resets do, no request is replayed. */
  lemma {:induction false} RunInv(w: World, es: seq<Event>)
    requires Inv(w) && LegalRun(w, es)
    ensures Inv(Run(w, es))
    decreases |es|
  {
    if es == [] {
    } else {
      StepInv(w, es[0]);
      RunInv(Step(w, es[0]), es[1..]);
    }
  }

  predicate NoHardReset(es: seq<Event>) {
    forall k :: 0 <= k < |es| ==> !es[k].action.HardReset?
  }

  predicate NeverReset(w: World) {
    && w.hardToggle == w.core.t.hardMeta == w.core.t.hardSync == w.core.s.hardSeen
    && !w.log.wasReset
  }

  lemma {:induction false} StaysUnreset(w: World, es: seq<Event>)
    requires NeverReset(w) && NoHardReset(es)
    ensures NeverReset(Run(w, es))
    decreases |es|
  {
    if es == [] {
    } else {
      assert NeverReset(Step(w, es[0]));
      StaysUnreset(Step(w, es[0]), es[1..]);
    }
  }

  /** Under every interleaving of the clocks without a hard reset: whenever nothing is pending,
      each read and write issued so far has caused exactly one one-cycle enable pulse with its
      address and data, in order, and the response is the last request's own answer. */
  lemma EachRequestOnce(es: seq<Event>)
    requires LegalRun(START, es) && NoHardReset(es)
    ensures var w := Run(START, es);
            !Waiting(w) ==>
              && w.log.pulses == Expected(w.log.issued)
              && (|w.log.issued| > 0 ==> w.core.s.response == Own(Last(w), w.log.answer))
  {
    StartInv();
    RunInv(START, es);
    StaysUnreset(START, es);
    var w := Run(START, es);
    var stage :| StageOk(w, stage);
  }

  /** With hard resets the response is the last request's own answer or all zero. */
  lemma OwnAnswerOrNone(es: seq<Event>)
    requires LegalRun(START, es)
    ensures var w := Run(START, es);
            !Waiting(w) && |w.log.issued| > 0 ==>
              w.core.s.response == Own(Last(w), w.log.answer) || (w.log.flushed && w.core.s.response == NO_RESPONSE)
  {
    StartInv();
    RunInv(START, es);
    var stage :| StageOk(Run(START, es), stage);
  }

  /** The host rule is needed: two scans with no clock edge between them cancel each other in the
      toggle, so that nothing is pending and neither request ever reaches the debug module. */
  lemma HostMustWait(q: Request, q': Request, es: seq<Event>)
    requires forall k :: 0 <= k < |es| ==> es[k].action == Nothing
    ensures var w := Run(START, [Event(false, false, Issue(q), 0), Event(false, false, Issue(q'), 0)] + es);
            !Waiting(w) && w.log.issued == [q, q'] && w.log.pulses == []
  {
    var e1, e2 := Event(false, false, Issue(q), 0), Event(false, false, Issue(q'), 0);
    var all := [e1, e2] + es;
    assert all[1..] == [e2] + es && all[1..][1..] == es;
    Asleep(Step(Step(START, e1), e2), es);
  }

  /** With all toggles equal and no host action nothing ever happens. */
  lemma {:induction false} Asleep(w: World, es: seq<Event>)
    requires forall k :: 0 <= k < |es| ==> es[k].action == Nothing
    requires Chain(w, Resting) && NeverReset(w)
    requires !w.core.s.active && !w.core.s.readCapture && !w.core.s.port.en
    ensures !Waiting(Run(w, es)) && Run(w, es).log == w.log
    decreases |es|
  {
    if es == [] {
    } else {
      Asleep(Step(w, es[0]), es[1..]);
    }
  }

  // ---- draining ----

  predicate Quiet(es: seq<Event>) {
    forall k :: 0 <= k < |es| ==> !es[k].action.Issue?
  }

  function CoreEdges(es: seq<Event>): nat
    decreases |es|
  {
    if es == [] then 0 else (if es[0].core then 1 else 0) + CoreEdges(es[1..])
  }

  function ScanEdges(es: seq<Event>): nat
    decreases |es|
  {
    if es == [] then 0 else (if es[0].scan then 1 else 0) + ScanEdges(es[1..])
  }

  /** Core edges the request still needs. */
  function Left(w: World, stage: Stage): nat {
    match stage
    case AtHost => 5
    case AtMeta => 4
    case AtSync => 3
    case Served => if w.core.s.active then 2 else 1
    case _ => 0
  }

  /** Every core edge brings the request closer to its end. */
  lemma DrainStep(w: World, stage: Stage, e: Event)
    requires |w.log.issued| > 0 ==> w.payload == Last(w)
    requires StageOk(w, stage) && !e.action.Issue?
    ensures StageOk(Step(w, e), NextStage(w, stage, e))
    ensures Left(Step(w, e), NextStage(w, stage, e))
         <= if e.core && Left(w, stage) > 0 then Left(w, stage) - 1 else Left(w, stage)
    ensures Step(w, e).log.issued == w.log.issued && Step(w, e).payload == w.payload
  {
    StageStep(w, stage, e);
  }

  lemma {:induction false} CoreDrains(w: World, stage: Stage, es: seq<Event>) returns (stage': Stage)
    requires |w.log.issued| > 0 ==> w.payload == Last(w)
    requires StageOk(w, stage) && Quiet(es) && CoreEdges(es) >= Left(w, stage)
    ensures StageOk(Run(w, es), stage') && stage' in {Resting, AtResponse, AtReturn}
    ensures Run(w, es).log.issued == w.log.issued
    ensures |w.log.issued| > 0 ==> Run(w, es).payload == Last(Run(w, es))
    decreases |es|
  {
    if es == [] {
      stage' := stage;
    } else {
      DrainStep(w, stage, es[0]);
      stage' := CoreDrains(Step(w, es[0]), NextStage(w, stage, es[0]), es[1..]);
    }
  }

  lemma {:induction false} ScanDrains(w: World, stage: Stage, es: seq<Event>)
    requires |w.log.issued| > 0 ==> w.payload == Last(w)
    requires StageOk(w, stage) && Quiet(es) && stage in {Resting, AtResponse, AtReturn}
    requires ScanEdges(es) >= match stage case AtResponse => 2 case AtReturn => 1 case _ => 0
    ensures StageOk(Run(w, es), Resting)
    decreases |es|
  {
    if es == [] {
    } else {
      StageStep(w, stage, es[0]);
      ScanDrains(Step(w, es[0]), NextStage(w, stage, es[0]), es[1..]);
    }
  }

  lemma {:induction false} RunConcat(w: World, a: seq<Event>, b: seq<Event>)
    ensures Run(w, a + b) == Run(Run(w, a), b)
    decreases |a|
  {
    if a == [] {
      assert a + b == b;
    } else {
      assert (a + b)[1..] == a[1..] + b;
      RunConcat(Step(w, a[0]), a[1..], b);
    }
  }

  /** Any request drains, with hard resets anywhere or without: after five core edges and then two
      scan edges, however interleaved with others, nothing is pending. */
  lemma Drains(w: World, a: seq<Event>, b: seq<Event>)
    requires Inv(w) && Quiet(a) && Quiet(b) && CoreEdges(a) >= 5 && ScanEdges(b) >= 2
    ensures !Waiting(Run(w, a + b))
  {
    var stage :| StageOk(w, stage);
    var stage' := CoreDrains(w, stage, a);
    ScanDrains(Run(w, a), stage', b);
    RunConcat(w, a, b);
  }
}
