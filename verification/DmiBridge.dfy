/** The clock-domain crossing of the debug transport (rtl/debug/dtm_transport.py). */
module DmiBridge {
  /** A DMI scan: address, data and the 2-bit operation (section 6.1.5 of the RISC-V Debug
      Specification 1.0: 1 reads, 2 writes, other values do nothing). */
  datatype Request = Request(adr: nat, data: nat, op: nat)

  datatype Response = Response(adr: nat, data: nat, op: nat)

  const OP_READ := 1
  const OP_WRITE := 2
  const OP_SUCCESS := 0
  const NO_RESPONSE := Response(0, 0, 0)

  /** Core-clock copies of the host's two toggles. */
  datatype Toggles = Toggles(reqMeta: bool, reqSync: bool, hardMeta: bool, hardSync: bool)

  /** The DMI port of the debug module. */
  datatype Port = Port(en: bool, we: bool, adr: nat, data: nat)

  /** Progress of a read: not reading, access running, data due in this cycle. */
  datatype Service = Service(reqSeen: bool, hardSeen: bool, active: bool, readPending: bool, readCapture: bool,
                             respToggle: bool, response: Response, port: Port)

  datatype Core = Core(t: Toggles, s: Service)

  /** Scan-clock synchroniser of the response toggle. */
  datatype Sync = Sync(meta: bool, sync: bool)

  function SyncStep(s: Sync, respToggle: bool): Sync {
    Sync(respToggle, s.meta)
  }

  /** Inputs sampled at a core edge. */
  datatype CoreIn = CoreIn(reqToggle: bool, hardToggle: bool, payload: Request, dbo: nat)

  function TogglesStep(t: Toggles, i: CoreIn): Toggles {
    Toggles(i.reqToggle, t.reqMeta, i.hardToggle, t.hardMeta)
  }

  /** A detected request starts a DMI access, or is answered at once when it asks for nothing. */
  function Detected(s: Service, q: Request, reqSync: bool): Service {
    var asks := q.op == OP_READ || q.op == OP_WRITE;
    Service(reqSync, s.hardSeen, asks, q.op == OP_READ, false, if asks then s.respToggle else reqSync,
            Response(q.adr, 0, OP_SUCCESS), Port(asks, q.op == OP_WRITE, q.adr, q.data))
  }

  function ServiceStep(s: Service, t: Toggles, i: CoreIn): Service {
    if t.hardSync != s.hardSeen then
      Service(t.reqSync, t.hardSync, false, false, false, t.reqSync, NO_RESPONSE, s.port.(en := false, we := false))
    else if s.active then
      Service(s.reqSeen, s.hardSeen, false, false, s.readPending || s.readCapture,
              if s.readPending then s.respToggle else s.reqSeen, s.response, s.port.(en := false, we := false))
    else if s.readCapture then
      Service(s.reqSeen, s.hardSeen, false, s.readPending, false, s.reqSeen,
              Response(s.response.adr, i.dbo, OP_SUCCESS), s.port)
    else if t.reqSync != s.reqSeen then
      Detected(s, i.payload, t.reqSync).(readPending := s.readPending || i.payload.op == OP_READ)
    else s
  }

  function CoreStep(c: Core, i: CoreIn): Core {
    Core(TogglesStep(c.t, i), ServiceStep(c.s, c.t, i))
  }

  predicate Pending(reqToggle: bool, s: Sync) {
    reqToggle != s.sync
  }

  const CORE_RESET := Core(Toggles(false, false, false, false),
                           Service(false, false, false, false, false, false, NO_RESPONSE, Port(false, false, 0, 0)))

  class DmiCdcBridge {
    // scan clock
    var responseMeta: bool
    var responseSync: bool
    // core clock
    var reqMeta: bool
    var reqSync: bool
    var reqSeen: bool
    var hardMeta: bool
    var hardSync: bool
    var hardSeen: bool
    var active: bool
    var readPending: bool
    var readCapture: bool
    var respToggle: bool
    var response: Response
    var dtmEn: bool
    var dtmWe: bool
    var dtmAdr: nat
    var dtmData: nat

    constructor ()
      ensures CoreRegs() == CORE_RESET && SyncRegs() == Sync(false, false)
    {
      responseMeta, responseSync := false, false;
      reqMeta, reqSync, reqSeen, hardMeta, hardSync, hardSeen := false, false, false, false, false, false;
      active, readPending, readCapture, respToggle := false, false, false, false;
      response := NO_RESPONSE;
      dtmEn, dtmWe, dtmAdr, dtmData := false, false, 0, 0;
    }

    function ToggleRegs(): Toggles
      reads this
    {
      Toggles(reqMeta, reqSync, hardMeta, hardSync)
    }

    function ServiceRegs(): Service
      reads this
    {
      Service(reqSeen, hardSeen, active, readPending, readCapture, respToggle, response,
              Port(dtmEn, dtmWe, dtmAdr, dtmData))
    }

    function CoreRegs(): Core
      reads this
    {
      Core(ToggleRegs(), ServiceRegs())
    }

    function SyncRegs(): Sync
      reads this
    {
      Sync(responseMeta, responseSync)
    }

    method ScanEdge()
      modifies this`responseMeta, this`responseSync
      ensures SyncRegs() == SyncStep(old(SyncRegs()), respToggle)
    {
      responseSync := responseMeta;
      responseMeta := respToggle;
    }

    method Detect(q: Request)
      requires !active && !readCapture
      modifies this`reqSeen, this`dtmAdr, this`dtmData, this`response, this`dtmWe, this`dtmEn,
        this`active, this`readPending, this`respToggle
      ensures ServiceRegs() ==
        Detected(old(ServiceRegs()), q, reqSync).(readPending := old(readPending) || q.op == OP_READ)
    {
      reqSeen := reqSync;
      dtmAdr := q.adr;
      dtmData := q.data;
      response := Response(q.adr, 0, OP_SUCCESS);
      if q.op == OP_READ {
        dtmWe := false;
        dtmEn := true;
        active := true;
        readPending := true;
      } else if q.op == OP_WRITE {
        dtmWe := true;
        dtmEn := true;
        active := true;
      } else {
        dtmEn := false;
        dtmWe := false;
        respToggle := reqSync;
      }
    }

    /** A hard reset aborts the request being served and acknowledges what has arrived. */
    method Flush()
      modifies this`hardSeen, this`reqSeen, this`active, this`readPending, this`readCapture, this`response,
        this`respToggle, this`dtmEn, this`dtmWe
      ensures ServiceRegs() == Service(reqSync, hardSync, false, false, false, reqSync, NO_RESPONSE,
                                       Port(false, false, dtmAdr, dtmData))
    {
      hardSeen := hardSync;
      reqSeen := reqSync;
      active := false;
      readPending := false;
      readCapture := false;
      response := NO_RESPONSE;
      respToggle := reqSync;
      dtmEn := false;
      dtmWe := false;
    }

    /** The enable pulse ends; a read waits one more cycle for its data. */
    method EndPulse()
      modifies this`active, this`readPending, this`readCapture, this`respToggle, this`dtmEn, this`dtmWe
      ensures ServiceRegs() ==
        Service(reqSeen, hardSeen, false, false, old(readPending || readCapture),
                if old(readPending) then old(respToggle) else reqSeen, response, Port(false, false, dtmAdr, dtmData))
    {
      dtmEn := false;
      dtmWe := false;
      active := false;
      if readPending {
        readPending := false;
        readCapture := true;
      } else {
        respToggle := reqSeen;
      }
    }

    method ClockService(i: CoreIn)
      modifies this`reqSeen, this`dtmAdr, this`dtmData, this`response, this`dtmWe, this`dtmEn,
        this`active, this`readPending, this`respToggle, this`hardSeen, this`readCapture
      ensures ServiceRegs() == ServiceStep(old(ServiceRegs()), ToggleRegs(), i)
    {
      if hardSync != hardSeen {
        Flush();
      } else if active {
        EndPulse();
      } else if readCapture {
        response := response.(op := OP_SUCCESS, data := i.dbo);
        respToggle := reqSeen;
        readCapture := false;
      } else if reqSync != reqSeen {
        Detect(i.payload);
      }
    }

    method ClockToggles(i: CoreIn)
      modifies this`reqMeta, this`reqSync, this`hardMeta, this`hardSync
      ensures ToggleRegs() == TogglesStep(old(ToggleRegs()), i)
    {
      reqSync := reqMeta;
      reqMeta := i.reqToggle;
      hardSync := hardMeta;
      hardMeta := i.hardToggle;
    }

    /** A core edge; with `scan` set, a scan edge at the same instant. */
    method Edges(core: bool, scan: bool, i: CoreIn)
      modifies this
      ensures CoreRegs() == if core then CoreStep(old(CoreRegs()), i) else old(CoreRegs())
      ensures SyncRegs() == if scan then SyncStep(old(SyncRegs()), old(respToggle)) else old(SyncRegs())
    {
      if scan {
        ScanEdge();
      }
      if core {
        ClockService(i);
        ClockToggles(i);
      }
    }
  }
}
