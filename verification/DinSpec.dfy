/**
 * The DIN 70121 server on values: what each request makes of the session. States are numbered as in
 * the server's table of expected requests.
 */
module DinSpec {
  import opened V2gTypes
  import opened Wrappers

  datatype Transfer = DCCore | DCExtended | OtherTransfer(id: int)

  datatype Request =
    | SessionSetupReq(random: int)
    | ServiceDiscoveryReq
    | PaymentSelectionReq(externalPayment: bool, services: seq<int>)
    | ContractAuthenticationReq
    | ChargeParameterReq(transfer: Transfer, acParameter: bool)
    | CableCheckReq
    | PreChargeReq
    | PowerDeliveryReq(ready: int, tuple: Option<int>)
    | CurrentDemandReq
    | WeldingDetectionReq
    | SessionStopReq
    | UnsupportedReq
    | UnknownReq
    | NoV2gMessage

  const SA_SCHEDULE_TUPLE_ID := 1

  /** What was made of one request: where the session stood, where it went, what the station reported. */
  datatype Entry = Entry(request: Request, event: Event, station: Station, from: nat, to: nat, started: bool)

  datatype Session = Session(
    state: nat, last: Message, current: Message, charging: bool,
    sessionId: int, transfer: Transfer, serviceId: int, terminateOnFailed: bool,
    station: Station, open: bool, log: History<Entry>)

  /** What a connection begins and ends with; the station's reports, the session id and the log stay. */
  function Reset(s: Session, terminated: bool): Session {
    s.(state := 0, last := Unknown, current := Unknown, charging := false,
       station := s.station.(stopHlc := false, emergency := false, terminated := terminated))
  }

  /** The session as a new connection finds it. */
  predicate Initial(s: Session) {
    s.state == 0 && s.last == Unknown && s.current == Unknown && !s.charging && s.open && s.log == Empty
  }

  // ---------- Validation ----------

  /** The requests expected in a state; state 12 expects none. */
  function Allowed(state: nat): set<Message> {
    match state
    case 0 => {SessionSetup}
    case 1 => {ServiceDiscovery, SessionStop}
    case 2 => {PaymentServiceSelection, SessionStop}
    case 3 => {Authorization, SessionStop}
    case 4 => {ChargeParameterDiscovery, SessionStop}
    case 5 => {CableCheck, SessionStop}
    case 6 => {PreCharge, SessionStop}
    case 7 => {PowerDelivery, PreCharge, SessionStop}
    case 8 => {CurrentDemand}
    case 9 => {CurrentDemand, PowerDelivery}
    case 10 => {WeldingDetection, SessionStop}
    case 11 => {SessionStop}
    case _ => {}
  }

  /** The response code after outside errors, the sequence and the session id were checked. */
  function Checked(s: Session, sid: int, own: Code): Code {
    if s.station.terminated then own
    else if s.current != SessionSetup && s.sessionId != sid then FAILED_UnknownSession
    else if s.current !in Allowed(s.state) then FAILED_SequenceError
    else if s.station.stopHlc || s.station.emergency then FAILED
    else own
  }

  function NextEvent(s: Session, sid: int, own: Code): Event {
    if s.station.terminated then TerminateConnection
    else if s.terminateOnFailed && Failed(Checked(s, sid, own)) then SendAndTerminate
    else NoEvent
  }

  datatype Reply = Reply(session: Session, code: Code, event: Event)

  /** The common end of the handlers; the next state is set even when validation failed. */
  function Answer(s: Session, sid: int, own: Code, next: nat): Reply {
    Reply(s.(state := next), Checked(s, sid, own), NextEvent(s, sid, own))
  }

  // ---------- Handlers ----------

  function HandleSessionSetup(s: Session, sid: int, random: int): Reply {
    Answer(if s.sessionId == 0 then s.(sessionId := random) else s, sid, OK_NewSessionEstablished, 1)
  }

  function HandleServiceDiscovery(s: Session, sid: int): Reply {
    Answer(if s.transfer.OtherTransfer? then s.(transfer := DCExtended) else s, sid, OK, 2)
  }

  function HandlePaymentSelection(s: Session, sid: int, externalPayment: bool, services: seq<int>): Reply {
    Answer(s, sid, if services != [s.serviceId] then FAILED_ServiceSelectionInvalid
                   else if !externalPayment then FAILED_PaymentSelectionInvalid else OK, 3)
  }

  function HandleContractAuthentication(s: Session, sid: int): Reply {
    Answer(s, sid, OK, if s.station.authFinished then 4 else 3)
  }

  function HandleChargeParameter(s: Session, sid: int, transfer: Transfer, acParameter: bool): Reply {
    Answer(s, sid, if acParameter then FAILED_WrongChargeParameter
                   else if transfer.OtherTransfer? || transfer != s.transfer then FAILED_WrongEnergyTransfer else OK,
           if s.station.parameterFinished then 5 else 4)
  }

  /** The cable check ended well: finished, with a usable isolation level and the station ready. */
  predicate CableCheckPassed(st: Station) {
    && st.isolationFinished && st.isolationUsed && (st.isolation == Valid || st.isolation == Warning)
    && st.isolationReady && !st.emergency
  }

  function HandleCableCheck(s: Session, sid: int): Reply {
    Answer(s, sid, OK, if CableCheckPassed(s.station) then 6 else 5)
  }

  function HandlePreCharge(s: Session, sid: int): Reply {
    Answer(s, sid, OK, 7)
  }

  function HandlePowerDelivery(s: Session, sid: int, ready: int, tuple: Option<int>): Reply {
    var s1 := if ready == 0 then s.(charging := false) else s;
    var own := if ready == 1 && (s.station.emergency || !s.station.chargeReady) then FAILED_PowerDeliveryNotApplied
               else if tuple.ValueOr(SA_SCHEDULE_TUPLE_ID) != SA_SCHEDULE_TUPLE_ID then FAILED_TariffSelectionInvalid
               else OK;
    if ready == 1 && s.last != CurrentDemand then Answer(s1, sid, own, 8)
    else
      var r := Answer(s1, sid, own, 10);
      if ready == 1 then r.(code := FAILED, event := SendAndTerminate) else r
  }

  function HandleCurrentDemand(s: Session, sid: int): Reply {
    Answer(s, sid, OK, 9)
  }

  function HandleWeldingDetection(s: Session, sid: int): Reply {
    Answer(s, sid, OK, 10)
  }

  function HandleSessionStop(s: Session, sid: int): Reply {
    Answer(s, sid, OK, 12).(event := SendAndTerminate)
  }

  // ---------- Dispatch ----------

  function MessageOf(r: Request): Message {
    match r
    case SessionSetupReq(_) => SessionSetup
    case ServiceDiscoveryReq => ServiceDiscovery
    case PaymentSelectionReq(_, _) => PaymentServiceSelection
    case ContractAuthenticationReq => Authorization
    case ChargeParameterReq(_, _) => ChargeParameterDiscovery
    case CableCheckReq => CableCheck
    case PreChargeReq => PreCharge
    case PowerDeliveryReq(_, _) => PowerDelivery
    case CurrentDemandReq => CurrentDemand
    case WeldingDetectionReq => WeldingDetection
    case SessionStopReq => SessionStop
    case _ => Unknown
  }

  /** Whether currentDemand_Started is published on receiving the request, before it is validated. */
  predicate Starts(s: Session, r: Request) {
    r.CurrentDemandReq? && s.last == PowerDelivery
  }

  /** On dispatch, before the handler runs. */
  function Dispatched(s: Session, r: Request): Session {
    s.(current := MessageOf(r), charging := s.charging || Starts(s, r))
  }

  predicate Supported(r: Request) {
    !r.UnsupportedReq? && !r.UnknownReq? && !r.NoV2gMessage?
  }

  function Handled(s: Session, r: Request, sid: int): Reply
    requires Supported(r)
  {
    match r
    case SessionSetupReq(random) => HandleSessionSetup(s, sid, random)
    case ServiceDiscoveryReq => HandleServiceDiscovery(s, sid)
    case PaymentSelectionReq(externalPayment, services) => HandlePaymentSelection(s, sid, externalPayment, services)
    case ContractAuthenticationReq => HandleContractAuthentication(s, sid)
    case ChargeParameterReq(transfer, acParameter) => HandleChargeParameter(s, sid, transfer, acParameter)
    case CableCheckReq => HandleCableCheck(s, sid)
    case PreChargeReq => HandlePreCharge(s, sid)
    case PowerDeliveryReq(ready, tuple) => HandlePowerDelivery(s, sid, ready, tuple)
    case CurrentDemandReq => HandleCurrentDemand(s, sid)
    case WeldingDetectionReq => HandleWeldingDetection(s, sid)
    case SessionStopReq => HandleSessionStop(s, sid)
  }

  function Record(s: Session, r: Request, before: Session, event: Event): Session {
    s.(last := s.current,
       log := Then(s.log, Entry(r, event, before.station, before.state, s.state, Starts(before, r))))
  }

  function HandleRequest(s: Session, r: Request, sid: int): Reply {
    if r.UnsupportedReq? then Reply(s.(current := Unknown), OK, IgnoreMsg)
    else if !Supported(r) then Reply(s, OK, IgnoreMsg)
    else
      var reply := Handled(Dispatched(s, r), r, sid);
      reply.(session := Record(reply.session, r, s, reply.event))
  }

  // ---------- Runs ----------

  datatype Step =
    | Report(station: Station)
    | Receive(request: Request, sessionId: int, sent: bool)
    | Undecodable
    | Lost

  function Apply(s: Session, step: Step): Session {
    if !s.open then s
    else
      match step
      case Report(station) => s.(station := station)
      case Receive(r, sid, sent) =>
        var reply := HandleRequest(s, r, sid);
        reply.session.(open := !Terminating(reply.event) && (reply.event == IgnoreMsg || sent))
      case Undecodable => s
      case Lost => s.(open := false)
  }

  function Run(s: Session, steps: seq<Step>): Session
    decreases |steps|
  {
    if steps == [] then s else Apply(Run(s, steps[..|steps| - 1]), steps[|steps| - 1])
  }
}
