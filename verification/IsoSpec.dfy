/**
 * The ISO 15118-2 server on values, with external payment. States are numbered as in the server's
 * tables of expected requests; the tables for AC and DC agree up to state 6.
 */
module IsoSpec {
  import opened V2gTypes
  import opened Wrappers

  datatype Progress = Start | Stop | Renegotiate | OtherProgress

  /** How asking another party for a certificate ended. */
  datatype Installation = Installed | NotAnswered | Broken

  datatype Request =
    | SessionSetupReq(random: int)
    | ServiceDiscoveryReq
    | ServiceDetailReq(service: int)
    | PaymentServiceSelectionReq(contract: bool, services: seq<int>)
    | PaymentDetailsReq
    | AuthorizationReq
    | ChargeParameterReq(mode: int, acParameter: bool, dcParameter: bool)
    | PowerDeliveryReq(progress: Progress, tuple: int, contactorTimeout: bool)
    | ChargingStatusReq
    | MeteringReceiptReq
    | CertificateUpdateReq
    | CertificateInstallationReq(outcome: Installation)
    | CableCheckReq
    | PreChargeReq
    | CurrentDemandReq
    | WeldingDetectionReq
    | SessionStopReq(pause: bool)
    | UnknownReq
    | NoV2gMessage

  const SERVICE_ID_CHARGING := 1

  /** A handled request, or a report that the cable check has or has not finished. */
  datatype Entry =
    | Handled(request: Request, event: Event, code: Code, station: Station, from: nat, to: nat, renegotiated: bool)
    | CableCheckReported(finished: bool)

  /** What does not change during a session. */
  datatype Setup = Setup(
    dc: bool, terminateOnFailed: bool, contractOffered: bool, externalOffered: bool,
    services: set<int>, modes: set<int>, tuples: set<int>)

  datatype Session = Session(
    state: nat, last: Message, current: Message, charging: bool, sessionId: int,
    setup: Setup, station: Station, open: bool, log: History<Entry>)

  function Reset(s: Session, terminated: bool): Session {
    s.(state := 0, last := Unknown, current := Unknown, charging := false,
       station := s.station.(stopHlc := false, emergency := false, terminated := terminated))
  }

  /** The session as a new connection finds it. */
  predicate Initial(s: Session) {
    && s.state == 0 && s.last == Unknown && s.current == Unknown && !s.charging && s.open && s.log == Empty
  }

  // ---------- Validation ----------

  function AllowedBoth(state: nat): set<Message> {
    match state
    case 0 => {SessionSetup}
    case 1 => {ServiceDiscovery, SessionStop}
    case 2 => {ServiceDetail, PaymentServiceSelection, SessionStop}
    case 4 => {PaymentDetails, SessionStop}
    case 5 => {Authorization, SessionStop}
    case 6 => {ChargeParameterDiscovery, SessionStop}
    case _ => {}
  }

  function AllowedAC(state: nat): set<Message> {
    match state
    case 3 => {PaymentDetails, CertificateInstallation, CertificateUpdate, SessionStop}
    case 7 => {PowerDelivery, SessionStop}
    case 8 => {ChargingStatus}
    case 9 => {ChargingStatus, PowerDelivery}
    case 10 => {MeteringReceipt}
    case 11 => {SessionStop}
    case _ => AllowedBoth(state)
  }

  function AllowedDC(state: nat): set<Message> {
    match state
    case 3 => {PaymentDetails, Authorization, CertificateInstallation, CertificateUpdate, SessionStop}
    case 7 => {CableCheck, SessionStop}
    case 8 => {PreCharge, SessionStop}
    case 9 => {PreCharge, PowerDelivery, SessionStop}
    case 10 => {CurrentDemand, PowerDelivery}
    case 11 => {CurrentDemand}
    case 12 => {MeteringReceipt}
    case 13 => {WeldingDetection, SessionStop}
    case _ => AllowedBoth(state)
  }

  function Allowed(dc: bool, state: nat): set<Message> {
    if dc then AllowedDC(state) else AllowedAC(state)
  }

  function Checked(s: Session, sid: int, own: Code): Code {
    if s.station.terminated then own
    else if s.current != SessionSetup && s.sessionId != sid then FAILED_UnknownSession
    else if s.current !in Allowed(s.setup.dc, s.state) then FAILED_SequenceError
    else if s.station.stopHlc || s.station.emergency then FAILED
    else own
  }

  function NextEvent(s: Session, sid: int, own: Code): Event {
    if s.station.terminated then TerminateConnection
    else if s.setup.terminateOnFailed && Failed(Checked(s, sid, own)) then SendAndTerminate
    else NoEvent
  }

  datatype Reply = Reply(session: Session, code: Code, event: Event)

  /** The common end of most handlers; the next state is set even when validation failed. */
  function Answer(s: Session, sid: int, own: Code, next: nat): Reply {
    Reply(s.(state := next), Checked(s, sid, own), NextEvent(s, sid, own))
  }

  // ---------- Handlers up to the charge parameters ----------

  function HandleSessionSetup(s: Session, sid: int, random: int): Reply {
    Answer(if s.sessionId == 0 then s.(sessionId := random) else s, sid, OK_NewSessionEstablished, 1)
  }

  function HandleServiceDiscovery(s: Session, sid: int): Reply {
    Answer(s, sid, OK, 2)
  }

  function HandleServiceDetail(s: Session, sid: int, service: int): Reply {
    Answer(s, sid, if service == SERVICE_ID_CHARGING || service in s.setup.services then OK
                   else FAILED_ServiceIDInvalid, 2)
  }

  /** The services are looked through up to the first that is not offered. */
  predicate OnlyOffered(offered: set<int>, services: seq<int>) {
    forall i :: 0 <= i < |services| ==> services[i] == SERVICE_ID_CHARGING || services[i] in offered
  }

  /** Whether charging is selected before the first service that is not offered. */
  predicate ChargingSelected(offered: set<int>, services: seq<int>) {
    exists i :: 0 <= i < |services| && services[i] == SERVICE_ID_CHARGING && OnlyOffered(offered, services[..i])
  }

  function SelectionCode(setup: Setup, contract: bool, services: seq<int>): Code {
    if !ChargingSelected(setup.services, services) then FAILED_NoChargeServiceSelected
    else if !OnlyOffered(setup.services, services) then FAILED_ServiceSelectionInvalid
    else if !(if contract then setup.contractOffered else setup.externalOffered) then FAILED_PaymentSelectionInvalid
    else OK
  }

  function HandlePaymentServiceSelection(s: Session, sid: int, contract: bool, services: seq<int>): Reply {
    var own := SelectionCode(s.setup, contract, services);
    if contract then Answer(s, sid, own, 3)
    else
      var r := Answer(s, sid, own, 5);
      r.(session := r.session.(station := r.session.station.(authFinished := false)))
  }

  /** Contract payment is never selected, so payment details are always refused. */
  function HandlePaymentDetails(s: Session, sid: int): Reply {
    Answer(s, sid, FAILED_CertChainError, 5)
  }

  function HandleAuthorization(s: Session, sid: int): Reply {
    Answer(s, sid, OK, if s.station.authFinished then 6 else 5)
  }

  function HandleChargeParameter(s: Session, sid: int, mode: int, acParameter: bool, dcParameter: bool): Reply {
    Answer(s, sid,
           if (if s.setup.dc then acParameter else dcParameter) then FAILED_WrongChargeParameter
           else if mode !in s.setup.modes then FAILED_WrongEnergyTransfer else OK,
           if s.station.parameterFinished then 7 else 6)
  }

  // ---------- Power delivery ----------

  predicate AfterDemand(s: Session) {
    s.last == CurrentDemand || s.last == ChargingStatus
  }

  /** An AC station closes its contactor on the way. */
  predicate ClosesContactor(s: Session, progress: Progress) {
    progress == Start && !s.setup.dc && !s.station.contactorClosed
  }

  function PowerDeliveryCode(s: Session, progress: Progress, tuple: int, contactorTimeout: bool): Code {
    if tuple !in s.setup.tuples then FAILED_TariffSelectionInvalid
    else if s.setup.dc && progress == Start && !s.station.chargeReady then FAILED_PowerDeliveryNotApplied
    else if progress == OtherProgress then FAILED
    else if ClosesContactor(s, progress) && contactorTimeout then FAILED_ContactorError
    else OK
  }

  /** Renegotiation of a DC session starts over with an unfinished cable check and no isolation level. */
  function StartRenegotiation(s: Session): Session {
    if s.setup.dc then s.(station := s.station.(isolationFinished := false, isolation := Invalid)) else s
  }

  predicate Renegotiates(s: Session, r: Request) {
    r.PowerDeliveryReq? && r.progress == Renegotiate && AfterDemand(s)
  }

  function HandlePowerDelivery(s: Session, sid: int, progress: Progress, tuple: int, contactorTimeout: bool): Reply {
    var s1 := if ClosesContactor(s, progress) then s.(charging := true)
              else if progress == Stop then s.(charging := false) else s;
    var own := PowerDeliveryCode(s, progress, tuple, contactorTimeout);
    if progress == Renegotiate && AfterDemand(s) then
      var r := Answer(s1, sid, own, 6);
      r.(session := StartRenegotiation(r.session))
    else if progress == Start && !AfterDemand(s) then Answer(s1, sid, own, if s.setup.dc then 11 else 8)
    else
      var r := Answer(s1, sid, own, if s.setup.dc then 13 else 11);
      if progress != Stop then r.(code := FAILED) else r
  }

  // ---------- The other handlers ----------

  function HandleChargingStatus(s: Session, sid: int): Reply {
    Answer(s, sid, OK, if s.station.receiptRequired then 10 else 9)
  }

  function HandleMeteringReceipt(s: Session, sid: int): Reply {
    Answer(s, sid, OK, if s.setup.dc then 10 else 9)
  }

  /** Not implemented: answered without any check. */
  function HandleCertificateUpdate(s: Session): Reply {
    Reply(s, OK, NoEvent)
  }

  /** A certificate that was obtained is passed on without any check. */
  function HandleCertificateInstallation(s: Session, sid: int, outcome: Installation): Reply {
    match outcome
    case Installed => Reply(s.(state := 4), OK, SendRecvExiMsg)
    case NotAnswered => Answer(s, sid, FAILED, 4)
    case Broken => Answer(s, sid, OK, 4)
  }

  function HandleCableCheck(s: Session, sid: int): Reply {
    Answer(s, sid, OK, if s.station.isolationFinished then 8 else 7)
  }

  function HandlePreCharge(s: Session, sid: int): Reply {
    Answer(s, sid, OK, 9)
  }

  /** A receipt is asked for with contract payment only. */
  function HandleCurrentDemand(s: Session, sid: int): Reply {
    Answer(s, sid, OK, 10)
  }

  function HandleWeldingDetection(s: Session, sid: int): Reply {
    Answer(s, sid, OK, 13)
  }

  /** Pausing is refused, and the session ends all the same. */
  function HandleSessionStop(s: Session, sid: int, pause: bool): Reply {
    var r := Answer(s, sid, OK, 14).(event := SendAndTerminate);
    if pause then r.(code := FAILED) else r
  }

  // ---------- Dispatch ----------

  function MessageOf(r: Request): Message {
    match r
    case SessionSetupReq(_) => SessionSetup
    case ServiceDiscoveryReq => ServiceDiscovery
    case ServiceDetailReq(_) => ServiceDetail
    case PaymentServiceSelectionReq(_, _) => PaymentServiceSelection
    case PaymentDetailsReq => PaymentDetails
    case AuthorizationReq => Authorization
    case ChargeParameterReq(_, _, _) => ChargeParameterDiscovery
    case PowerDeliveryReq(_, _, _) => PowerDelivery
    case ChargingStatusReq => ChargingStatus
    case MeteringReceiptReq => MeteringReceipt
    case CertificateUpdateReq => CertificateUpdate
    case CertificateInstallationReq(_) => CertificateInstallation
    case CableCheckReq => CableCheck
    case PreChargeReq => PreCharge
    case CurrentDemandReq => CurrentDemand
    case WeldingDetectionReq => WeldingDetection
    case SessionStopReq(_) => SessionStop
    case _ => Unknown
  }

  predicate Supported(r: Request) {
    !r.UnknownReq? && !r.NoV2gMessage?
  }

  /** On dispatch, before the handler runs. */
  function Dispatched(s: Session, r: Request): Session {
    s.(current := MessageOf(r), charging := s.charging || (r.CurrentDemandReq? && s.last == PowerDelivery))
  }

  function Handle(s: Session, r: Request, sid: int): Reply
    requires Supported(r)
  {
    match r
    case SessionSetupReq(random) => HandleSessionSetup(s, sid, random)
    case ServiceDiscoveryReq => HandleServiceDiscovery(s, sid)
    case ServiceDetailReq(service) => HandleServiceDetail(s, sid, service)
    case PaymentServiceSelectionReq(contract, services) => HandlePaymentServiceSelection(s, sid, contract, services)
    case PaymentDetailsReq => HandlePaymentDetails(s, sid)
    case AuthorizationReq => HandleAuthorization(s, sid)
    case ChargeParameterReq(mode, acParameter, dcParameter) =>
      HandleChargeParameter(s, sid, mode, acParameter, dcParameter)
    case PowerDeliveryReq(progress, tuple, timeout) => HandlePowerDelivery(s, sid, progress, tuple, timeout)
    case ChargingStatusReq => HandleChargingStatus(s, sid)
    case MeteringReceiptReq => HandleMeteringReceipt(s, sid)
    case CertificateUpdateReq => HandleCertificateUpdate(s)
    case CertificateInstallationReq(outcome) => HandleCertificateInstallation(s, sid, outcome)
    case CableCheckReq => HandleCableCheck(s, sid)
    case PreChargeReq => HandlePreCharge(s, sid)
    case CurrentDemandReq => HandleCurrentDemand(s, sid)
    case WeldingDetectionReq => HandleWeldingDetection(s, sid)
    case SessionStopReq(pause) => HandleSessionStop(s, sid, pause)
  }

  function Record(s: Session, r: Request, before: Session, event: Event, code: Code): Session {
    s.(last := s.current,
       log := Then(s.log, Handled(r, event, code, before.station, before.state, s.state, Renegotiates(before, r))))
  }

  function HandleRequest(s: Session, r: Request, sid: int): Reply {
    if !Supported(r) then Reply(s, OK, IgnoreMsg)
    else
      var reply := Handle(Dispatched(s, r), r, sid);
      reply.(session := Record(reply.session, r, s, reply.event, reply.code))
  }

  // ---------- Runs ----------

  /** Other threads report on the station; whether the cable check is finished has a report of its own. */
  datatype Step =
    | Report(station: Station)
    | ReportCableCheck(finished: bool)
    | Receive(request: Request, sessionId: int, sent: bool)
    | Undecodable
    | Lost

  function Reported(s: Session, station: Station): Session {
    s.(station := station.(isolationFinished := s.station.isolationFinished))
  }

  function ReportedCableCheck(s: Session, finished: bool): Session {
    s.(station := s.station.(isolationFinished := finished), log := Then(s.log, CableCheckReported(finished)))
  }

  function Apply(s: Session, step: Step): Session {
    if !s.open then s
    else
      match step
      case Report(station) => Reported(s, station)
      case ReportCableCheck(finished) => ReportedCableCheck(s, finished)
      case Receive(r, sid, sent) =>
        var reply := HandleRequest(s, r, sid);
        reply.session.(open := !Terminating(reply.event) && (reply.event == IgnoreMsg || sent))
      case Undecodable => s
      case Lost => s.(open := false)
  }

  function Run(s: Session, steps: seq<Step>): Session
    decreases |steps|
  {
    if steps == [] then s else Apply(Run(s, steps[..|steps| - 1]), steps[|steps| - 1])
  }
}
