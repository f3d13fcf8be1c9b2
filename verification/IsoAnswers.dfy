/**
 * What the ISO 15118-2 server makes of any request in any session, message by message and without the numbers of
 * its states: the response code, what becomes of the connection, what is expected next, and what is remembered.
 */
module IsoAnswers {
  import opened IsoSpec
  import opened V2gTypes
  import opened Wrappers
  import opened IsoSequence

  // ---------- Response codes ----------

  /** A selection of services: charging among them, all on offer, and a payment on offer. */
  predicate SelectionFine(setup: Setup, contract: bool, services: seq<int>) {
    && 1 in services
    && (forall i :: 0 <= i < |services| ==> services[i] == 1 || services[i] in setup.services)
    && (if contract then setup.contractOffered else setup.externalOffered)
  }

  /** The services before a position are on offer. */
  predicate OfferedUpTo(offered: set<int>, services: seq<int>, n: nat)
    requires n <= |services|
  {
    forall k :: 0 <= k < n ==> services[k] == 1 || services[k] in offered
  }

  predicate DemandedLast(s: Session) {
    s.last == CurrentDemand || s.last == ChargingStatus
  }

  /** What the request itself leads to when nothing else is wrong; Selection stands for the selection's own codes. */
  function OwnCode(s: Session, r: Request): Code {
    match r
    case SessionSetupReq(_) => OK_NewSessionEstablished
    case ServiceDetailReq(service) =>
      if service == 1 || service in s.setup.services then OK else FAILED_ServiceIDInvalid
    case PaymentServiceSelectionReq(contract, services) => SelectionCode(s.setup, contract, services)
    case PaymentDetailsReq => FAILED_CertChainError
    case ChargeParameterReq(mode, acParameter, dcParameter) =>
      if (s.setup.dc && acParameter) || (!s.setup.dc && dcParameter) then FAILED_WrongChargeParameter
      else if mode !in s.setup.modes then FAILED_WrongEnergyTransfer
      else OK
    case PowerDeliveryReq(progress, tuple, contactorTimeout) =>
      if tuple !in s.setup.tuples then FAILED_TariffSelectionInvalid
      else if progress == Start && s.setup.dc && !s.station.chargeReady then FAILED_PowerDeliveryNotApplied
      else if progress == OtherProgress then FAILED
      else if progress == Start && !s.setup.dc && !s.station.contactorClosed && contactorTimeout
      then FAILED_ContactorError
      else OK
    case CertificateInstallationReq(outcome) => if outcome == NotAnswered then FAILED else OK
    case _ => OK
  }

  /** The first of outside errors, wrong session and wrong sequence, or else the request's own code. */
  function ValidatedCode(s: Session, r: Request, sid: int): Code {
    if s.station.terminated then OwnCode(s, r)
    else if !r.SessionSetupReq? && s.sessionId != sid then FAILED_UnknownSession
    else if MessageOf(r) !in Allowed(s.setup.dc, s.state) then FAILED_SequenceError
    else if s.station.stopHlc || s.station.emergency then FAILED
    else OwnCode(s, r)
  }

  /** A start or a renegotiation at the wrong time, and a pause, fail whatever validation says. */
  predicate FailsAnyway(s: Session, r: Request) {
    || (r.PowerDeliveryReq? && r.progress == Start && DemandedLast(s))
    || (r.PowerDeliveryReq? && r.progress == Renegotiate && !DemandedLast(s))
    || (r.PowerDeliveryReq? && r.progress == OtherProgress)
    || (r.SessionStopReq? && r.pause)
  }

  function CodeOf(s: Session, r: Request, sid: int): Code {
    if !Supported(r) || Unchecked(r) then OK
    else if FailsAnyway(s, r) then FAILED
    else ValidatedCode(s, r, sid)
  }

  /** Selecting services is fine exactly if all are offered, charging is among them, and so is the payment. */
  lemma SelectionExactly(setup: Setup, contract: bool, services: seq<int>)
    ensures SelectionCode(setup, contract, services) == OK <==> SelectionFine(setup, contract, services)
    ensures SelectionCode(setup, contract, services) == FAILED_NoChargeServiceSelected <==>
      !exists i :: 0 <= i < |services| && services[i] == 1 && OfferedUpTo(setup.services, services, i)
    ensures SelectionCode(setup, contract, services) == FAILED_PaymentSelectionInvalid ==>
      1 in services && OfferedUpTo(setup.services, services, |services|)
  {
    forall i | 0 <= i < |services|
      ensures OnlyOffered(setup.services, services[..i]) <==> OfferedUpTo(setup.services, services, i)
    {
      assert forall k :: 0 <= k < i ==> services[..i][k] == services[k];
    }
    if 1 in services && OnlyOffered(setup.services, services) {
      var i :| 0 <= i < |services| && services[i] == 1;
      assert OnlyOffered(setup.services, services[..i]);
    }
  }

  /** What becomes of the connection. */
  function EventOf(s: Session, r: Request, sid: int): Event {
    if !Supported(r) then IgnoreMsg
    else if r.CertificateUpdateReq? then NoEvent
    else if r == CertificateInstallationReq(Installed) then SendRecvExiMsg
    else if r.SessionStopReq? then SendAndTerminate
    else if s.station.terminated then TerminateConnection
    else if s.setup.terminateOnFailed && Failed(ValidatedCode(s, r, sid)) then SendAndTerminate
    else NoEvent
  }

  /** What validation leads to, for a handler that goes on with session d. */
  lemma ChecksAreValidation(s: Session, d: Session, r: Request, sid: int)
    requires Supported(r) && d.current == MessageOf(r) && d.state == s.state
    requires d.station == s.station && d.setup == s.setup && (r.SessionSetupReq? || d.sessionId == s.sessionId)
    ensures Checked(d, sid, OwnCode(s, r)) == ValidatedCode(s, r, sid)
    ensures NextEvent(d, sid, OwnCode(s, r)) ==
      if s.station.terminated then TerminateConnection
      else if s.setup.terminateOnFailed && Failed(ValidatedCode(s, r, sid)) then SendAndTerminate
      else NoEvent
  {
    assert MessageOf(r) == SessionSetup <==> r.SessionSetupReq?;
  }

  lemma SetupAnswered(s: Session, r: Request, sid: int)
    requires r.SessionSetupReq?
    ensures HandleRequest(s, r, sid).code == CodeOf(s, r, sid) && HandleRequest(s, r, sid).event == EventOf(s, r, sid)
  {
    var d := Dispatched(s, r);
    ChecksAreValidation(s, if d.sessionId == 0 then d.(sessionId := r.random) else d, r, sid);
  }

  lemma DeliveryAnswered(s: Session, r: Request, sid: int)
    requires r.PowerDeliveryReq?
    ensures HandleRequest(s, r, sid).code == CodeOf(s, r, sid) && HandleRequest(s, r, sid).event == EventOf(s, r, sid)
  {
    var d := Dispatched(s, r);
    ChecksAreValidation(s, d.(charging := true), r, sid);
    ChecksAreValidation(s, d.(charging := false), r, sid);
    ChecksAreValidation(s, d, r, sid);
    assert PowerDeliveryCode(d, r.progress, r.tuple, r.contactorTimeout) == OwnCode(s, r);
    assert AfterDemand(d) <==> DemandedLast(s);
  }

  lemma StopAnswered(s: Session, r: Request, sid: int)
    requires r.SessionStopReq?
    ensures HandleRequest(s, r, sid).code == CodeOf(s, r, sid) && HandleRequest(s, r, sid).event == EventOf(s, r, sid)
  {
    ChecksAreValidation(s, Dispatched(s, r), r, sid);
  }

  lemma CertificateAnswered(s: Session, r: Request, sid: int)
    requires r.CertificateUpdateReq? || r.CertificateInstallationReq?
    ensures HandleRequest(s, r, sid).code == CodeOf(s, r, sid) && HandleRequest(s, r, sid).event == EventOf(s, r, sid)
  {
    ChecksAreValidation(s, Dispatched(s, r), r, sid);
  }

  lemma OtherAnswered(s: Session, r: Request, sid: int)
    requires Supported(r) && !r.SessionSetupReq? && !r.PowerDeliveryReq? && !r.SessionStopReq?
    requires !r.CertificateUpdateReq? && !r.CertificateInstallationReq?
    ensures HandleRequest(s, r, sid).code == CodeOf(s, r, sid) && HandleRequest(s, r, sid).event == EventOf(s, r, sid)
  {
    var d := Dispatched(s, r);
    ChecksAreValidation(s, d, r, sid);
    assert Handle(d, r, sid).code == Checked(d, sid, OwnCode(s, r));
    assert Handle(d, r, sid).event == NextEvent(d, sid, OwnCode(s, r));
  }

  /** The response code of every request, and what becomes of the connection. */
  lemma AnswerExactly(s: Session, r: Request, sid: int)
    ensures HandleRequest(s, r, sid).code == CodeOf(s, r, sid)
    ensures HandleRequest(s, r, sid).event == EventOf(s, r, sid)
  {
    match r
    case SessionSetupReq(_) => SetupAnswered(s, r, sid);
    case PowerDeliveryReq(_, _, _) => DeliveryAnswered(s, r, sid);
    case SessionStopReq(_) => StopAnswered(s, r, sid);
    case CertificateUpdateReq => CertificateAnswered(s, r, sid);
    case CertificateInstallationReq(_) => CertificateAnswered(s, r, sid);
    case UnknownReq =>
    case NoV2gMessage =>
    case _ => OtherAnswered(s, r, sid);
  }

  /** A request that is answered well and leaves the session open. */
  predicate WellAnswered(reply: Reply) {
    !Failed(reply.code) && !Terminating(reply.event) && reply.event != IgnoreMsg
  }

  /** What a request has to be like on its own. */
  predicate ContentFine(s: Session, r: Request) {
    match r
    case ServiceDetailReq(service) => service == 1 || service in s.setup.services
    case PaymentServiceSelectionReq(contract, services) => SelectionFine(s.setup, contract, services)
    case PaymentDetailsReq => false
    case ChargeParameterReq(mode, acParameter, dcParameter) =>
      mode in s.setup.modes && !(if s.setup.dc then acParameter else dcParameter)
    case PowerDeliveryReq(progress, tuple, contactorTimeout) =>
      && tuple in s.setup.tuples
      && (match progress
          case Start =>
            && !DemandedLast(s)
            && if s.setup.dc then s.station.chargeReady else s.station.contactorClosed || !contactorTimeout
          case Renegotiate => DemandedLast(s)
          case Stop => true
          case OtherProgress => false)
    case CertificateInstallationReq(outcome) => outcome == Broken
    case SessionStopReq(_) => false
    case _ => true
  }

  /** A checked request is answered well exactly if it is expected, in its session, undisturbed, and fine itself. */
  lemma WellAnsweredExactly(s: Session, r: Request, sid: int)
    requires s.setup.terminateOnFailed && Supported(r) && !Unchecked(r)
    ensures WellAnswered(HandleRequest(s, r, sid)) <==>
      && MessageOf(r) in Allowed(s.setup.dc, s.state) && (r.SessionSetupReq? || s.sessionId == sid)
      && !s.station.terminated && !s.station.stopHlc && !s.station.emergency
      && ContentFine(s, r)
  {
    AnswerExactly(s, r, sid);
    if r.PaymentServiceSelectionReq? {
      SelectionExactly(s.setup, r.contract, r.services);
    }
  }

  // ---------- What is expected next ----------

  /** Certificates may be asked for once contract payment was selected. */
  function AfterContract(dc: bool): set<Message> {
    if dc then {PaymentDetails, Authorization, CertificateInstallation, CertificateUpdate, SessionStop}
    else {PaymentDetails, CertificateInstallation, CertificateUpdate, SessionStop}
  }

  function AfterPowerDelivery(s: Session, progress: Progress): set<Message> {
    if progress == Start && !DemandedLast(s) then (if s.setup.dc then {CurrentDemand} else {ChargingStatus})
    else if progress == Renegotiate && DemandedLast(s) then {ChargeParameterDiscovery, SessionStop}
    else if s.setup.dc then {WeldingDetection, SessionStop}
    else {SessionStop}
  }

  /** The requests that are expected after a request, whether it was answered well or not. */
  function Followers(s: Session, r: Request): set<Message> {
    match r
    case SessionSetupReq(_) => {ServiceDiscovery, SessionStop}
    case ServiceDiscoveryReq => {ServiceDetail, PaymentServiceSelection, SessionStop}
    case ServiceDetailReq(_) => {ServiceDetail, PaymentServiceSelection, SessionStop}
    case PaymentServiceSelectionReq(contract, _) =>
      if contract then AfterContract(s.setup.dc) else {Authorization, SessionStop}
    case PaymentDetailsReq => {Authorization, SessionStop}
    case AuthorizationReq => {if s.station.authFinished then ChargeParameterDiscovery else Authorization, SessionStop}
    case ChargeParameterReq(_, _, _) =>
      {if !s.station.parameterFinished then ChargeParameterDiscovery
       else if s.setup.dc then CableCheck else PowerDelivery, SessionStop}
    case CableCheckReq =>
      if s.setup.dc then {if s.station.isolationFinished then PreCharge else CableCheck, SessionStop}
      else if s.station.isolationFinished then {ChargingStatus} else {PowerDelivery, SessionStop}
    case PreChargeReq => if s.setup.dc then {PreCharge, PowerDelivery, SessionStop} else {ChargingStatus, PowerDelivery}
    case PowerDeliveryReq(progress, _, _) => AfterPowerDelivery(s, progress)
    case CurrentDemandReq => if s.setup.dc then {CurrentDemand, PowerDelivery} else {MeteringReceipt}
    case ChargingStatusReq =>
      if s.setup.dc then (if s.station.receiptRequired then {CurrentDemand, PowerDelivery}
                          else {PreCharge, PowerDelivery, SessionStop})
      else if s.station.receiptRequired then {MeteringReceipt} else {ChargingStatus, PowerDelivery}
    case MeteringReceiptReq => if s.setup.dc then {CurrentDemand, PowerDelivery} else {ChargingStatus, PowerDelivery}
    case WeldingDetectionReq => if s.setup.dc then {WeldingDetection, SessionStop} else {}
    case CertificateInstallationReq(_) => {PaymentDetails, SessionStop}
    case _ => {}
  }

  /** What the tables expect after a request is what the message sequence says. */
  lemma FollowersExactly(s: Session, r: Request, sid: int)
    requires Supported(r) && !r.CertificateUpdateReq?
    ensures Allowed(s.setup.dc, HandleRequest(s, r, sid).session.state) == Followers(s, r)
  {
    if r.AuthorizationReq? || r.ChargeParameterReq? || r.CableCheckReq? {
      WaitingFollowers(s, r, sid);
    } else if r.PowerDeliveryReq? {
      DeliveryFollowers(s, r, sid);
    }
  }

  lemma DeliveryLeads(s: Session, r: Request, sid: int)
    requires r.PowerDeliveryReq?
    ensures HandleRequest(s, r, sid).session.state ==
      if r.progress == Renegotiate && DemandedLast(s) then 6
      else if r.progress == Start && !DemandedLast(s) then (if s.setup.dc then 11 else 8)
      else if s.setup.dc then 13
      else 11
  {
    assert AfterDemand(Dispatched(s, r)) <==> DemandedLast(s);
  }

  lemma DeliveryFollowers(s: Session, r: Request, sid: int)
    requires r.PowerDeliveryReq?
    ensures Allowed(s.setup.dc, HandleRequest(s, r, sid).session.state) == Followers(s, r)
  {
    DeliveryLeads(s, r, sid);
  }

  lemma WaitingFollowers(s: Session, r: Request, sid: int)
    requires r.AuthorizationReq? || r.ChargeParameterReq? || r.CableCheckReq?
    ensures Allowed(s.setup.dc, HandleRequest(s, r, sid).session.state) == Followers(s, r)
  {
  }

  /** A new connection is reset but for the station's other reports and the number of the session. */
  lemma ResetExactly(s: Session)
    ensures var t := Reset(s, false).(open := true, log := Empty);
      && Initial(t) && t.sessionId == s.sessionId && t.setup == s.setup
      && t.station == s.station.(stopHlc := false, emergency := false, terminated := false)
  {
  }

  /** A new session waits for its setup and nothing else. */
  lemma SetupComesFirst(s: Session)
    requires Initial(s)
    ensures Allowed(s.setup.dc, s.state) == {SessionSetup}
  {
  }

  // ---------- What is remembered ----------

  /** Charging begins with a closed contactor or the first demand after power delivery, and ends with a stop. */
  predicate ChargingAfter(s: Session, r: Request) {
    if r.CurrentDemandReq? && s.last == PowerDelivery then true
    else if r.PowerDeliveryReq? && r.progress == Start && !s.setup.dc && !s.station.contactorClosed then true
    else s.charging && !(r.PowerDeliveryReq? && r.progress == Stop)
  }

  /** External payment lets authorization start over, a renegotiation of a DC session the cable check. */
  function StationAfter(s: Session, r: Request): Station {
    if r.PaymentServiceSelectionReq? && !r.contract then s.station.(authFinished := false)
    else if r.PowerDeliveryReq? && r.progress == Renegotiate && s.setup.dc && DemandedLast(s) then
      s.station.(isolationFinished := false, isolation := Invalid)
    else s.station
  }

  /** The session after a request: its number is chosen once, and the request is the last message. */
  predicate RemembersAfter(s: Session, r: Request, t: Session) {
    && t.last == t.current == MessageOf(r)
    && t.sessionId == (if r.SessionSetupReq? && s.sessionId == 0 then r.random else s.sessionId)
    && (t.charging <==> ChargingAfter(s, r)) && t.station == StationAfter(s, r)
    && t.setup == s.setup && t.open == s.open
    && t.log.Then? && t.log.earlier == s.log
  }

  lemma RemembersExactly(s: Session, r: Request, sid: int)
    ensures var t := HandleRequest(s, r, sid).session;
      if Supported(r) then RemembersAfter(s, r, t) else t == s
  {
    if r.PowerDeliveryReq? {
      DeliveryRemembers(s, r, sid);
    }
  }

  lemma DeliveryRemembers(s: Session, r: Request, sid: int)
    requires r.PowerDeliveryReq?
    ensures RemembersAfter(s, r, HandleRequest(s, r, sid).session)
  {
  }

  /** What is recorded of a request. */
  lemma RecordedExactly(s: Session, r: Request, sid: int)
    requires Supported(r)
    ensures var reply := HandleRequest(s, r, sid);
      reply.session.log ==
        Then(s.log, Handled(r, reply.event, reply.code, s.station, s.state, reply.session.state,
                            r.PowerDeliveryReq? && r.progress == Renegotiate && DemandedLast(s)))
  {
    RemembersExactly(s, r, sid);
  }

  /** After a request a connection is open exactly if it was, the request did not end it, and the answer was sent. */
  lemma OpenExactly(s: Session, r: Request, sid: int, sent: bool)
    ensures Apply(s, Receive(r, sid, sent)).open <==>
      && s.open && (!Supported(r) || sent)
      && EventOf(s, r, sid) != TerminateConnection && EventOf(s, r, sid) != SendAndTerminate
  {
    AnswerExactly(s, r, sid);
  }
}
