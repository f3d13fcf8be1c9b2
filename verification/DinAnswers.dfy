/**
 * What the DIN 70121 server makes of any request in any session, message by message and without the numbers of its
 * states: the response code, what becomes of the connection, what is expected next, and what is remembered.
 */
module DinAnswers {
  import opened DinSpec
  import opened V2gTypes
  import opened Wrappers

  // ---------- Response codes ----------

  /** What the request itself leads to when nothing else is wrong. */
  function OwnCode(s: Session, r: Request): Code {
    match r
    case SessionSetupReq(_) => OK_NewSessionEstablished
    case PaymentSelectionReq(externalPayment, services) =>
      if services != [s.serviceId] then FAILED_ServiceSelectionInvalid
      else if !externalPayment then FAILED_PaymentSelectionInvalid
      else OK
    case ChargeParameterReq(transfer, acParameter) =>
      if acParameter then FAILED_WrongChargeParameter
      else if transfer != s.transfer || (transfer != DCCore && transfer != DCExtended) then FAILED_WrongEnergyTransfer
      else OK
    case PowerDeliveryReq(ready, tuple) =>
      if ready == 1 && (s.station.emergency || !s.station.chargeReady) then FAILED_PowerDeliveryNotApplied
      else if tuple != None && tuple != Some(1) then FAILED_TariffSelectionInvalid
      else OK
    case _ => OK
  }

  /** The first of outside errors, wrong session and wrong sequence, or else the request's own code. */
  function ValidatedCode(s: Session, r: Request, sid: int): Code {
    if s.station.terminated then OwnCode(s, r)
    else if !r.SessionSetupReq? && s.sessionId != sid then FAILED_UnknownSession
    else if MessageOf(r) !in Allowed(s.state) then FAILED_SequenceError
    else if s.station.stopHlc || s.station.emergency then FAILED
    else OwnCode(s, r)
  }

  /** The car says it is ready although current was demanded last. */
  predicate ReadyAgain(s: Session, r: Request) {
    r.PowerDeliveryReq? && r.ready == 1 && s.last == CurrentDemand
  }

  function CodeOf(s: Session, r: Request, sid: int): Code {
    if !Supported(r) then OK else if ReadyAgain(s, r) then FAILED else ValidatedCode(s, r, sid)
  }

  /** What becomes of the connection. */
  function EventOf(s: Session, r: Request, sid: int): Event {
    if !Supported(r) then IgnoreMsg
    else if r.SessionStopReq? || ReadyAgain(s, r) then SendAndTerminate
    else if s.station.terminated then TerminateConnection
    else if s.terminateOnFailed && Failed(ValidatedCode(s, r, sid)) then SendAndTerminate
    else NoEvent
  }

  /** What validation leads to, for a handler that goes on with session d. */
  lemma ChecksAreValidation(s: Session, d: Session, r: Request, sid: int)
    requires Supported(r) && d.current == MessageOf(r) && d.state == s.state
    requires d.station == s.station && d.terminateOnFailed == s.terminateOnFailed
    requires r.SessionSetupReq? || d.sessionId == s.sessionId
    ensures Checked(d, sid, OwnCode(s, r)) == ValidatedCode(s, r, sid)
    ensures NextEvent(d, sid, OwnCode(s, r)) ==
      if s.station.terminated then TerminateConnection
      else if s.terminateOnFailed && Failed(ValidatedCode(s, r, sid)) then SendAndTerminate
      else NoEvent
  {
    assert MessageOf(r) == SessionSetup <==> r.SessionSetupReq?;
  }

  lemma EarlyAnswered(s: Session, r: Request, sid: int)
    requires r.SessionSetupReq? || r.ServiceDiscoveryReq?
    ensures HandleRequest(s, r, sid).code == CodeOf(s, r, sid) && HandleRequest(s, r, sid).event == EventOf(s, r, sid)
  {
    var d := Dispatched(s, r);
    if r.SessionSetupReq? {
      ChecksAreValidation(s, if d.sessionId == 0 then d.(sessionId := r.random) else d, r, sid);
    } else {
      ChecksAreValidation(s, if d.transfer.OtherTransfer? then d.(transfer := DCExtended) else d, r, sid);
    }
  }

  lemma DeliveryAnswered(s: Session, r: Request, sid: int)
    requires r.PowerDeliveryReq?
    ensures HandleRequest(s, r, sid).code == CodeOf(s, r, sid) && HandleRequest(s, r, sid).event == EventOf(s, r, sid)
  {
    var d := Dispatched(s, r);
    ChecksAreValidation(s, if r.ready == 0 then d.(charging := false) else d, r, sid);
    assert r.tuple.ValueOr(SA_SCHEDULE_TUPLE_ID) != SA_SCHEDULE_TUPLE_ID <==> r.tuple != None && r.tuple != Some(1);
  }

  lemma OtherAnswered(s: Session, r: Request, sid: int)
    requires Supported(r) && !r.SessionSetupReq? && !r.ServiceDiscoveryReq? && !r.PowerDeliveryReq?
    ensures HandleRequest(s, r, sid).code == CodeOf(s, r, sid) && HandleRequest(s, r, sid).event == EventOf(s, r, sid)
  {
    ChecksAreValidation(s, Dispatched(s, r), r, sid);
  }

  /** The response code of every request, and what becomes of the connection. */
  lemma AnswerExactly(s: Session, r: Request, sid: int)
    ensures HandleRequest(s, r, sid).code == CodeOf(s, r, sid)
    ensures HandleRequest(s, r, sid).event == EventOf(s, r, sid)
  {
    if r.SessionSetupReq? || r.ServiceDiscoveryReq? {
      EarlyAnswered(s, r, sid);
    } else if r.PowerDeliveryReq? {
      DeliveryAnswered(s, r, sid);
    } else if Supported(r) {
      OtherAnswered(s, r, sid);
    }
  }

  // ---------- What is expected next ----------

  /** The cable check has finished with a usable isolation level, and the station is ready. */
  predicate CheckPassed(st: Station) {
    && st.isolationFinished && st.isolationUsed && st.isolationReady && !st.emergency
    && (st.isolation == Valid || st.isolation == Warning)
  }

  /** The requests that are expected after a request, whether it was answered well or not. */
  function Followers(s: Session, r: Request): set<Message> {
    match r
    case SessionSetupReq(_) => {ServiceDiscovery, SessionStop}
    case ServiceDiscoveryReq => {PaymentServiceSelection, SessionStop}
    case PaymentSelectionReq(_, _) => {Authorization, SessionStop}
    case ContractAuthenticationReq =>
      {if s.station.authFinished then ChargeParameterDiscovery else Authorization, SessionStop}
    case ChargeParameterReq(_, _) =>
      {if s.station.parameterFinished then CableCheck else ChargeParameterDiscovery, SessionStop}
    case CableCheckReq => {if CheckPassed(s.station) then PreCharge else CableCheck, SessionStop}
    case PreChargeReq => {PreCharge, PowerDelivery, SessionStop}
    case PowerDeliveryReq(ready, _) =>
      if ready == 1 && s.last != CurrentDemand then {CurrentDemand} else {WeldingDetection, SessionStop}
    case CurrentDemandReq => {CurrentDemand, PowerDelivery}
    case WeldingDetectionReq => {WeldingDetection, SessionStop}
    case _ => {}
  }

  /** What the table expects after a request is what the message sequence says. */
  lemma FollowersExactly(s: Session, r: Request, sid: int)
    requires Supported(r)
    ensures Allowed(HandleRequest(s, r, sid).session.state) == Followers(s, r)
  {
  }

  /** A new connection is reset but for the station's other reports and the number of the session. */
  lemma ResetExactly(s: Session)
    ensures var t := Reset(s, false).(open := true, log := Empty);
      && Initial(t) && t.sessionId == s.sessionId && t.terminateOnFailed == s.terminateOnFailed
      && t.station == s.station.(stopHlc := false, emergency := false, terminated := false)
  {
  }

  /** A new session waits for its setup and nothing else. */
  lemma SetupComesFirst(s: Session)
    requires Initial(s)
    ensures Allowed(s.state) == {SessionSetup}
  {
  }

  // ---------- What is remembered ----------

  /** Charging begins with the first demand after power delivery and ends with readiness 0. */
  predicate ChargingAfter(s: Session, r: Request) {
    if r.CurrentDemandReq? && s.last == PowerDelivery then true
    else s.charging && !(r.PowerDeliveryReq? && r.ready == 0)
  }

  /** The session after a request: its number is chosen once, and the request is the last message. */
  predicate RemembersAfter(s: Session, r: Request, t: Session) {
    && t.last == t.current == MessageOf(r)
    && t.sessionId == (if r.SessionSetupReq? && s.sessionId == 0 then r.random else s.sessionId)
    && t.transfer == (if r.ServiceDiscoveryReq? && s.transfer.OtherTransfer? then DCExtended else s.transfer)
    && (t.charging <==> ChargingAfter(s, r)) && t.station == s.station && t.serviceId == s.serviceId
    && t.terminateOnFailed == s.terminateOnFailed && t.open == s.open
    && t.log.Then? && t.log.earlier == s.log
  }

  lemma RemembersExactly(s: Session, r: Request, sid: int)
    ensures var t := HandleRequest(s, r, sid).session;
      if Supported(r) then RemembersAfter(s, r, t) else t == s.(current := t.current)
  {
    if r.PowerDeliveryReq? {
      DeliveryRemembers(s, r, sid);
    } else if r.SessionSetupReq? || r.ServiceDiscoveryReq? {
      EarlyRemembers(s, r, sid);
    }
  }

  lemma DeliveryRemembers(s: Session, r: Request, sid: int)
    requires r.PowerDeliveryReq?
    ensures RemembersAfter(s, r, HandleRequest(s, r, sid).session)
  {
  }

  lemma EarlyRemembers(s: Session, r: Request, sid: int)
    requires r.SessionSetupReq? || r.ServiceDiscoveryReq?
    ensures RemembersAfter(s, r, HandleRequest(s, r, sid).session)
  {
  }

  /** What is recorded of a request. */
  lemma RecordedExactly(s: Session, r: Request, sid: int)
    requires Supported(r)
    ensures var reply := HandleRequest(s, r, sid);
      reply.session.log == Then(s.log, Entry(r, reply.event, s.station, s.state, reply.session.state,
                                             r.CurrentDemandReq? && s.last == PowerDelivery))
  {
  }

  /** After a request a connection is open exactly if it was, the request did not end it, and the answer was sent. */
  lemma OpenExactly(s: Session, r: Request, sid: int, sent: bool)
    ensures Apply(s, Receive(r, sid, sent)).open <==>
      && s.open && (!Supported(r) || sent)
      && EventOf(s, r, sid) != TerminateConnection && EventOf(s, r, sid) != SendAndTerminate
  {
    AnswerExactly(s, r, sid);
  }
}
