/**
 * The ISO 15118-2 server and its receive loop, working on the context in place. Every handler is
 * proved to do what the function of the same name in IsoSpec says; serving a connection is a run.
 */
module IsoServer {
  import opened V2gTypes
  import opened Wrappers
  import opened Spec = IsoSpec
  import Sequence = IsoSequence
  import Answers = IsoAnswers
  import Authorization = IsoAuthorization

  class Context {
    const setup: Setup

    var state: nat
    var lastV2gMsg: Message
    var currentV2gMsg: Message
    var isCharging: bool
    var sessionId: int
    var station: Station

    /** The receive loop goes on. */
    ghost var open: bool
    ghost var log: History<Entry>

    ghost function Value(): Session
      reads this
    {
      Session(state, lastV2gMsg, currentV2gMsg, isCharging, sessionId, setup, station, open, log)
    }

    constructor (setup: Setup, station: Station)
      ensures Initial(Value()) && Value().setup == setup && Value().station == station
    {
      this.setup, this.station, sessionId := setup, station, 0;
      state, lastV2gMsg, currentV2gMsg, isCharging := 0, Unknown, Unknown, false;
      open, log := true, Empty;
    }

    method InitChargingState(terminated: bool)
      modifies this`state, this`lastV2gMsg, this`currentV2gMsg, this`isCharging, this`station
      ensures Value() == Reset(old(Value()), terminated)
    {
      station := station.(stopHlc := false, emergency := false, terminated := terminated);
      lastV2gMsg, currentV2gMsg := Unknown, Unknown;
      state, isCharging := 0, false;
    }

    // ---------- Validation ----------

    method ValidateState() returns (code: Code)
      ensures code == if currentV2gMsg in Allowed(setup.dc, state) then OK else FAILED_SequenceError
    {
      var allowed := if setup.dc then AllowedDC(state) else AllowedAC(state);
      code := if currentV2gMsg in allowed then OK else FAILED_SequenceError;
    }

    method ValidateResponseCode(own: Code, sid: int) returns (code: Code, event: Event)
      ensures code == Checked(Value(), sid, own) && event == NextEvent(Value(), sid, own)
    {
      code, event := own, NoEvent;
      if station.terminated {
        event := TerminateConnection;
        return;
      }
      if station.stopHlc || station.emergency {
        code := FAILED;
      }
      var sequence := ValidateState();
      if Failed(sequence) {
        code := sequence;
      }
      if currentV2gMsg != SessionSetup && sessionId != sid {
        code := FAILED_UnknownSession;
      }
      if setup.terminateOnFailed && Failed(code) {
        event := SendAndTerminate;
      }
    }

    // ---------- Handlers up to the charge parameters ----------

    method HandleSessionSetup(sid: int, random: int) returns (code: Code, event: Event)
      modifies this`sessionId, this`state
      ensures Reply(Value(), code, event) == Spec.HandleSessionSetup(old(Value()), sid, random)
    {
      if sessionId == 0 {
        sessionId := random;
      }
      code, event := ValidateResponseCode(OK_NewSessionEstablished, sid);
      state := 1;
    }

    method HandleServiceDiscovery(sid: int) returns (code: Code, event: Event)
      modifies this`state
      ensures Reply(Value(), code, event) == Spec.HandleServiceDiscovery(old(Value()), sid)
    {
      code, event := ValidateResponseCode(OK, sid);
      state := 2;
    }

    method HandleServiceDetail(sid: int, service: int) returns (code: Code, event: Event)
      modifies this`state
      ensures Reply(Value(), code, event) == Spec.HandleServiceDetail(old(Value()), sid, service)
    {
      var found := service in setup.services || service == SERVICE_ID_CHARGING;
      code, event := ValidateResponseCode(if found then OK else FAILED_ServiceIDInvalid, sid);
      state := 2;
    }

    /** Looks through the selected services up to the first that is not offered. */
    method CheckSelection(contract: bool, services: seq<int>) returns (code: Code)
      ensures code == SelectionCode(setup, contract, services)
    {
      code := if (if contract then setup.contractOffered else setup.externalOffered) then OK
              else FAILED_PaymentSelectionInvalid;
      var chargeServiceFound, selectedServicesFound, i := false, true, 0;
      while i < |services| && selectedServicesFound
        invariant 0 <= i <= |services|
        invariant selectedServicesFound <==> OnlyOffered(setup.services, services[..i])
        invariant chargeServiceFound <==>
          exists k :: 0 <= k < i && services[k] == SERVICE_ID_CHARGING && OnlyOffered(setup.services, services[..k])
      {
        assert services[..i + 1] == services[..i] + [services[i]];
        if services[i] == SERVICE_ID_CHARGING {
          chargeServiceFound := true;
        } else if services[i] !in setup.services {
          selectedServicesFound := false;
        }
        i := i + 1;
      }
      NothingBehind(setup.services, services, i);
      if !selectedServicesFound {
        code := FAILED_ServiceSelectionInvalid;
      }
      if !chargeServiceFound {
        code := FAILED_NoChargeServiceSelected;
      }
    }

    method HandlePaymentServiceSelection(sid: int, contract: bool, services: seq<int>)
      returns (code: Code, event: Event)
      modifies this`state, this`station
      ensures Reply(Value(), code, event) ==
        Spec.HandlePaymentServiceSelection(old(Value()), sid, contract, services)
    {
      code := CheckSelection(contract, services);
      code, event := ValidateResponseCode(code, sid);
      if contract {
        state := 3;
      } else {
        station := station.(authFinished := false);
        state := 5;
      }
    }

    method HandlePaymentDetails(sid: int) returns (code: Code, event: Event)
      modifies this`state
      ensures Reply(Value(), code, event) == Spec.HandlePaymentDetails(old(Value()), sid)
    {
      code, event := ValidateResponseCode(FAILED_CertChainError, sid);
      state := 5;
    }

    method HandleAuthorization(sid: int) returns (code: Code, event: Event)
      modifies this`state
      ensures Reply(Value(), code, event) == Spec.HandleAuthorization(old(Value()), sid)
    {
      code, event := ValidateResponseCode(OK, sid);
      state := if station.authFinished then 6 else 5;
    }

    method HandleChargeParameter(sid: int, mode: int, acParameter: bool, dcParameter: bool)
      returns (code: Code, event: Event)
      modifies this`state
      ensures Reply(Value(), code, event) ==
        Spec.HandleChargeParameter(old(Value()), sid, mode, acParameter, dcParameter)
    {
      code := if mode in setup.modes then OK else FAILED_WrongEnergyTransfer;
      if !setup.dc {
        if dcParameter {
          code := FAILED_WrongChargeParameter;
        }
      } else if acParameter {
        code := FAILED_WrongChargeParameter;
      }
      code, event := ValidateResponseCode(code, sid);
      state := if station.parameterFinished then 7 else 6;
    }

    // ---------- Power delivery ----------

    /** What a PowerDeliveryReq does at once, and its response code before validation. */
    method ApplyProgress(progress: Progress, tuple: int, contactorTimeout: bool) returns (code: Code)
      modifies this`isCharging
      ensures Value() == old(Value()).(charging :=
        if ClosesContactor(old(Value()), progress) then true else if progress == Stop then false else old(isCharging))
      ensures code == PowerDeliveryCode(old(Value()), progress, tuple, contactorTimeout)
    {
      code := OK;
      match progress {
        case Start =>
          if !setup.dc && !station.contactorClosed {
            isCharging := true;
            if contactorTimeout {
              code := FAILED_ContactorError;
            }
          }
        case Stop => isCharging := false;
        case Renegotiate =>
        case OtherProgress => code := FAILED;
      }
      if setup.dc && progress == Start && !station.chargeReady {
        code := FAILED_PowerDeliveryNotApplied;
      }
      if tuple !in setup.tuples {
        code := FAILED_TariffSelectionInvalid;
      }
    }

    method HandlePowerDelivery(sid: int, progress: Progress, tuple: int, contactorTimeout: bool)
      returns (code: Code, event: Event)
      modifies this`isCharging, this`state, this`station
      ensures Reply(Value(), code, event) ==
        Spec.HandlePowerDelivery(old(Value()), sid, progress, tuple, contactorTimeout)
    {
      code := ApplyProgress(progress, tuple, contactorTimeout);
      code, event := ValidateResponseCode(code, sid);
      var afterDemand := lastV2gMsg == CurrentDemand || lastV2gMsg == ChargingStatus;
      if progress == Renegotiate && afterDemand {
        state := 6;
        if setup.dc {
          station := station.(isolationFinished := false, isolation := Invalid);
        }
      } else if progress == Start && !afterDemand {
        state := if setup.dc then 11 else 8;
      } else {
        if progress != Stop {
          code := FAILED;
        }
        state := if setup.dc then 13 else 11;
      }
    }

    // ---------- The other handlers ----------

    method HandleChargingStatus(sid: int) returns (code: Code, event: Event)
      modifies this`state
      ensures Reply(Value(), code, event) == Spec.HandleChargingStatus(old(Value()), sid)
    {
      code, event := ValidateResponseCode(OK, sid);
      state := if station.receiptRequired then 10 else 9;
    }

    method HandleMeteringReceipt(sid: int) returns (code: Code, event: Event)
      modifies this`state
      ensures Reply(Value(), code, event) == Spec.HandleMeteringReceipt(old(Value()), sid)
    {
      code, event := ValidateResponseCode(OK, sid);
      state := if setup.dc then 10 else 9;
    }

    method HandleCertificateInstallation(sid: int, outcome: Installation) returns (code: Code, event: Event)
      modifies this`state
      ensures Reply(Value(), code, event) == Spec.HandleCertificateInstallation(old(Value()), sid, outcome)
    {
      if outcome == Installed {
        code, event := OK, SendRecvExiMsg;
      } else {
        code, event := ValidateResponseCode(if outcome == NotAnswered then FAILED else OK, sid);
      }
      state := 4;
    }

    method HandleCableCheck(sid: int) returns (code: Code, event: Event)
      modifies this`state
      ensures Reply(Value(), code, event) == Spec.HandleCableCheck(old(Value()), sid)
    {
      code, event := ValidateResponseCode(OK, sid);
      state := if station.isolationFinished then 8 else 7;
    }

    method HandlePreCharge(sid: int) returns (code: Code, event: Event)
      modifies this`state
      ensures Reply(Value(), code, event) == Spec.HandlePreCharge(old(Value()), sid)
    {
      code, event := ValidateResponseCode(OK, sid);
      state := 9;
    }

    method HandleCurrentDemand(sid: int) returns (code: Code, event: Event)
      modifies this`state
      ensures Reply(Value(), code, event) == Spec.HandleCurrentDemand(old(Value()), sid)
    {
      code, event := ValidateResponseCode(OK, sid);
      state := 10;
    }

    method HandleWeldingDetection(sid: int) returns (code: Code, event: Event)
      modifies this`state
      ensures Reply(Value(), code, event) == Spec.HandleWeldingDetection(old(Value()), sid)
    {
      code, event := ValidateResponseCode(OK, sid);
      state := 13;
    }

    method HandleSessionStop(sid: int, pause: bool) returns (code: Code, event: Event)
      modifies this`state
      ensures Reply(Value(), code, event) == Spec.HandleSessionStop(old(Value()), sid, pause)
    {
      code, event := ValidateResponseCode(OK, sid);
      if pause {
        code := FAILED;
      }
      state := 14;
      event := SendAndTerminate;
    }

    // ---------- Dispatch ----------

    method Dispatch(r: Request, sid: int) returns (code: Code, event: Event)
      requires Supported(r)
      modifies this`state, this`sessionId, this`station, this`isCharging
      ensures Reply(Value(), code, event) == Handle(old(Value()), r, sid)
    {
      match r
      case CurrentDemandReq => code, event := HandleCurrentDemand(sid);
      case PowerDeliveryReq(progress, tuple, timeout) =>
        code, event := HandlePowerDelivery(sid, progress, tuple, timeout);
      case ChargingStatusReq => code, event := HandleChargingStatus(sid);
      case MeteringReceiptReq => code, event := HandleMeteringReceipt(sid);
      case CertificateUpdateReq => code, event := OK, NoEvent;
      case CertificateInstallationReq(outcome) => code, event := HandleCertificateInstallation(sid, outcome);
      case CableCheckReq => code, event := HandleCableCheck(sid);
      case PreChargeReq => code, event := HandlePreCharge(sid);
      case WeldingDetectionReq => code, event := HandleWeldingDetection(sid);
      case SessionStopReq(pause) => code, event := HandleSessionStop(sid, pause);
      case SessionSetupReq(random) => code, event := HandleSessionSetup(sid, random);
      case ServiceDiscoveryReq => code, event := HandleServiceDiscovery(sid);
      case ServiceDetailReq(service) => code, event := HandleServiceDetail(sid, service);
      case PaymentServiceSelectionReq(contract, services) =>
        code, event := HandlePaymentServiceSelection(sid, contract, services);
      case PaymentDetailsReq => code, event := HandlePaymentDetails(sid);
      case AuthorizationReq => code, event := HandleAuthorization(sid);
      case ChargeParameterReq(mode, ac, dc) => code, event := HandleChargeParameter(sid, mode, ac, dc);
    }

    method BeginRequest(r: Request)
      requires Supported(r)
      modifies this`isCharging, this`currentV2gMsg
      ensures Value() == Dispatched(old(Value()), r)
    {
      if r.CurrentDemandReq? && lastV2gMsg == PowerDelivery {
        isCharging := true;
      }
      currentV2gMsg := MessageOf(r);
    }

    method EndRequest(r: Request, ghost before: Session, event: Event, code: Code)
      modifies this`lastV2gMsg, this`log
      ensures Value() == Record(old(Value()), r, before, event, code)
    {
      log := Then(log, Handled(r, event, code, before.station, before.state, state, Renegotiates(before, r)));
      lastV2gMsg := currentV2gMsg;
    }

    method HandleRequest(r: Request, sid: int) returns (code: Code, event: Event)
      modifies this`state, this`sessionId, this`station, this`isCharging, this`currentV2gMsg, this`lastV2gMsg, this`log
      ensures Reply(Value(), code, event) == Spec.HandleRequest(old(Value()), r, sid)
      ensures code == Answers.CodeOf(old(Value()), r, sid) && event == Answers.EventOf(old(Value()), r, sid)
      ensures Supported(r) && !r.CertificateUpdateReq? ==>
        Allowed(setup.dc, state) == Answers.Followers(old(Value()), r)
    {
      AnswersAre(Value(), r, sid);
      if !Supported(r) {
        return OK, IgnoreMsg;
      }
      ghost var before := Value();
      BeginRequest(r);
      code, event := Dispatch(r, sid);
      EndRequest(r, before, event, code);
    }

    static lemma AnswersAre(s: Session, r: Request, sid: int)
      ensures var reply := Spec.HandleRequest(s, r, sid);
        && reply.code == Answers.CodeOf(s, r, sid) && reply.event == Answers.EventOf(s, r, sid)
        && (Supported(r) && !r.CertificateUpdateReq? ==>
              Allowed(reply.session.setup.dc, reply.session.state) == Answers.Followers(s, r))
    {
      Answers.AnswerExactly(s, r, sid);
      Sequence.SetupStays(s, r, sid);
      if Supported(r) && !r.CertificateUpdateReq? {
        Answers.FollowersExactly(s, r, sid);
      }
    }

    // ---------- The receive loop ----------

    method CableCheckFinished(finished: bool)
      modifies this`station, this`log
      ensures Value() == ReportedCableCheck(old(Value()), finished)
    {
      station := station.(isolationFinished := finished);
      log := Then(log, CableCheckReported(finished));
    }

    /** One turn of the loop: rv is nonzero when reading or sending failed. */
    method ServeOne(step: Step) returns (rv: int, stop: bool)
      requires open
      modifies this
      ensures Value() == Apply(old(Value()), step)
      ensures open <==> rv == 0 && !stop
    {
      rv, stop := 0, false;
      match step {
        case Report(reported) => station := reported.(isolationFinished := station.isolationFinished);
        case ReportCableCheck(finished) => CableCheckFinished(finished);
        case Undecodable =>
        case Lost => rv := -1;
        case Receive(r, sid, sent) =>
          var code, event := HandleRequest(r, sid);
          match event {
            case SendAndTerminate =>
              stop := true;
              rv := if sent then 0 else -1;
            case NoEvent => rv := if sent then 0 else -1;
            case SendRecvExiMsg => rv := if sent then 0 else -1;
            case IgnoreMsg =>
            case TerminateConnection => stop := true;
          }
      }
      open := rv == 0 && !stop;
    }

    method Serve(inbox: seq<Step>)
      requires open
      modifies this
      ensures Value() == Run(old(Value()), inbox)
    {
      var rv, stop, i := 0, false, 0;
      while i < |inbox| && rv == 0 && !stop
        invariant 0 <= i <= |inbox| && (open <==> rv == 0 && !stop)
        invariant Value() == Run(old(Value()), inbox[..i])
      {
        rv, stop := ServeOne(inbox[i]);
        assert inbox[..i + 1][..i] == inbox[..i];
        i := i + 1;
      }
      RunStops(old(Value()), inbox, i);
      assert inbox[..|inbox|] == inbox;
    }

    /** A connection from its first request to its end: a run from the initial state, and a reset context. */
    method HandleConnection(inbox: seq<Step>)
      modifies this
      ensures log == Run(Reset(old(Value()), false).(open := true, log := Empty), inbox).log
      ensures setup.terminateOnFailed ==> Sequence.Sound(setup.dc, log) && Authorization.AllLed(log)
      ensures state == 0 && !isCharging && lastV2gMsg == Unknown && station.terminated
    {
      InitChargingState(false);
      open, log := true, Empty;
      ghost var s := Value();
      Serve(inbox);
      if setup.terminateOnFailed {
        Sequence.RunKeepsInv(s, inbox);
        Authorization.RunIsLed(s, inbox);
      }
      InitChargingState(true);
    }
  }

  /** Services behind the first one that is not offered make no difference. */
  lemma NothingBehind(offered: set<int>, services: seq<int>, i: nat)
    requires i <= |services| && (i == |services| || !OnlyOffered(offered, services[..i]))
    ensures OnlyOffered(offered, services) <==> OnlyOffered(offered, services[..i])
    ensures ChargingSelected(offered, services) <==>
      exists k :: 0 <= k < i && services[k] == SERVICE_ID_CHARGING && OnlyOffered(offered, services[..k])
  {
    if i == |services| {
      assert services[..i] == services;
    } else {
      forall k | i <= k <= |services| ensures !OnlyOffered(offered, services[..k]) {
        var bad :| 0 <= bad < i && services[bad] != SERVICE_ID_CHARGING && services[bad] !in offered;
        assert services[..k][bad] == services[bad];
      }
      assert services[..|services|] == services;
    }
  }

  /** Once closed, a connection makes nothing of what follows. */
  lemma {:induction false} RunStops(s: Session, steps: seq<Step>, i: nat)
    requires i <= |steps| && (i == |steps| || !Run(s, steps[..i]).open)
    ensures Run(s, steps) == Run(s, steps[..i])
    decreases |steps|
  {
    if i == |steps| {
      assert steps[..i] == steps;
    } else {
      var init := steps[..|steps| - 1];
      assert init[..i] == steps[..i];
      RunStops(s, init, i);
    }
  }
}
