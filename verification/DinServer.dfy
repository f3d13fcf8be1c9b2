/**
 * The DIN 70121 server and its receive loop, working on the context in place. Every handler is proved
 * to do what the function of the same name in DinSpec says; serving a connection is then a run.
 */
module DinServer {
  import opened V2gTypes
  import opened Wrappers
  import opened Spec = DinSpec
  import Sequence = DinSequence
  import Answers = DinAnswers

  class Context {
    const serviceId: int
    const terminateOnFailed: bool

    var state: nat
    var lastV2gMsg: Message
    var currentV2gMsg: Message
    var isCharging: bool
    var sessionId: int
    var transfer: Transfer
    var station: Station

    /** The receive loop goes on. */
    ghost var open: bool
    ghost var log: History<Entry>

    ghost function Value(): Session
      reads this
    {
      Session(state, lastV2gMsg, currentV2gMsg, isCharging, sessionId, transfer, serviceId, terminateOnFailed,
              station, open, log)
    }

    constructor (serviceId: int, terminateOnFailed: bool, transfer: Transfer, station: Station)
      ensures Initial(Value()) && Value().terminateOnFailed == terminateOnFailed && Value().station == station
    {
      this.serviceId, this.terminateOnFailed := serviceId, terminateOnFailed;
      this.transfer, this.station, sessionId := transfer, station, 0;
      state, lastV2gMsg, currentV2gMsg, isCharging := 0, Unknown, Unknown, false;
      open, log := true, Empty;
    }

    method InitChargingState(terminated: bool)
      modifies this`state, this`lastV2gMsg, this`currentV2gMsg, this`isCharging, this`station
      ensures Value() == Reset(old(Value()), terminated)
    {
      station := station.(stopHlc := false, emergency := false, terminated := terminated);
      lastV2gMsg, currentV2gMsg := Unknown, Unknown;
      state, isCharging := 0, false;
    }

    // ---------- Validation ----------

    method ValidateState() returns (code: Code)
      ensures code == if currentV2gMsg in Allowed(state) then OK else FAILED_SequenceError
    {
      code := if currentV2gMsg in Allowed(state) then OK else FAILED_SequenceError;
    }

    method ValidateResponseCode(own: Code, sid: int) returns (code: Code, event: Event)
      ensures code == Checked(Value(), sid, own) && event == NextEvent(Value(), sid, own)
    {
      code, event := own, NoEvent;
      if station.terminated {
        event := TerminateConnection;
        return;
      }
      if station.stopHlc || station.emergency {
        code := FAILED;
      }
      var sequence := ValidateState();
      if Failed(sequence) {
        code := sequence;
      }
      if currentV2gMsg != SessionSetup && sessionId != sid {
        code := FAILED_UnknownSession;
      }
      if terminateOnFailed && Failed(code) {
        event := SendAndTerminate;
      }
    }

    // ---------- Handlers ----------

    method HandleSessionSetup(sid: int, random: int) returns (code: Code, event: Event)
      modifies this`sessionId, this`state
      ensures Reply(Value(), code, event) == Spec.HandleSessionSetup(old(Value()), sid, random)
    {
      if sessionId == 0 {
        sessionId := random;
      }
      code, event := ValidateResponseCode(OK_NewSessionEstablished, sid);
      state := 1;
    }

    method HandleServiceDiscovery(sid: int) returns (code: Code, event: Event)
      modifies this`transfer, this`state
      ensures Reply(Value(), code, event) == Spec.HandleServiceDiscovery(old(Value()), sid)
    {
      if transfer != DCCore && transfer != DCExtended {
        transfer := DCExtended;
      }
      code, event := ValidateResponseCode(OK, sid);
      state := 2;
    }

    method HandlePaymentSelection(sid: int, externalPayment: bool, services: seq<int>)
      returns (code: Code, event: Event)
      modifies this`state
      ensures Reply(Value(), code, event) ==
        Spec.HandlePaymentSelection(old(Value()), sid, externalPayment, services)
    {
      code := OK;
      if !externalPayment {
        code := FAILED_PaymentSelectionInvalid;
      }
      if !(|services| == 1 && services[0] == serviceId) {
        code := FAILED_ServiceSelectionInvalid;
      }
      code, event := ValidateResponseCode(code, sid);
      state := 3;
    }

    method HandleContractAuthentication(sid: int) returns (code: Code, event: Event)
      modifies this`state
      ensures Reply(Value(), code, event) == Spec.HandleContractAuthentication(old(Value()), sid)
    {
      code, event := ValidateResponseCode(OK, sid);
      state := if station.authFinished then 4 else 3;
    }

    method HandleChargeParameter(sid: int, requested: Transfer, acParameter: bool) returns (code: Code, event: Event)
      modifies this`state
      ensures Reply(Value(), code, event) == Spec.HandleChargeParameter(old(Value()), sid, requested, acParameter)
    {
      code := OK;
      if (requested != DCCore && requested != DCExtended) || transfer != requested {
        code := FAILED_WrongEnergyTransfer;
      }
      if acParameter {
        code := FAILED_WrongChargeParameter;
      }
      code, event := ValidateResponseCode(code, sid);
      state := if station.parameterFinished then 5 else 4;
    }

    method HandleCableCheck(sid: int) returns (code: Code, event: Event)
      modifies this`state
      ensures Reply(Value(), code, event) == Spec.HandleCableCheck(old(Value()), sid)
    {
      code, event := ValidateResponseCode(OK, sid);
      state := if CableCheckPassed(station) then 6 else 5;
    }

    method HandlePreCharge(sid: int) returns (code: Code, event: Event)
      modifies this`state
      ensures Reply(Value(), code, event) == Spec.HandlePreCharge(old(Value()), sid)
    {
      code, event := ValidateResponseCode(OK, sid);
      state := 7;
    }

    method HandlePowerDelivery(sid: int, ready: int, tuple: Option<int>) returns (code: Code, event: Event)
      modifies this`isCharging, this`state
      ensures Reply(Value(), code, event) == Spec.HandlePowerDelivery(old(Value()), sid, ready, tuple)
    {
      if ready == 0 {
        isCharging := false;
      }
      code := OK;
      if tuple.Some? && tuple.value != SA_SCHEDULE_TUPLE_ID {
        code := FAILED_TariffSelectionInvalid;
      }
      if ready == 1 && (station.emergency || !station.chargeReady) {
        code := FAILED_PowerDeliveryNotApplied;
      }
      code, event := ValidateResponseCode(code, sid);
      if ready == 1 && lastV2gMsg != CurrentDemand {
        state := 8;
      } else {
        if ready == 1 {
          code, event := FAILED, SendAndTerminate;
        }
        state := 10;
      }
    }

    method HandleCurrentDemand(sid: int) returns (code: Code, event: Event)
      modifies this`state
      ensures Reply(Value(), code, event) == Spec.HandleCurrentDemand(old(Value()), sid)
    {
      code, event := ValidateResponseCode(OK, sid);
      state := 9;
    }

    method HandleWeldingDetection(sid: int) returns (code: Code, event: Event)
      modifies this`state
      ensures Reply(Value(), code, event) == Spec.HandleWeldingDetection(old(Value()), sid)
    {
      code, event := ValidateResponseCode(OK, sid);
      state := 10;
    }

    method HandleSessionStop(sid: int) returns (code: Code, event: Event)
      modifies this`state
      ensures Reply(Value(), code, event) == Spec.HandleSessionStop(old(Value()), sid)
    {
      code, event := ValidateResponseCode(OK, sid);
      state := 12;
      event := SendAndTerminate;
    }

    // ---------- Dispatch ----------

    method Dispatch(r: Request, sid: int) returns (code: Code, event: Event)
      requires Supported(r)
      modifies this`state, this`sessionId, this`transfer, this`isCharging
      ensures Reply(Value(), code, event) == Handled(old(Value()), r, sid)
    {
      match r
      case CurrentDemandReq => code, event := HandleCurrentDemand(sid);
      case SessionSetupReq(random) => code, event := HandleSessionSetup(sid, random);
      case ServiceDiscoveryReq => code, event := HandleServiceDiscovery(sid);
      case PaymentSelectionReq(external, services) => code, event := HandlePaymentSelection(sid, external, services);
      case ContractAuthenticationReq => code, event := HandleContractAuthentication(sid);
      case ChargeParameterReq(requested, acParameter) =>
        code, event := HandleChargeParameter(sid, requested, acParameter);
      case CableCheckReq => code, event := HandleCableCheck(sid);
      case PreChargeReq => code, event := HandlePreCharge(sid);
      case PowerDeliveryReq(ready, tuple) => code, event := HandlePowerDelivery(sid, ready, tuple);
      case WeldingDetectionReq => code, event := HandleWeldingDetection(sid);
      case SessionStopReq => code, event := HandleSessionStop(sid);
    }

    method BeginRequest(r: Request)
      requires Supported(r)
      modifies this`isCharging, this`currentV2gMsg
      ensures Value() == Dispatched(old(Value()), r)
    {
      if r.CurrentDemandReq? && lastV2gMsg == PowerDelivery {
        isCharging := true;
      }
      currentV2gMsg := MessageOf(r);
    }

    method EndRequest(r: Request, ghost before: Session, event: Event)
      modifies this`lastV2gMsg, this`log
      ensures Value() == Record(old(Value()), r, before, event)
    {
      log := Then(log, Entry(r, event, before.station, before.state, state, Starts(before, r)));
      lastV2gMsg := currentV2gMsg;
    }

    method HandleRequest(r: Request, sid: int) returns (code: Code, event: Event)
      modifies this`state, this`sessionId, this`transfer, this`isCharging, this`currentV2gMsg, this`lastV2gMsg, this`log
      ensures Reply(Value(), code, event) == Spec.HandleRequest(old(Value()), r, sid)
      ensures code == Answers.CodeOf(old(Value()), r, sid) && event == Answers.EventOf(old(Value()), r, sid)
      ensures Supported(r) ==> Allowed(state) == Answers.Followers(old(Value()), r)
    {
      AnswersAre(Value(), r, sid);
      if !Supported(r) {
        if r.UnsupportedReq? {
          currentV2gMsg := Unknown;
        }
        return OK, IgnoreMsg;
      }
      ghost var before := Value();
      BeginRequest(r);
      code, event := Dispatch(r, sid);
      EndRequest(r, before, event);
    }

    static lemma AnswersAre(s: Session, r: Request, sid: int)
      ensures var reply := Spec.HandleRequest(s, r, sid);
        && reply.code == Answers.CodeOf(s, r, sid) && reply.event == Answers.EventOf(s, r, sid)
        && (Supported(r) ==> Allowed(reply.session.state) == Answers.Followers(s, r))
    {
      Answers.AnswerExactly(s, r, sid);
      if Supported(r) {
        Answers.FollowersExactly(s, r, sid);
      }
    }

    // ---------- The receive loop ----------

    /** One turn of the loop: rv is nonzero when reading or sending failed. */
    method ServeOne(step: Step) returns (rv: int, stop: bool)
      requires open
      modifies this
      ensures Value() == Apply(old(Value()), step)
      ensures open <==> rv == 0 && !stop
    {
      rv, stop := 0, false;
      match step {
        case Report(reported) => station := reported;
        case Undecodable =>
        case Lost => rv := -1;
        case Receive(r, sid, sent) =>
          var code, event := HandleRequest(r, sid);
          match event {
            case SendAndTerminate =>
              stop := true;
              rv := if sent then 0 else -1;
            case NoEvent => rv := if sent then 0 else -1;
            case SendRecvExiMsg => rv := if sent then 0 else -1;
            case IgnoreMsg =>
            case TerminateConnection => stop := true;
          }
      }
      open := rv == 0 && !stop;
    }

    method Serve(inbox: seq<Step>)
      requires open
      modifies this
      ensures Value() == Run(old(Value()), inbox)
    {
      var rv, stop, i := 0, false, 0;
      while i < |inbox| && rv == 0 && !stop
        invariant 0 <= i <= |inbox| && (open <==> rv == 0 && !stop)
        invariant Value() == Run(old(Value()), inbox[..i])
      {
        rv, stop := ServeOne(inbox[i]);
        assert inbox[..i + 1][..i] == inbox[..i];
        i := i + 1;
      }
      RunStops(old(Value()), inbox, i);
      assert inbox[..|inbox|] == inbox;
    }

    /** A connection from its first request to its end: a run from the initial state, and a reset context. */
    method HandleConnection(inbox: seq<Step>)
      modifies this
      ensures log == Run(Reset(old(Value()), false).(open := true, log := Empty), inbox).log
      ensures terminateOnFailed ==> Sequence.Prepared(log) && Sequence.Rising(log)
      ensures state == 0 && !isCharging && lastV2gMsg == Unknown && station.terminated
    {
      InitChargingState(false);
      open, log := true, Empty;
      ghost var s := Value();
      Serve(inbox);
      if terminateOnFailed {
        Sequence.RunKeepsInv(s, inbox);
        Sequence.RunRises(s, inbox);
      }
      InitChargingState(true);
    }
  }

  /** Once closed, a connection makes nothing of what follows. */
  lemma {:induction false} RunStops(s: Session, steps: seq<Step>, i: nat)
    requires i <= |steps| && (i == |steps| || !Run(s, steps[..i]).open)
    ensures Run(s, steps) == Run(s, steps[..i])
    decreases |steps|
  {
    if i == |steps| {
      assert steps[..i] == steps;
    } else {
      var init := steps[..|steps| - 1];
      assert init[..i] == steps[..i];
      RunStops(s, init, i);
    }
  }
}
