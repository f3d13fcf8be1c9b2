/**
 * The charger as an object: its methods update the fields in place, and each is proved to do to the
 * state what the function of the same name in ChargerSpec says. A whole run of the object is
 * therefore a run in the sense of ChargerSafety.
 */
module ChargerObject {
  import opened DutyCycle
  import opened Wrappers
  import Spec = ChargerSpec
  import opened ChargerSpec
  import Safety = ChargerSafety
  import Pilot = ChargerPilot

  class Charger {
    const socket: bool

    var currentState: EvseState
    var lastState: EvseState
    var transactionActive: bool
    var sessionActive: bool
    var authorized: bool
    var authorizedPnC: bool

    var chargeMode: ChargeMode
    var acHlcEnabled: bool
    var acHlcUse5Percent: bool
    var acEnforceHlc: bool
    var acHlcEnabledCurrentSession: bool
    var hlcUse5PercentCurrentSession: bool

    var tStepEFReturnState: EvseState
    var tStepEFReturnPWM: real
    var tStepX1ReturnState: EvseState
    var tStepX1ReturnPWM: real

    var maxCurrent: real
    var maxCurrentValidUntil: int
    var maxCurrentCable: Ampacity
    var currentDrawnByVehicle: real
    var updatePwmLastDc: real
    var lastPwmUpdate: int
    var overCurrent: bool
    var lastOverCurrentEvent: int
    var currentStateStarted: int
    var acWithSocTimeout: bool
    var acWithSocTimer: int
    var matchingStarted: bool
    var evseMaxLimitsSet: bool

    /** What was sent out so far. */
    ghost var trace: Trace

    /** The value this object represents. */
    ghost function State(): State
      reads this
    {
      Spec.State.State(
        currentState, lastState, transactionActive, sessionActive, authorized, authorizedPnC,
        acHlcEnabledCurrentSession, hlcUse5PercentCurrentSession, maxCurrent, maxCurrentValidUntil, updatePwmLastDc,
        Returns(tStepEFReturnState, tStepEFReturnPWM, tStepX1ReturnState, tStepX1ReturnPWM),
        Config(chargeMode, acHlcEnabled, acHlcUse5Percent, acEnforceHlc, socket),
        Inputs(currentDrawnByVehicle, maxCurrentCable, matchingStarted, evseMaxLimitsSet),
        Timers(currentStateStarted, lastPwmUpdate, overCurrent, lastOverCurrentEvent, acWithSocTimeout, acWithSocTimer),
        trace)
    }

    constructor (ampacity: Ampacity, socket: bool)
      ensures Initial(State())
    {
      this.socket := socket;
      maxCurrent, maxCurrentCable, authorized := 6.0, ampacity, false;
      updatePwmLastDc := 0.0;
      currentState, lastState := Disabled, Disabled;
      currentDrawnByVehicle := 0.0;
      tStepEFReturnState, tStepX1ReturnState := Faulted, Faulted;
      matchingStarted, transactionActive, sessionActive := false, false, false;
      hlcUse5PercentCurrentSession := false;
      trace := Empty;
    }

    // ---------- Building blocks ----------

    /** An event or a call to the board leaves the charger. */
    ghost method Send(o: Output)
      modifies this`trace
      ensures State() == Emit(old(State()), o)
    {
      trace := Then(trace, o);
    }

    method SetState(target: EvseState)
      modifies this`currentState
      ensures State() == Go(old(State()), target)
    {
      currentState := target;
    }

    method PowerAvailable(now: int) returns (available: bool)
      modifies this`maxCurrent
      ensures State() == ExpireLimit(old(State()), now)
      ensures available == HasPower(State())
    {
      if maxCurrentValidUntil < now {
        maxCurrent := 0.0;
      }
      available := maxCurrent > 5.9;
    }

    method UpdatePwmNow(dc: real, now: int)
      modifies this`updatePwmLastDc, this`lastPwmUpdate, this`trace
      ensures State() == UpdatePwm(old(State()), dc, now)
    {
      updatePwmLastDc, lastPwmUpdate := dc, now;
      Send(PwmOn(dc));
    }

    method UpdatePwmNowIfChanged(dc: real, now: int)
      modifies this`updatePwmLastDc, this`lastPwmUpdate, this`trace
      ensures State() == UpdatePwmIfChanged(old(State()), dc, now)
    {
      if updatePwmLastDc != dc {
        UpdatePwmNow(dc, now);
      }
    }

    method UpdatePwmMaxEvery5Seconds(dc: real, now: int)
      modifies this`updatePwmLastDc, this`lastPwmUpdate, this`trace
      ensures State() == UpdatePwmSlowly(old(State()), dc, now)
    {
      if dc != updatePwmLastDc {
        if now - lastPwmUpdate >= 5000 {
          UpdatePwmNow(dc, now);
        }
      }
    }

    method StartSession()
      modifies this`sessionActive, this`authorized, this`trace
      ensures State() == Spec.StartSession(old(State()))
    {
      sessionActive, authorized := true, false;
      Send(Signal(SessionStarted));
    }

    method StopSession()
      modifies this`sessionActive, this`authorized, this`trace
      ensures State() == Spec.StopSession(old(State()))
    {
      sessionActive := false;
      authorized := false;
      Send(Signal(SessionFinished));
    }

    method StartTransaction()
      modifies this`transactionActive, this`trace
      ensures State() == Spec.StartTransaction(old(State()))
    {
      transactionActive := true;
      Send(Signal(TransactionStarted));
    }

    method StopTransaction()
      modifies this`transactionActive, this`trace
      ensures State() == Spec.StopTransaction(old(State()))
    {
      transactionActive := false;
      Send(Signal(ChargingFinished));
      Send(Signal(TransactionFinished));
    }

    method Authorize(a: bool, pnc: bool)
      modifies this`sessionActive, this`authorized, this`authorizedPnC, this`trace
      ensures State() == Spec.Authorize(old(State()), a, pnc)
    {
      if a {
        if !sessionActive {
          StartSession();
        }
        authorized, authorizedPnC := true, pnc;
      } else {
        if sessionActive {
          StopSession();
        }
        authorized := false;
      }
    }

    method CheckSoftOverCurrent(now: int)
      modifies this`overCurrent, this`lastOverCurrentEvent, this`currentState
      ensures State() == Spec.CheckSoftOverCurrent(old(State()), now)
    {
      var limit := maxCurrent * 1.1;
      if currentDrawnByVehicle > limit {
        if !overCurrent {
          overCurrent := true;
          lastOverCurrentEvent := now;
        }
      } else {
        overCurrent := false;
      }
      if overCurrent && now - lastOverCurrentEvent >= SOFT_OVER_CURRENT_TIMEOUT {
        currentState := Error;
      }
    }

    method PauseChargingWaitForPower() returns (paused: bool)
      modifies this`currentState
      ensures State() == PauseForPower(old(State()))
      ensures paused == (old(currentState) == Charging)
    {
      paused := currentState == Charging;
      if paused {
        currentState := WaitingForEnergy;
      }
    }

    // ---------- One tick ----------

    method TickIdle(isNew: bool)
      modifies this`sessionActive, this`authorized, this`authorizedPnC, this`transactionActive, this`trace
      ensures State() == OnIdle(old(State()), isNew)
    {
      if isNew {
        Send(PwmOff);
        Authorize(false, false);
        ForgetTransaction();
      }
    }

    method ForgetTransaction()
      modifies this`transactionActive, this`trace
      ensures State() == DropTransaction(old(State()))
    {
      if transactionActive {
        transactionActive := false;
        Send(Dropped);
      }
    }

    method ChooseMode()
      modifies this`hlcUse5PercentCurrentSession, this`acHlcEnabledCurrentSession
      ensures State() == EnterMode(old(State()))
    {
      hlcUse5PercentCurrentSession := false;
      if chargeMode == AC {
        acHlcEnabledCurrentSession := acHlcEnabled;
        if acHlcEnabledCurrentSession {
          hlcUse5PercentCurrentSession := acHlcUse5Percent;
        }
      } else {
        hlcUse5PercentCurrentSession := true;
      }
    }

    method EnterWaitingForAuthentication(now: int)
      modifies this`sessionActive, this`authorized, this`hlcUse5PercentCurrentSession, this`acHlcEnabledCurrentSession,
        this`updatePwmLastDc, this`lastPwmUpdate, this`trace
      ensures State() == EnterWaiting(old(State()), now)
    {
      Send(AllowPowerOn(false));
      if lastState == Replug {
        Send(Signal(ReplugFinished));
      } else {
        if !sessionActive {
          StartSession();
        }
        Send(Signal(AuthRequired));
      }
      ChooseMode();
      if hlcUse5PercentCurrentSession {
        UpdatePwmNow(PWM_5_PERCENT, now);
      }
    }

    method ReturnFromEFTo(target: EvseState, pwm: real)
      modifies this`tStepEFReturnState, this`tStepEFReturnPWM
      ensures State() == old(State()).(back := old(State()).back.(stateEF := target, pwmEF := pwm))
    {
      tStepEFReturnState, tStepEFReturnPWM := target, pwm;
    }

    method ReturnFromX1To(target: EvseState, pwm: real)
      modifies this`tStepX1ReturnState, this`tStepX1ReturnPWM
      ensures State() == old(State()).(back := old(State()).back.(stateX1 := target, pwmX1 := pwm))
    {
      tStepX1ReturnState, tStepX1ReturnPWM := target, pwm;
    }

    method UseFivePercent(use: bool)
      modifies this`hlcUse5PercentCurrentSession
      ensures State() == old(State()).(use5ThisSession := use)
    {
      hlcUse5PercentCurrentSession := use;
    }

    method ProceedAuthorized()
      modifies this`tStepEFReturnState, this`tStepEFReturnPWM, this`tStepX1ReturnState, this`tStepX1ReturnPWM,
        this`hlcUse5PercentCurrentSession, this`currentState
      ensures State() == Proceed(old(State()))
    {
      if authorizedPnC {
        if chargeMode == AC {
          UseFivePercent(true);
        }
        SetState(PrepareCharging);
      } else if chargeMode == AC && acHlcEnabledCurrentSession {
        if acEnforceHlc {
          UseFivePercent(true);
          SetState(PrepareCharging);
        } else if !matchingStarted {
          ReturnFromEFTo(PrepareCharging, 0.0);
          UseFivePercent(false);
          SetState(TStepEF);
        } else if hlcUse5PercentCurrentSession {
          ReturnFromX1To(PrepareCharging, 0.0);
          UseFivePercent(false);
          SetState(TStepX1);
        } else {
          SetState(PrepareCharging);
        }
      } else {
        SetState(PrepareCharging);
      }
    }

    method TickWaitingForAuthentication(isNew: bool, now: int)
      modifies this`sessionActive, this`authorized, this`hlcUse5PercentCurrentSession, this`acHlcEnabledCurrentSession,
        this`updatePwmLastDc, this`lastPwmUpdate, this`tStepEFReturnState, this`tStepEFReturnPWM,
        this`tStepX1ReturnState, this`tStepX1ReturnPWM, this`currentState, this`transactionActive, this`trace
      ensures State() == OnWaiting(old(State()), isNew, now)
    {
      if isNew {
        EnterWaitingForAuthentication(now);
      }
      if chargeMode == DC && !evseMaxLimitsSet {
        return;
      }
      if authorized {
        StartTransaction();
        ProceedAuthorized();
      }
    }

    method TickTStepEF(isNew: bool, now: int)
      modifies this`updatePwmLastDc, this`lastPwmUpdate, this`currentState, this`trace
      ensures State() == OnTStepEF(old(State()), isNew, now)
    {
      if isNew {
        Send(PwmF);
      }
      if now - currentStateStarted >= T_STEP_EF {
        if tStepEFReturnPWM == 0.0 {
          Send(PwmOff);
        } else {
          UpdatePwmNow(tStepEFReturnPWM, now);
        }
        SetState(tStepEFReturnState);
      }
    }

    method TickTStepX1(isNew: bool, now: int)
      modifies this`updatePwmLastDc, this`lastPwmUpdate, this`currentState, this`trace
      ensures State() == OnTStepX1(old(State()), isNew, now)
    {
      if isNew {
        Send(PwmOff);
      }
      if now - currentStateStarted >= T_STEP_X1 {
        if tStepX1ReturnPWM == 0.0 {
          Send(PwmOff);
        } else {
          UpdatePwmNow(tStepX1ReturnPWM, now);
        }
        SetState(tStepX1ReturnState);
      }
    }

    method TickPrepareCharging(isNew: bool, now: int)
      modifies this`updatePwmLastDc, this`lastPwmUpdate, this`trace
      ensures State() == OnPrepare(old(State()), isNew, now)
    {
      if isNew {
        Send(Signal(PrepareChargingEvent));
        Send(AllowPowerOn(true));
        if hlcUse5PercentCurrentSession {
          UpdatePwmNow(PWM_5_PERCENT, now);
        } else {
          UpdatePwmNow(AmpereToDutyCycle(0.0), now);
        }
      }
      if !hlcUse5PercentCurrentSession {
        UpdatePwmNowIfChanged(AmpereToDutyCycle(maxCurrent), now);
      }
    }

    /** The last thing sent was a duty cycle: 5 percent, or one that the car reads as the limit. */
    ghost predicate SentLimit()
      reads this
    {
      && trace.Then? && trace.last.PwmOn?
      && if hlcUse5PercentCurrentSession then trace.last.dc == 0.05
         else DutyCycleToAmps(trace.last.dc) == Understood(maxCurrent)
    }

    method FollowLimit(switchOn: bool, e: SessionEvent, now: int)
      modifies this`updatePwmLastDc, this`lastPwmUpdate, this`trace
      ensures State() == KeepCharging(old(State()), switchOn, e, now)
      ensures switchOn ==> SentLimit()
    {
      DutyCycleRoundTrip(maxCurrent);
      if switchOn {
        Send(Signal(e));
        Send(AllowPowerOn(true));
        if hlcUse5PercentCurrentSession {
          UpdatePwmNow(PWM_5_PERCENT, now);
        } else {
          UpdatePwmNow(AmpereToDutyCycle(maxCurrent), now);
        }
      } else if !hlcUse5PercentCurrentSession {
        UpdatePwmMaxEvery5Seconds(AmpereToDutyCycle(maxCurrent), now);
      }
    }

    method TickCharging(isNew: bool, now: int)
      modifies this`overCurrent, this`lastOverCurrentEvent, this`currentState, this`maxCurrent, this`updatePwmLastDc,
        this`lastPwmUpdate, this`trace
      ensures State() == OnCharging(old(State()), isNew, now)
      ensures isNew && lastState != PrepareCharging && chargeMode == AC && maxCurrent > 5.9 ==> SentLimit()
    {
      if chargeMode == AC {
        CheckSoftOverCurrent(now);
        var available := PowerAvailable(now);
        if !available {
          var paused := PauseChargingWaitForPower();
        } else {
          FollowLimit(isNew && lastState != PrepareCharging, ChargingResumed, now);
        }
      }
    }

    method TickChargingPausedEV(isNew: bool, now: int)
      modifies this`overCurrent, this`lastOverCurrentEvent, this`currentState, this`maxCurrent, this`updatePwmLastDc,
        this`lastPwmUpdate, this`trace
      ensures State() == OnPausedEV(old(State()), isNew, now)
      ensures isNew && chargeMode == AC && maxCurrent > 5.9 ==> SentLimit()
    {
      if chargeMode == DC {
        if isNew {
          Send(AllowPowerOn(false));
          SetState(StoppingCharging);
        }
      } else {
        CheckSoftOverCurrent(now);
        var available := PowerAvailable(now);
        if !available {
          var paused := PauseChargingWaitForPower();
        } else {
          FollowLimit(isNew, PausedByEV, now);
        }
      }
    }

    method TickStoppingCharging(isNew: bool)
      modifies this`transactionActive, this`currentState, this`trace
      ensures State() == OnStopping(old(State()), isNew)
    {
      if isNew {
        Send(Signal(Stopping));
        if transactionActive {
          StopTransaction();
        }
        if chargeMode == DC {
          Send(DcSupplyOff);
        } else {
          Send(PwmOff);
          SetState(Finished);
        }
      }
    }

    method TickFinished(isNew: bool)
      requires currentState == Finished
      modifies this`transactionActive, this`sessionActive, this`authorized, this`currentState, this`trace
      ensures State() == OnFinished(old(State()), isNew)
    {
      if isNew {
        if transactionActive {
          StopTransaction();
        }
        StopSession();
        Send(PwmF);
      }
      var restarted := Restart();
    }

    method RestartReplugTimer()
      modifies this`acWithSocTimer
      ensures State() == if old(acWithSocTimeout) then
        old(State()).(timers := old(State()).timers.(socTimer := 120000)) else old(State())
    {
      if acWithSocTimeout {
        acWithSocTimer := 120000;
      }
    }

    /** The states that only announce themselves. */
    method TickOther(isNew: bool)
      requires currentState in {Disabled, Replug, ChargingPausedEVSE, WaitingForEnergy, Error, Faulted}
      modifies this`acWithSocTimer, this`trace
      ensures forall now :: State() == OnState(old(State()), isNew, now)
    {
      if isNew {
        match currentState
        case Disabled =>
          Send(Signal(DisabledEvent));
          Send(PwmF);
        case Replug =>
          Send(Signal(ReplugStarted));
          RestartReplugTimer();
        case ChargingPausedEVSE =>
          Send(Signal(PausedByEVSE));
          Send(PwmOff);
          if chargeMode == DC {
            Send(DcSupplyOff);
          }
        case WaitingForEnergy =>
          Send(Signal(WaitingForEnergyEvent));
          if !hlcUse5PercentCurrentSession {
            Send(PwmOff);
          }
        case Error =>
          Send(Signal(ErrorEvent));
          Send(PwmOff);
        case Faulted =>
          Send(Signal(PermanentFaultEvent));
          Send(PwmF);
      }
    }

    method Restart() returns (restarted: bool)
      modifies this`currentState
      ensures State() == Spec.Restart(old(State()))
      ensures restarted == (old(currentState) == Finished)
    {
      restarted := currentState == Finished;
      if restarted {
        SetState(Idle);
      }
    }

    method TickState(isNew: bool, now: int)
      modifies this
      ensures State() == OnState(old(State()), isNew, now)
    {
      match currentState
      case Idle => TickIdle(isNew);
      case WaitingForAuthentication => TickWaitingForAuthentication(isNew, now);
      case TStepEF => TickTStepEF(isNew, now);
      case TStepX1 => TickTStepX1(isNew, now);
      case PrepareCharging => TickPrepareCharging(isNew, now);
      case Charging => TickCharging(isNew, now);
      case ChargingPausedEV => TickChargingPausedEV(isNew, now);
      case StoppingCharging => TickStoppingCharging(isNew);
      case Finished => TickFinished(isNew);
      case _ => TickOther(isNew);
    }

    /** Remembers the state and counts down the timer for a car that does not report its charge. */
    method BeginTick() returns (isNew: bool, ranOut: bool)
      modifies this`lastState, this`acWithSocTimer
      ensures State() == Spec.BeginTick(old(State()))
      ensures isNew == (old(State()).last != old(State()).current) && ranOut == CountedOut(State())
    {
      isNew := lastState != currentState;
      lastState := currentState;
      if acWithSocTimeout {
        acWithSocTimer := acWithSocTimer - 50;
      }
      ranOut := acWithSocTimeout && acWithSocTimer < 0;
    }

    method StopCounting()
      modifies this`acWithSocTimeout, this`acWithSocTimer, this`trace
      ensures State() == Spec.StopCounting(old(State()))
    {
      acWithSocTimeout, acWithSocTimer := false, 3600000;
      Send(SoCTimeout);
    }

    method StartState(isNew: bool, now: int)
      modifies this`currentStateStarted
      ensures State() == EnterState(old(State()), isNew, now)
    {
      if isNew {
        currentStateStarted := now;
      }
    }

    method RunStateMachine(now: int)
      modifies this
      ensures State() == Spec.RunStateMachine(old(State()), now)
    {
      var isNew, ranOut := BeginTick();
      if ranOut {
        StopCounting();
      } else {
        StartState(isNew, now);
        TickState(isNew, now);
      }
    }

    /** One turn of the main thread. */
    method MainThreadTurn(now: int)
      modifies this
      ensures State() == Apply(old(State()), Tick(now))
      ensures Safety.Inv(old(State())) ==> Safety.Inv(State())
      ensures Safety.Inv(old(State())) ==> Pilot.AddsReading(old(trace), trace, maxCurrent)
    {
      var available := PowerAvailable(now);
      RunStateMachine(now);
      KeepInv(old(State()), Tick(now));
      ReadsLimit(old(State()), Tick(now));
    }

    static lemma ReadsLimit(s: State, step: Step)
      ensures Safety.Inv(s) ==> Pilot.AddsReading(s.trace, Apply(s, step).trace, Apply(s, step).maxCurrent)
    {
      if Safety.Inv(s) {
        Pilot.StepReads(s, step);
      }
    }

    static lemma KeepInv(s: State, step: Step)
      ensures Safety.Inv(s) ==> Safety.Inv(Apply(s, step))
    {
      if Safety.Inv(s) {
        Safety.StepKeepsInv(s, step);
      }
    }

    // ---------- Control-pilot events ----------

    method ProcessCPEventsIndependent(e: ControlPilotEvent)
      modifies this`currentState, this`trace
      ensures State() == EventIndependent(old(State()), e)
    {
      match e
      case EvseReplugStarted => SetState(Replug);
      case EvseReplugFinished => SetState(WaitingForAuthentication);
      case CarUnplugged =>
        if currentState == Error {
          Send(Signal(AllErrorsCleared));
        }
        SetState(if chargeMode == AC then StoppingCharging else Finished);
      case ErrorE => SetState(Error);
      case ErrorDF => SetState(Error);
      case ErrorRelais => SetState(Error);
      case ErrorRCD => SetState(Error);
      case ErrorVentilationNotAvailable => SetState(Error);
      case ErrorOverCurrent => SetState(Error);
      case _ =>
    }

    method ReadCable(ampacity: Ampacity)
      modifies this`maxCurrentCable
      ensures State() == old(State()).(inputs := old(State()).inputs.(cable := ampacity))
    {
      maxCurrentCable := ampacity;
    }

    method StartChargingIfPowerAvailable(now: int)
      modifies this`currentState, this`maxCurrent
      ensures State() == RequestPower(old(State()), now)
    {
      var available := PowerAvailable(now);
      SetState(Charging);
      if !available {
        var paused := PauseChargingWaitForPower();
      }
    }

    method ProcessCPEventsState(e: ControlPilotEvent, now: int)
      modifies this`maxCurrentCable, this`currentState, this`maxCurrent, this`trace
      ensures State() == EventInState(old(State()), e, now)
    {
      match currentState
      case Idle =>
        if e.CarPluggedIn? {
          ReadCable(e.ampacity);
          SetState(WaitingForAuthentication);
        }
      case PrepareCharging =>
        if chargeMode == AC {
          Send(Signal(ChargingStarted));
          if e.CarRequestedPower? {
            StartChargingIfPowerAvailable(now);
          }
        } else if e.CarRequestedStopPower? {
          SetState(StoppingCharging);
        }
      case Charging =>
        if e.CarRequestedStopPower? {
          SetState(ChargingPausedEV);
        }
      case ChargingPausedEV =>
        if e.CarRequestedPower? {
          SetState(Charging);
        }
      case _ =>
    }

    method ProcessEvent(e: ControlPilotEvent, now: int)
      modifies this`maxCurrentCable, this`currentState, this`maxCurrent, this`trace
      ensures State() == Spec.ProcessEvent(old(State()), e, now)
      ensures Safety.Inv(old(State())) ==> Safety.Inv(State())
    {
      ProcessCPEventsIndependent(e);
      ProcessCPEventsState(e, now);
      KeepInv(old(State()), PilotEvent(e, now));
    }

    // ---------- Commands ----------

    method SetMaxCurrentUntil(c: real, validUntil: int, now: int) returns (ok: bool)
      modifies this`maxCurrent, this`maxCurrentValidUntil
      ensures State() == Spec.SetMaxCurrentUntil(old(State()), c, validUntil, now)
      ensures ok == (LimitAccepted(c) && validUntil > now)
    {
      ok := false;
      if c >= 0.0 && c <= ABSOLUTE_MAX_CURRENT {
        var limit := c;
        if socket && maxCurrentCable < c {
          limit := maxCurrentCable;
        }
        if validUntil > now {
          maxCurrent, maxCurrentValidUntil := limit, validUntil;
          ok := true;
        }
      }
    }

    method SetMaxCurrent(c: real, now: int) returns (ok: bool)
      modifies this`maxCurrent
      ensures State() == Spec.SetMaxCurrent(old(State()), c, now)
      ensures ok == (LimitAccepted(c) && maxCurrentValidUntil > now)
    {
      ok := false;
      if c >= 0.0 && c <= ABSOLUTE_MAX_CURRENT {
        var limit := c;
        if socket && maxCurrentCable < c {
          limit := maxCurrentCable;
        }
        if maxCurrentValidUntil > now {
          maxCurrent := limit;
          ok := true;
        }
      }
    }

    method PauseCharging() returns (ok: bool)
      modifies this`currentState
      ensures State() == Spec.PauseCharging(old(State()))
      ensures ok == (old(currentState) == Charging)
    {
      ok := currentState == Charging;
      if ok {
        SetState(ChargingPausedEVSE);
      }
    }

    method ResumeCharging() returns (ok: bool)
      modifies this`currentState
      ensures State() == Spec.ResumeCharging(old(State()))
      ensures ok == (transactionActive && old(currentState) == ChargingPausedEVSE)
    {
      ok := transactionActive && currentState == ChargingPausedEVSE;
      if ok {
        SetState(WaitingForEnergy);
      }
    }

    method ResumeChargingPowerAvailable(now: int) returns (ok: bool)
      modifies this`currentState, this`maxCurrent
      ensures State() == Spec.ResumeChargingPowerAvailable(old(State()), now)
      ensures ok == (transactionActive && old(currentState) == WaitingForEnergy && HasPower(State()))
    {
      ok := false;
      if transactionActive && currentState == WaitingForEnergy {
        ok := PowerAvailable(now);
        if ok {
          SetState(Charging);
        }
      }
    }

    method CancelTransaction() returns (ok: bool)
      modifies this`currentState, this`transactionActive, this`trace
      ensures State() == Spec.CancelTransaction(old(State()))
      ensures ok == old(transactionActive)
    {
      ok := transactionActive;
      if ok {
        SetState(if chargeMode == DC then StoppingCharging else ChargingPausedEVSE);
        StopTransaction();
      }
    }

    method DeAuthorize() returns (ok: bool)
      modifies this`sessionActive, this`authorized, this`trace
      ensures State() == Spec.DeAuthorize(old(State()))
      ensures ok == old(sessionActive && AuthRemovable(currentState) && authorized)
    {
      ok := sessionActive && AuthRemovable(currentState) && authorized;
      if ok {
        StopSession();
      }
    }

    method Disable()
      modifies this`currentState, this`trace
      ensures State() == Spec.Disable(old(State()))
    {
      SetState(Disabled);
      Send(Signal(DisabledEvent));
    }

    method Enable() returns (ok: bool)
      modifies this`currentState, this`trace
      ensures State() == Spec.Enable(old(State()))
      ensures ok == (old(currentState) == Disabled)
    {
      ok := currentState == Disabled;
      if ok {
        SetState(Idle);
        Send(Signal(Enabled));
      }
    }

    method SetFaulted()
      modifies this`currentState, this`trace
      ensures State() == Spec.SetFaulted(old(State()))
    {
      SetState(Faulted);
      Send(Signal(PermanentFaultEvent));
    }

    method RequestErrorSequence()
      modifies this`tStepEFReturnState, this`tStepEFReturnPWM, this`currentState
      ensures State() == Spec.RequestErrorSequence(old(State()))
    {
      if currentState == WaitingForAuthentication {
        ReturnFromEFTo(WaitingForAuthentication,
                       if acHlcEnabledCurrentSession && hlcUse5PercentCurrentSession then PWM_5_PERCENT else 0.0);
        SetState(TStepEF);
      }
    }

    method NotifyCurrentDemandStarted()
      modifies this`currentState, this`trace
      ensures State() == Spec.NotifyCurrentDemandStarted(old(State()))
    {
      if currentState == PrepareCharging {
        Send(Signal(ChargingStarted));
        SetState(Charging);
      }
    }

    method SetMode(mode: ChargeMode, enforce: bool)
      modifies this`chargeMode, this`acEnforceHlc
      ensures State() == old(State()).(config := old(State()).config.(mode := mode, enforceHlc := enforce))
    {
      chargeMode, acEnforceHlc := mode, enforce;
    }

    method SetHlc(hlc: bool, hlc5: bool)
      modifies this`acHlcEnabled, this`acHlcUse5Percent, this`acHlcEnabledCurrentSession
      ensures State() == old(State()).(config := old(State()).config.(hlcEnabled := hlc, hlcUse5 := hlc5),
                                       hlcThisSession := hlc)
    {
      acHlcEnabled, acHlcUse5Percent, acHlcEnabledCurrentSession := hlc, hlc5, hlc;
    }

    method StartCounting(timeout: bool)
      modifies this`acWithSocTimeout, this`acWithSocTimer
      ensures State() == old(State()).(timers := old(State()).timers.(socTimeout := timeout, socTimer := 3600000))
    {
      acWithSocTimeout, acWithSocTimer := timeout, 3600000;
    }

    method Setup(mode: ChargeMode, hlc: bool, hlc5: bool, enforce: bool, timeout: bool)
      modifies this
      ensures State() == Spec.Setup(old(State()), mode, hlc, hlc5, enforce, timeout)
    {
      SetMode(mode, enforce);
      SetHlc(hlc, hlc5);
      StartCounting(timeout);
    }

    method SetMatchingStarted(m: bool)
      modifies this`matchingStarted
      ensures State() == Apply(old(State()), Matching(m))
    {
      matchingStarted := m;
    }

    method SetCurrentDrawnByVehicle(drawn: real)
      modifies this`currentDrawnByVehicle
      ensures State() == Apply(old(State()), CurrentDrawn(drawn))
    {
      currentDrawnByVehicle := drawn;
    }

    method InformNewEvseMaxHlcLimits(supplied: bool)
      modifies this`evseMaxLimitsSet
      ensures State() == Apply(old(State()), DcLimits(supplied))
    {
      evseMaxLimitsSet := supplied;
    }

    // ---------- Runs ----------

    method Command(step: Step)
      requires !step.Tick? && !step.PilotEvent?
      modifies this
      ensures State() == Apply(old(State()), step)
      ensures Safety.Inv(old(State())) ==> Safety.Inv(State())
    {
      KeepInv(State(), step);
      var ok: bool;
      match step
      case LimitUntil(c, until, now) => ok := SetMaxCurrentUntil(c, until, now);
      case Limit(c, now) => ok := SetMaxCurrent(c, now);
      case Pause => ok := PauseCharging();
      case Resume => ok := ResumeCharging();
      case PauseWaitForPower => ok := PauseChargingWaitForPower();
      case ResumePowerAvailable(now) => ok := ResumeChargingPowerAvailable(now);
      case ReplugRequest => Send(EvseReplug);
      case Cancel => ok := CancelTransaction();
      case Auth(allowed, pnc) => Authorize(allowed, pnc);
      case DeAuth => ok := DeAuthorize();
      case Disabling => Disable();
      case Enabling => ok := Enable();
      case Fault => SetFaulted();
      case Restarting => ok := Restart();
      case ErrorSequence => RequestErrorSequence();
      case CurrentDemandStarted => NotifyCurrentDemandStarted();
      case Configure(mode, hlc, hlc5, enforce, soc) => Setup(mode, hlc, hlc5, enforce, soc);
      case Matching(started) => SetMatchingStarted(started);
      case CurrentDrawn(drawn) => SetCurrentDrawnByVehicle(drawn);
      case DcLimits(supplied) => InformNewEvseMaxHlcLimits(supplied);
    }

    /** Whatever happens to the charger, in whatever order, is a run of the state machine. */
    method Live(steps: seq<Step>)
      requires Initial(State())
      modifies this
      ensures State() == Run(old(State()), steps)
      ensures Safety.Inv(State())
    {
      for i := 0 to |steps|
        invariant State() == Run(old(State()), steps[..i])
      {
        match steps[i] {
          case Tick(now) => MainThreadTurn(now);
          case PilotEvent(e, now) => ProcessEvent(e, now);
          case _ => Command(steps[i]);
        }
        assert steps[..i + 1][..i] == steps[..i];
      }
      assert steps[..|steps|] == steps;
      Safety.RunKeepsInv(old(State()), steps);
    }
  }
}
