/**
 * The charging state machine on values: what a tick, a control-pilot event and each command
 * make of the charger's state. Times are in milliseconds.
 */
module ChargerSpec {
  import opened DutyCycle
  import opened Wrappers

  datatype EvseState =
    | Disabled | Idle | WaitingForAuthentication | PrepareCharging | WaitingForEnergy | Charging
    | ChargingPausedEV | ChargingPausedEVSE | StoppingCharging | Finished | Error | Faulted
    | TStepEF | TStepX1 | Replug

  datatype ChargeMode = AC | DC

  /** What a cable can carry, as read from its resistor. */
  type Ampacity = a: real | 0.0 <= a

  datatype ControlPilotEvent =
    | CarPluggedIn(ampacity: Ampacity) | CarRequestedPower | PowerOn | PowerOff | CarRequestedStopPower | CarUnplugged
    | ErrorE | ErrorDF | ErrorRelais | ErrorRCD | ErrorVentilationNotAvailable | ErrorOverCurrent
    | EFtoBCD | BCDtoEF | PermanentFault | EvseReplugStarted | EvseReplugFinished | Invalid

  datatype SessionEvent =
    | Enabled | DisabledEvent | SessionStarted | AuthRequired | TransactionStarted | PrepareChargingEvent
    | ChargingStarted | PausedByEV | PausedByEVSE | ChargingResumed | WaitingForEnergyEvent | Stopping
    | ChargingFinished | TransactionFinished | SessionFinished | ErrorEvent | AllErrorsCleared
    | PermanentFaultEvent | ReplugStarted | ReplugFinished

  /**
   * What the charger sends out: session events and calls to the board. Dropped is not sent; it marks
   * where an active transaction is forgotten without an event.
   */
  datatype Output =
    | Signal(event: SessionEvent) | AllowPowerOn(on: bool) | PwmOn(dc: real) | PwmOff | PwmF | EvseReplug
    | DcSupplyOff | SoCTimeout | Dropped

  /** Everything sent out so far, the latest last. */
  type Trace = History<Output>

  const PWM_5_PERCENT := 0.05
  const T_STEP_EF := 4000
  const T_STEP_X1 := 3000
  const SOFT_OVER_CURRENT_TIMEOUT := 7000
  const ABSOLUTE_MAX_CURRENT := 80.0

  datatype Config = Config(mode: ChargeMode, hlcEnabled: bool, hlcUse5: bool, enforceHlc: bool, socket: bool)

  /** What the charger was told about the car, the cable and the supply. */
  datatype Inputs = Inputs(drawn: real, cable: Ampacity, matchingStarted: bool, dcSupplied: bool)

  datatype Timers = Timers(
    startedAt: int, lastPwmUpdate: int, overCurrent: bool, overSince: int, socTimeout: bool, socTimer: int)

  /** Where the pauses in F and X1 lead back to. */
  datatype Returns = Returns(stateEF: EvseState, pwmEF: real, stateX1: EvseState, pwmX1: real)

  datatype State = State(
    current: EvseState, last: EvseState,
    transactionActive: bool, sessionActive: bool, authorized: bool, pnc: bool,
    hlcThisSession: bool, use5ThisSession: bool, maxCurrent: real, validUntil: int, lastDc: real,
    back: Returns, config: Config, inputs: Inputs, timers: Timers,
    trace: Trace)

  predicate Initial(s: State) {
    && s.current == Disabled && s.last == Disabled && s.maxCurrent == 6.0 && s.lastDc == 0.0
    && !s.authorized && !s.transactionActive && !s.sessionActive && !s.inputs.matchingStarted && !s.use5ThisSession
    && s.back.stateEF == Faulted && s.back.stateX1 == Faulted && s.inputs.drawn == 0.0 && s.trace == Empty
  }

  // ---------- Building blocks ----------

  function Emit(s: State, o: Output): State {
    s.(trace := Then(s.trace, o))
  }

  function Announce(s: State, e: SessionEvent): State {
    Emit(s, Signal(e))
  }

  function Go(s: State, target: EvseState): State {
    s.(current := target)
  }

  /** A limit that has expired counts as no power. */
  function ExpireLimit(s: State, now: int): State {
    if s.validUntil < now then s.(maxCurrent := 0.0) else s
  }

  predicate HasPower(s: State) {
    s.maxCurrent > 5.9
  }

  function UpdatePwm(s: State, dc: real, now: int): State {
    Emit(s.(lastDc := dc, timers := s.timers.(lastPwmUpdate := now)), PwmOn(dc))
  }

  function UpdatePwmIfChanged(s: State, dc: real, now: int): State {
    if s.lastDc != dc then UpdatePwm(s, dc, now) else s
  }

  function UpdatePwmSlowly(s: State, dc: real, now: int): State {
    if dc != s.lastDc && now - s.timers.lastPwmUpdate >= 5000 then UpdatePwm(s, dc, now) else s
  }

  function PwmNow(s: State, now: int): State {
    UpdatePwm(s, if s.use5ThisSession then PWM_5_PERCENT else AmpereToDutyCycle(s.maxCurrent), now)
  }

  function StartSession(s: State): State {
    Announce(s.(sessionActive := true, authorized := false), SessionStarted)
  }

  function StopSession(s: State): State {
    Announce(s.(sessionActive := false, authorized := false), SessionFinished)
  }

  function StartTransaction(s: State): State {
    Announce(s.(transactionActive := true), TransactionStarted)
  }

  function StopTransaction(s: State): State {
    Announce(Announce(s.(transactionActive := false), ChargingFinished), TransactionFinished)
  }

  function StopTransactionIfActive(s: State): State {
    if s.transactionActive then StopTransaction(s) else s
  }

  function Authorize(s: State, allowed: bool, pnc: bool): State {
    if allowed then (if s.sessionActive then s else StartSession(s)).(authorized := true, pnc := pnc)
    else (if s.sessionActive then StopSession(s) else s).(authorized := false)
  }

  /** Ten percent above the limit is tolerated, for seven seconds. */
  function CheckSoftOverCurrent(s: State, now: int): State {
    var above := s.inputs.drawn > s.maxCurrent * 1.1;
    var t := if above && !s.timers.overCurrent then s.timers.(overCurrent := true, overSince := now)
             else s.timers.(overCurrent := above);
    var s1 := s.(timers := t);
    if s1.timers.overCurrent && now - s1.timers.overSince >= SOFT_OVER_CURRENT_TIMEOUT then Go(s1, Error) else s1
  }

  function PauseForPower(s: State): State {
    if s.current == Charging then Go(s, WaitingForEnergy) else s
  }

  // ---------- One tick, state by state; isNew says the state was entered since the last tick ----------

  function DropTransaction(s: State): State {
    if s.transactionActive then Emit(s.(transactionActive := false), Dropped) else s
  }

  function OnIdle(s: State, isNew: bool): State {
    if isNew then DropTransaction(Authorize(Emit(s, PwmOff), false, false)) else s
  }

  function EnterMode(s: State): State {
    if s.config.mode == DC then s.(use5ThisSession := true)
    else s.(use5ThisSession := s.config.hlcEnabled && s.config.hlcUse5, hlcThisSession := s.config.hlcEnabled)
  }

  /** On entering the state: no power, a session, and 5 percent if digital communication asks for it. */
  function EnterWaiting(s: State, now: int): State {
    var s1 := Emit(s, AllowPowerOn(false));
    var s2 := if s.last == Replug then Announce(s1, ReplugFinished)
              else Announce(if s1.sessionActive then s1 else StartSession(s1), AuthRequired);
    var s3 := EnterMode(s2);
    if s3.use5ThisSession then UpdatePwm(s3, PWM_5_PERCENT, now) else s3
  }

  /** Where an authorized session goes, by payment, mode and progress of matching. */
  function Proceed(s: State): State {
    if s.pnc then Go(if s.config.mode == AC then s.(use5ThisSession := true) else s, PrepareCharging)
    else if s.config.mode == DC || !s.hlcThisSession then Go(s, PrepareCharging)
    else if s.config.enforceHlc then Go(s.(use5ThisSession := true), PrepareCharging)
    else if !s.inputs.matchingStarted then
      Go(s.(back := s.back.(stateEF := PrepareCharging, pwmEF := 0.0), use5ThisSession := false), TStepEF)
    else if s.use5ThisSession then
      Go(s.(back := s.back.(stateX1 := PrepareCharging, pwmX1 := 0.0), use5ThisSession := false), TStepX1)
    else Go(s, PrepareCharging)
  }

  function OnWaiting(s: State, isNew: bool, now: int): State {
    var s1 := if isNew then EnterWaiting(s, now) else s;
    if s1.config.mode == DC && !s1.inputs.dcSupplied then s1
    else if s1.authorized then Proceed(StartTransaction(s1))
    else s1
  }

  function LeaveEF(s: State, now: int): State {
    Go(if s.back.pwmEF == 0.0 then Emit(s, PwmOff) else UpdatePwm(s, s.back.pwmEF, now), s.back.stateEF)
  }

  function OnTStepEF(s: State, isNew: bool, now: int): State {
    var s1 := if isNew then Emit(s, PwmF) else s;
    if now - s1.timers.startedAt >= T_STEP_EF then LeaveEF(s1, now) else s1
  }

  function LeaveX1(s: State, now: int): State {
    Go(if s.back.pwmX1 == 0.0 then Emit(s, PwmOff) else UpdatePwm(s, s.back.pwmX1, now), s.back.stateX1)
  }

  function OnTStepX1(s: State, isNew: bool, now: int): State {
    var s1 := if isNew then Emit(s, PwmOff) else s;
    if now - s1.timers.startedAt >= T_STEP_X1 then LeaveX1(s1, now) else s1
  }

  function OnPrepare(s: State, isNew: bool, now: int): State {
    var s1 := if !isNew then s
              else UpdatePwm(Emit(Announce(s, PrepareChargingEvent), AllowPowerOn(true)),
                             if s.use5ThisSession then PWM_5_PERCENT else AmpereToDutyCycle(0.0), now);
    if s1.use5ThisSession then s1 else UpdatePwmIfChanged(s1, AmpereToDutyCycle(s1.maxCurrent), now)
  }

  /** In AC mode, with power: switch on when new in the state, else follow the limit slowly. */
  function KeepCharging(s: State, isNew: bool, e: SessionEvent, now: int): State {
    if isNew then PwmNow(Emit(Announce(s, e), AllowPowerOn(true)), now)
    else if s.use5ThisSession then s
    else UpdatePwmSlowly(s, AmpereToDutyCycle(s.maxCurrent), now)
  }

  function OnCharging(s: State, isNew: bool, now: int): State {
    if s.config.mode == DC then s
    else
      var s1 := ExpireLimit(CheckSoftOverCurrent(s, now), now);
      if !HasPower(s1) then PauseForPower(s1)
      else KeepCharging(s1, isNew && s1.last != PrepareCharging, ChargingResumed, now)
  }

  function OnPausedEV(s: State, isNew: bool, now: int): State {
    if s.config.mode == DC then (if isNew then Go(Emit(s, AllowPowerOn(false)), StoppingCharging) else s)
    else
      var s1 := ExpireLimit(CheckSoftOverCurrent(s, now), now);
      if !HasPower(s1) then PauseForPower(s1) else KeepCharging(s1, isNew, PausedByEV, now)
  }

  function OnPausedEVSE(s: State, isNew: bool): State {
    if !isNew then s
    else
      var s1 := Emit(Announce(s, PausedByEVSE), PwmOff);
      if s.config.mode == DC then Emit(s1, DcSupplyOff) else s1
  }

  function OnWaitingForEnergy(s: State, isNew: bool): State {
    if !isNew then s
    else
      var s1 := Announce(s, WaitingForEnergyEvent);
      if s.use5ThisSession then s1 else Emit(s1, PwmOff)
  }

  function OnStopping(s: State, isNew: bool): State {
    if !isNew then s
    else
      var s1 := StopTransactionIfActive(Announce(s, Stopping));
      if s.config.mode == DC then Emit(s1, DcSupplyOff) else Go(Emit(s1, PwmOff), Finished)
  }

  function OnFinished(s: State, isNew: bool): State {
    Go(if isNew then Emit(StopSession(StopTransactionIfActive(s)), PwmF) else s, Idle)
  }

  function OnState(s: State, isNew: bool, now: int): State {
    match s.current
    case Disabled => if isNew then Emit(Announce(s, DisabledEvent), PwmF) else s
    case Replug =>
      if !isNew then s
      else
        var s1 := Announce(s, ReplugStarted);
        if s.timers.socTimeout then s1.(timers := s1.timers.(socTimer := 120000)) else s1
    case Idle => OnIdle(s, isNew)
    case WaitingForAuthentication => OnWaiting(s, isNew, now)
    case TStepEF => OnTStepEF(s, isNew, now)
    case TStepX1 => OnTStepX1(s, isNew, now)
    case PrepareCharging => OnPrepare(s, isNew, now)
    case Charging => OnCharging(s, isNew, now)
    case ChargingPausedEV => OnPausedEV(s, isNew, now)
    case ChargingPausedEVSE => OnPausedEVSE(s, isNew)
    case WaitingForEnergy => OnWaitingForEnergy(s, isNew)
    case StoppingCharging => OnStopping(s, isNew)
    case Finished => OnFinished(s, isNew)
    case Error => if isNew then Emit(Announce(s, ErrorEvent), PwmOff) else s
    case Faulted => if isNew then Emit(Announce(s, PermanentFaultEvent), PwmF) else s
  }

  /** The countdown for a car that does not report its state of charge. */
  function CountDown(t: Timers): Timers {
    if t.socTimeout then t.(socTimer := t.socTimer - 50) else t
  }

  /** A tick begins by remembering the state and counting down. */
  function BeginTick(s: State): State {
    s.(last := s.current, timers := CountDown(s.timers))
  }

  predicate CountedOut(s: State) {
    s.timers.socTimeout && s.timers.socTimer < 0
  }

  function StopCounting(s: State): State {
    Emit(s.(timers := s.timers.(socTimeout := false, socTimer := 3600000)), SoCTimeout)
  }

  function EnterState(s: State, isNew: bool, now: int): State {
    if isNew then s.(timers := s.timers.(startedAt := now)) else s
  }

  function RunStateMachine(s: State, now: int): State {
    var isNew := s.last != s.current;
    var s1 := BeginTick(s);
    if CountedOut(s1) then StopCounting(s1) else OnState(EnterState(s1, isNew, now), isNew, now)
  }

  // ---------- Control-pilot events ----------

  function EventIndependent(s: State, e: ControlPilotEvent): State {
    match e
    case EvseReplugStarted => Go(s, Replug)
    case EvseReplugFinished => Go(s, WaitingForAuthentication)
    case CarUnplugged =>
      Go(if s.current == Error then Announce(s, AllErrorsCleared) else s,
         if s.config.mode == AC then StoppingCharging else Finished)
    case ErrorE => Go(s, Error)
    case ErrorDF => Go(s, Error)
    case ErrorRelais => Go(s, Error)
    case ErrorRCD => Go(s, Error)
    case ErrorVentilationNotAvailable => Go(s, Error)
    case ErrorOverCurrent => Go(s, Error)
    case _ => s
  }

  function RequestPower(s: State, now: int): State {
    var s1 := ExpireLimit(s, now);
    if HasPower(s1) then Go(s1, Charging) else PauseForPower(Go(s1, Charging))
  }

  function EventInState(s: State, e: ControlPilotEvent, now: int): State {
    match s.current
    case Idle =>
      if !e.CarPluggedIn? then s
      else Go(s.(inputs := s.inputs.(cable := e.ampacity)), WaitingForAuthentication)
    case PrepareCharging =>
      if s.config.mode == AC then
        var s1 := Announce(s, ChargingStarted);
        if e.CarRequestedPower? then RequestPower(s1, now) else s1
      else if e.CarRequestedStopPower? then Go(s, StoppingCharging)
      else s
    case Charging => if e.CarRequestedStopPower? then Go(s, ChargingPausedEV) else s
    case ChargingPausedEV => if e.CarRequestedPower? then Go(s, Charging) else s
    case _ => s
  }

  function ProcessEvent(s: State, e: ControlPilotEvent, now: int): State {
    EventInState(EventIndependent(s, e), e, now)
  }

  // ---------- Commands ----------

  predicate LimitAccepted(c: real) {
    0.0 <= c <= ABSOLUTE_MAX_CURRENT
  }

  /** For a socket, the cable's rating caps the limit. */
  function CapToCable(s: State, c: real): real {
    if s.config.socket && s.inputs.cable < c then s.inputs.cable else c
  }

  function SetMaxCurrentUntil(s: State, c: real, until: int, now: int): State {
    if LimitAccepted(c) && until > now then s.(maxCurrent := CapToCable(s, c), validUntil := until) else s
  }

  function SetMaxCurrent(s: State, c: real, now: int): State {
    if LimitAccepted(c) && s.validUntil > now then s.(maxCurrent := CapToCable(s, c)) else s
  }

  function PauseCharging(s: State): State {
    if s.current == Charging then Go(s, ChargingPausedEVSE) else s
  }

  function ResumeCharging(s: State): State {
    if s.transactionActive && s.current == ChargingPausedEVSE then Go(s, WaitingForEnergy) else s
  }

  function ResumeChargingPowerAvailable(s: State, now: int): State {
    if !(s.transactionActive && s.current == WaitingForEnergy) then s
    else
      var s1 := ExpireLimit(s, now);
      if HasPower(s1) then Go(s1, Charging) else s1
  }

  function CancelTransaction(s: State): State {
    if !s.transactionActive then s
    else StopTransaction(Go(s, if s.config.mode == DC then StoppingCharging else ChargingPausedEVSE))
  }

  predicate AuthRemovable(st: EvseState) {
    st == Disabled || st == Idle || st == WaitingForAuthentication || st == Error || st == Faulted
  }

  function DeAuthorize(s: State): State {
    if s.sessionActive && AuthRemovable(s.current) && s.authorized then StopSession(s) else s
  }

  function Disable(s: State): State {
    Announce(Go(s, Disabled), DisabledEvent)
  }

  function Enable(s: State): State {
    if s.current == Disabled then Announce(Go(s, Idle), Enabled) else s
  }

  function SetFaulted(s: State): State {
    Announce(Go(s, Faulted), PermanentFaultEvent)
  }

  function Restart(s: State): State {
    if s.current == Finished then Go(s, Idle) else s
  }

  function RequestErrorSequence(s: State): State {
    if s.current != WaitingForAuthentication then s
    else Go(s.(back := s.back.(stateEF := WaitingForAuthentication,
                               pwmEF := if s.hlcThisSession && s.use5ThisSession then PWM_5_PERCENT else 0.0)), TStepEF)
  }

  function NotifyCurrentDemandStarted(s: State): State {
    if s.current == PrepareCharging then Go(Announce(s, ChargingStarted), Charging) else s
  }

  function Setup(s: State, mode: ChargeMode, hlc: bool, hlc5: bool, enforce: bool, soc: bool): State {
    s.(config := s.config.(mode := mode, hlcEnabled := hlc, hlcUse5 := hlc5, enforceHlc := enforce),
       hlcThisSession := hlc, timers := s.timers.(socTimeout := soc, socTimer := 3600000))
  }

  // ---------- Runs ----------

  datatype Step =
    | Tick(now: int)
    | PilotEvent(e: ControlPilotEvent, now: int)
    | LimitUntil(c: real, until: int, now: int) | Limit(c: real, now: int)
    | Pause | Resume | PauseWaitForPower | ResumePowerAvailable(now: int) | ReplugRequest
    | Cancel | Auth(allowed: bool, pnc: bool) | DeAuth | Disabling | Enabling | Fault | Restarting
    | ErrorSequence | Matching(started: bool) | CurrentDemandStarted
    | Configure(mode: ChargeMode, hlc: bool, hlc5: bool, enforce: bool, soc: bool)
    | CurrentDrawn(drawn: real) | DcLimits(supplied: bool)

  function Apply(s: State, step: Step): State {
    match step
    case Tick(now) => RunStateMachine(ExpireLimit(s, now), now)
    case PilotEvent(e, now) => ProcessEvent(s, e, now)
    case LimitUntil(c, until, now) => SetMaxCurrentUntil(s, c, until, now)
    case Limit(c, now) => SetMaxCurrent(s, c, now)
    case Pause => PauseCharging(s)
    case Resume => ResumeCharging(s)
    case PauseWaitForPower => PauseForPower(s)
    case ResumePowerAvailable(now) => ResumeChargingPowerAvailable(s, now)
    case ReplugRequest => Emit(s, EvseReplug)
    case Cancel => CancelTransaction(s)
    case Auth(allowed, pnc) => Authorize(s, allowed, pnc)
    case DeAuth => DeAuthorize(s)
    case Disabling => Disable(s)
    case Enabling => Enable(s)
    case Fault => SetFaulted(s)
    case Restarting => Restart(s)
    case ErrorSequence => RequestErrorSequence(s)
    case Matching(started) => s.(inputs := s.inputs.(matchingStarted := started))
    case CurrentDemandStarted => NotifyCurrentDemandStarted(s)
    case Configure(mode, hlc, hlc5, enforce, soc) => Setup(s, mode, hlc, hlc5, enforce, soc)
    case CurrentDrawn(drawn) => s.(inputs := s.inputs.(drawn := drawn))
    case DcLimits(supplied) => s.(inputs := s.inputs.(dcSupplied := supplied))
  }

  /** Any interleaving of ticks, events and commands. */
  function Run(s: State, steps: seq<Step>): State
    decreases |steps|
  {
    if steps == [] then s else Apply(Run(s, steps[..|steps| - 1]), steps[|steps| - 1])
  }
}
