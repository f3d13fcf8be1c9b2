/**
 * The state diagram of the charger and its pilot line: where every step leads from every state, what it sends, and
 * what becomes of the limit, each by conditions on the state before the step. From these tables follows what a car
 * can read off the pilot line in any run, and how charging can be reached at all.
 */
module ChargerDiagram {
  import opened DutyCycle
  import opened ChargerSpec
  import opened Wrappers
  import opened ChargerSafety
  import opened ChargerLedger

  // ---------- Where a step leads ----------

  /** The limit in force at a time; it counts as 0 A once it has expired. */
  function LimitNow(s: State, now: int): real {
    if s.validUntil < now then 0.0 else s.maxCurrent
  }

  /** The state with the limit that is in force. */
  function InForceAt(s: State, now: int): State {
    s.(maxCurrent := LimitNow(s, now))
  }

  predicate IsNew(s: State) {
    s.last != s.current
  }

  /** Digital communication asks for 5 percent: always in DC mode, in AC mode if it is configured. */
  predicate AsksForFive(c: Config) {
    c.mode == DC || (c.hlcEnabled && c.hlcUse5)
  }

  predicate UsesHlc(s: State, isNew: bool) {
    if isNew && s.config.mode == AC then s.config.hlcEnabled else s.hlcThisSession
  }

  predicate UsesFive(s: State, isNew: bool) {
    if isNew then AsksForFive(s.config) else s.use5ThisSession
  }

  /** An authorized charger goes on, in DC mode only with a supply; a session opened just now is not authorized. */
  predicate GoesOn(s: State, isNew: bool) {
    s.authorized && (isNew ==> s.sessionActive) && (s.config.mode == DC ==> s.inputs.dcSupplied)
  }

  /** Where an authorized charger goes from WaitingForAuthentication. */
  function AuthorizedLeads(s: State, isNew: bool): EvseState {
    if s.pnc || s.config.mode == DC || !UsesHlc(s, isNew) || s.config.enforceHlc then PrepareCharging
    else if !s.inputs.matchingStarted then TStepEF
    else if UsesFive(s, isNew) then TStepX1
    else PrepareCharging
  }

  /** The car has drawn more than ten percent above the limit for seven seconds. */
  predicate DrawsTooMuch(s: State, now: int) {
    && s.inputs.drawn > s.maxCurrent * 1.1
    && s.timers.overCurrent && now - s.timers.overSince >= 7000
  }

  predicate Passed(s: State, isNew: bool, ms: int, now: int) {
    !isNew && now - s.timers.startedAt >= ms
  }

  /** Where a state leads in a tick; isNew says it was entered since the last one. */
  function StateLeads(s: State, isNew: bool, now: int): EvseState {
    match s.current
    case WaitingForAuthentication => if GoesOn(s, isNew) then AuthorizedLeads(s, isNew) else WaitingForAuthentication
    case TStepEF => if Passed(s, isNew, 4000, now) then s.back.stateEF else TStepEF
    case TStepX1 => if Passed(s, isNew, 3000, now) then s.back.stateX1 else TStepX1
    case Charging =>
      if s.config.mode == DC then Charging
      else if DrawsTooMuch(s, now) then Error
      else if s.maxCurrent > 5.9 then Charging
      else WaitingForEnergy
    case ChargingPausedEV =>
      if s.config.mode == DC then (if isNew then StoppingCharging else ChargingPausedEV)
      else if DrawsTooMuch(s, now) then Error
      else ChargingPausedEV
    case StoppingCharging => if isNew && s.config.mode == AC then Finished else StoppingCharging
    case Finished => Idle
    case _ => s.current
  }

  predicate IsError(e: ControlPilotEvent) {
    || e == ErrorE || e == ErrorDF || e == ErrorRelais || e == ErrorRCD || e == ErrorVentilationNotAvailable
    || e == ErrorOverCurrent
  }

  /** Events that act in any state. */
  predicate ActsAnywhere(e: ControlPilotEvent) {
    IsError(e) || e == EvseReplugStarted || e == EvseReplugFinished || e == CarUnplugged
  }

  function EventLeads(s: State, e: ControlPilotEvent, now: int): EvseState {
    if IsError(e) then Error
    else if e == EvseReplugStarted then Replug
    else if e == EvseReplugFinished then WaitingForAuthentication
    else if e == CarUnplugged then (if s.config.mode == AC then StoppingCharging else Finished)
    else if s.current == Idle && e.CarPluggedIn? then WaitingForAuthentication
    else if s.current == PrepareCharging && s.config.mode == AC && e == CarRequestedPower then
      if Powered(s, now) then Charging else WaitingForEnergy
    else if s.current == PrepareCharging && s.config.mode == DC && e == CarRequestedStopPower then StoppingCharging
    else if s.current == Charging && e == CarRequestedStopPower then ChargingPausedEV
    else if s.current == ChargingPausedEV && e == CarRequestedPower then Charging
    else s.current
  }

  /** Where a step leads. */
  function Leads(s: State, step: Step): EvseState {
    match step
    case Tick(now) => if RunsOut(s) then s.current else StateLeads(InForceAt(s, now), IsNew(s), now)
    case PilotEvent(e, now) => EventLeads(s, e, now)
    case Pause => if s.current == Charging then ChargingPausedEVSE else s.current
    case Resume => if s.current == ChargingPausedEVSE && s.transactionActive then WaitingForEnergy else s.current
    case PauseWaitForPower => if s.current == Charging then WaitingForEnergy else s.current
    case ResumePowerAvailable(now) =>
      if s.current == WaitingForEnergy && s.transactionActive && Powered(s, now) then Charging else s.current
    case Cancel =>
      if !s.transactionActive then s.current
      else if s.config.mode == DC then StoppingCharging else ChargingPausedEVSE
    case Disabling => Disabled
    case Enabling => if s.current == Disabled then Idle else s.current
    case Fault => Faulted
    case Restarting => if s.current == Finished then Idle else s.current
    case ErrorSequence => if s.current == WaitingForAuthentication then TStepEF else s.current
    case CurrentDemandStarted => if s.current == PrepareCharging then Charging else s.current
    case _ => s.current
  }

  // ---------- The diagram is that of the code ----------

  predicate SameTimers(s: Timers, t: Timers, isNew: bool) {
    && t.overCurrent == s.overCurrent && t.overSince == s.overSince && t.lastPwmUpdate == s.lastPwmUpdate
    && (!isNew ==> t.startedAt == s.startedAt)
  }

  /** State r is s but for what a tick sets before the state itself runs; an expired limit is zero. */
  predicate Readied(s: State, r: State, isNew: bool, now: int) {
    && r.current == r.last == s.current && r.trace == s.trace && r.transactionActive == s.transactionActive
    && r.sessionActive == s.sessionActive && r.authorized == s.authorized && r.pnc == s.pnc
    && r.hlcThisSession == s.hlcThisSession && r.use5ThisSession == s.use5ThisSession && r.config == s.config
    && r.inputs == s.inputs && r.maxCurrent == s.maxCurrent && r.validUntil == s.validUntil && r.lastDc == s.lastDc
    && r.back == s.back && SameTimers(s.timers, r.timers, isNew) && (isNew ==> r.timers.startedAt == now)
    && (s.validUntil < now ==> s.maxCurrent == 0.0)
  }

  ghost function Ready(s: State, now: int): State {
    EnterState(BeginTick(ExpireLimit(s, now)), IsNew(s), now)
  }

  lemma Readies(s: State, now: int)
    ensures Readied(InForceAt(s, now), Ready(s, now), IsNew(s), now)
  {
  }

  lemma BegunTick(s: State)
    ensures CountedOut(BeginTick(s)) <==> RunsOut(s)
  {
  }

  lemma TickRuns(s: State, now: int)
    ensures !RunsOut(s) ==> Apply(s, Tick(now)) == OnState(Ready(s, now), IsNew(s), now)
    ensures RunsOut(s) ==> Apply(s, Tick(now)) == StopCounting(BeginTick(ExpireLimit(s, now)))
  {
    ExpiredTick(s, now);
    BegunTick(ExpireLimit(s, now));
    MachineRuns(ExpireLimit(s, now), now);
  }

  lemma ExpiredTick(s: State, now: int)
    ensures var e := ExpireLimit(s, now); (IsNew(e) <==> IsNew(s)) && (RunsOut(e) <==> RunsOut(s))
  {
  }

  lemma MachineRuns(s: State, now: int)
    ensures RunStateMachine(s, now) ==
      if CountedOut(BeginTick(s)) then StopCounting(BeginTick(s))
      else OnState(EnterState(BeginTick(s), IsNew(s), now), IsNew(s), now)
  {
  }

  lemma PwmStays(s: State, dc: real, now: int)
    ensures UpdatePwm(s, dc, now).current == s.current && UpdatePwmIfChanged(s, dc, now).current == s.current
    ensures UpdatePwmSlowly(s, dc, now).current == s.current
  {
  }

  lemma KeepStays(s: State, isNew: bool, e: SessionEvent, now: int)
    ensures KeepCharging(s, isNew, e, now).current == s.current
  {
    PwmStays(Emit(Announce(s, e), AllowPowerOn(true)), if s.use5ThisSession then PWM_5_PERCENT
                                                       else AmpereToDutyCycle(s.maxCurrent), now);
    PwmStays(s, AmpereToDutyCycle(s.maxCurrent), now);
  }

  /** What a state shows and what duty cycles depend on, but for its name. */
  predicate Alike(s: State, r: State) {
    && r.maxCurrent == s.maxCurrent && r.trace == s.trace && r.use5ThisSession == s.use5ThisSession
    && r.lastDc == s.lastDc && r.timers.lastPwmUpdate == s.timers.lastPwmUpdate && r.last == s.last
    && r.validUntil == s.validUntil
  }

  lemma OverCurrentSeen(s: State, now: int)
    ensures CheckSoftOverCurrent(s, now).current == if DrawsTooMuch(s, now) then Error else s.current
    ensures Alike(s, CheckSoftOverCurrent(s, now))
  {
  }

  lemma Expired(s: State, now: int)
    requires s.validUntil < now ==> s.maxCurrent == 0.0
    ensures Alike(s, ExpireLimit(s, now)) && ExpireLimit(s, now).current == s.current
  {
  }

  /** Watching the current and the limit. */
  lemma Watched(s: State, now: int)
    requires s.validUntil < now ==> s.maxCurrent == 0.0
    ensures var r := ExpireLimit(CheckSoftOverCurrent(s, now), now);
      Alike(s, r) && r.current == if DrawsTooMuch(s, now) then Error else s.current
  {
    OverCurrentSeen(s, now);
    Expired(CheckSoftOverCurrent(s, now), now);
  }

  lemma ChargingLeads(s: State, isNew: bool, now: int)
    requires s.current == Charging && (s.validUntil < now ==> s.maxCurrent == 0.0)
    ensures OnCharging(s, isNew, now).current == StateLeads(s, isNew, now)
  {
    Watched(s, now);
    KeepStays(ExpireLimit(CheckSoftOverCurrent(s, now), now), isNew && s.last != PrepareCharging, ChargingResumed, now);
  }

  lemma PausedEVLeads(s: State, isNew: bool, now: int)
    requires s.current == ChargingPausedEV && (s.validUntil < now ==> s.maxCurrent == 0.0)
    ensures OnPausedEV(s, isNew, now).current == StateLeads(s, isNew, now)
  {
    Watched(s, now);
    KeepStays(ExpireLimit(CheckSoftOverCurrent(s, now), now), isNew, PausedByEV, now);
  }

  /** What entering the state decides on is left as it was, but for the session and the mode. */
  lemma Entering(s: State, now: int)
    requires s.last == s.current == WaitingForAuthentication
    ensures var r := EnterWaiting(s, now);
      && r.current == s.current && r.authorized == (s.authorized && s.sessionActive) && r.pnc == s.pnc
      && r.config == s.config && r.inputs == s.inputs
      && r.use5ThisSession == AsksForFive(s.config) && r.hlcThisSession == UsesHlc(s, true)
  {
  }

  lemma ProceedLeads(s: State)
    ensures Proceed(s).current == AuthorizedLeads(s, false)
  {
  }

  lemma StartStays(s: State)
    ensures var r := StartTransaction(s); AuthorizedLeads(r, false) == AuthorizedLeads(s, false)
  {
  }

  lemma WaitingLeads(s: State, isNew: bool, now: int)
    requires s.last == s.current == WaitingForAuthentication
    ensures OnWaiting(s, isNew, now).current == StateLeads(s, isNew, now)
  {
    var s1 := if isNew then EnterWaiting(s, now) else s;
    if isNew {
      Entering(s, now);
    }
    assert AuthorizedLeads(s1, false) == AuthorizedLeads(s, isNew);
    StartStays(s1);
    ProceedLeads(StartTransaction(s1));
  }

  lemma PrepareStays(s: State, isNew: bool, now: int)
    ensures OnPrepare(s, isNew, now).current == s.current
  {
    var s0 := Emit(Announce(s, PrepareChargingEvent), AllowPowerOn(true));
    var dc := if s.use5ThisSession then PWM_5_PERCENT else AmpereToDutyCycle(0.0);
    PwmStays(s0, dc, now);
    var s1 := if !isNew then s else UpdatePwm(s0, dc, now);
    PwmStays(s1, AmpereToDutyCycle(s1.maxCurrent), now);
  }

  lemma PausesLead(s: State, isNew: bool, now: int)
    requires isNew ==> s.timers.startedAt == now
    ensures s.current == TStepEF ==> OnTStepEF(s, isNew, now).current == StateLeads(s, isNew, now)
    ensures s.current == TStepX1 ==> OnTStepX1(s, isNew, now).current == StateLeads(s, isNew, now)
  {
  }

  lemma EndsLead(s: State, isNew: bool, now: int)
    ensures s.current == StoppingCharging ==> OnStopping(s, isNew).current == StateLeads(s, isNew, now)
    ensures s.current == Finished ==> OnFinished(s, isNew).current == Idle
  {
    var s1 := Announce(s, Stopping);
    assert StopTransactionIfActive(s1).current == s.current;
  }

  lemma StaysPut(s: State, isNew: bool)
    ensures OnIdle(s, isNew).current == s.current
    ensures OnPausedEVSE(s, isNew).current == s.current && OnWaitingForEnergy(s, isNew).current == s.current
  {
  }

  lemma RestLeads(s: State, isNew: bool, now: int)
    requires s.current == Disabled || s.current == Replug || s.current == Error || s.current == Faulted
    ensures OnState(s, isNew, now).current == s.current
  {
  }

  lemma OnStateLeads(s: State, isNew: bool, now: int)
    requires s.last == s.current && (isNew ==> s.timers.startedAt == now)
    requires s.validUntil < now ==> s.maxCurrent == 0.0
    ensures OnState(s, isNew, now).current == StateLeads(s, isNew, now)
  {
    match s.current
    case WaitingForAuthentication => WaitingLeads(s, isNew, now);
    case Charging => ChargingLeads(s, isNew, now);
    case ChargingPausedEV => PausedEVLeads(s, isNew, now);
    case PrepareCharging => PrepareStays(s, isNew, now);
    case TStepEF => PausesLead(s, isNew, now);
    case TStepX1 => PausesLead(s, isNew, now);
    case Idle => StaysPut(s, isNew);
    case ChargingPausedEVSE => StaysPut(s, isNew);
    case WaitingForEnergy => StaysPut(s, isNew);
    case StoppingCharging => EndsLead(s, isNew, now);
    case Finished => EndsLead(s, isNew, now);
    case _ => RestLeads(s, isNew, now);
  }

  lemma ReadiedLeads(s: State, r: State, isNew: bool, now: int)
    requires Readied(s, r, isNew, now)
    ensures StateLeads(r, isNew, now) == StateLeads(s, isNew, now)
  {
  }

  lemma TickLeads(s: State, now: int)
    ensures Apply(s, Tick(now)).current == Leads(s, Tick(now))
  {
    TickRuns(s, now);
    if !RunsOut(s) {
      Readies(s, now);
      OnStateLeads(Ready(s, now), IsNew(s), now);
      ReadiedLeads(InForceAt(s, now), Ready(s, now), IsNew(s), now);
    }
  }

  lemma IndependentLeads(s: State, e: ControlPilotEvent)
    ensures EventIndependent(s, e).current == if ActsAnywhere(e) then EventLeads(s, e, 0) else s.current
    ensures !ActsAnywhere(e) ==> EventIndependent(s, e) == s
  {
  }

  lemma RequestLeads(s: State, now: int)
    ensures RequestPower(s, now).current == if Powered(s, now) then Charging else WaitingForEnergy
  {
  }

  /** In preparation in AC mode, every event starts charging; a request for power asks for the limit. */
  lemma PreparedEvent(s: State, e: ControlPilotEvent, now: int)
    requires s.current == PrepareCharging && s.config.mode == AC
    ensures var s1 := Announce(s, ChargingStarted);
      EventInState(s, e, now) == if e.CarRequestedPower? then RequestPower(s1, now) else s1
  {
  }

  predicate Plugs(s: State, e: ControlPilotEvent) {
    s.current == Idle && e.CarPluggedIn?
  }

  /** Otherwise an event only leads somewhere, but for the cable of a car that is plugged in. */
  lemma PlainEvent(s: State, e: ControlPilotEvent, now: int)
    requires !(s.current == PrepareCharging && s.config.mode == AC)
    ensures EventInState(s, e, now) ==
      Go(if Plugs(s, e) then s.(inputs := s.inputs.(cable := e.ampacity)) else s, EventInState(s, e, now).current)
  {
  }

  lemma AnywhereEvent(s: State, e: ControlPilotEvent)
    ensures EventIndependent(s, e) ==
      Go(if s.current == Error && e == CarUnplugged then Announce(s, AllErrorsCleared) else s,
         EventIndependent(s, e).current)
  {
    if e == CarUnplugged {
      var s1 := if s.current == Error then Announce(s, AllErrorsCleared) else s;
      assert EventIndependent(s, e) == Go(s1, if s.config.mode == AC then StoppingCharging else Finished);
    } else if ActsAnywhere(e) {
      assert EventIndependent(s, e) == Go(s, EventLeads(s, e, 0));
    } else {
      assert EventIndependent(s, e) == s;
    }
  }

  lemma PreparedLeads(s: State, e: ControlPilotEvent, now: int)
    requires s.current == PrepareCharging
    ensures EventInState(s, e, now).current == if ActsAnywhere(e) then s.current else EventLeads(s, e, now)
  {
    if s.config.mode == AC {
      PreparedEvent(s, e, now);
      RequestLeads(Announce(s, ChargingStarted), now);
    } else {
      assert EventInState(s, e, now) == if e.CarRequestedStopPower? then Go(s, StoppingCharging) else s;
    }
  }

  lemma InStateLeads(s: State, e: ControlPilotEvent, now: int)
    ensures EventInState(s, e, now).current == if ActsAnywhere(e) then s.current else EventLeads(s, e, now)
  {
    if s.current == PrepareCharging {
      PreparedLeads(s, e, now);
    } else if s.current in {Idle, Charging, ChargingPausedEV} {
      CarLeads(s, e, now);
    } else {
      NothingLeads(s, e, now);
    }
  }

  lemma CarLeads(s: State, e: ControlPilotEvent, now: int)
    requires s.current == Idle || s.current == Charging || s.current == ChargingPausedEV
    ensures EventInState(s, e, now).current == if ActsAnywhere(e) then s.current else EventLeads(s, e, now)
  {
  }

  lemma NothingLeads(s: State, e: ControlPilotEvent, now: int)
    requires s.current !in {Idle, PrepareCharging, Charging, ChargingPausedEV}
    ensures EventInState(s, e, now) == s
    ensures !ActsAnywhere(e) ==> EventLeads(s, e, now) == s.current
  {
  }

  lemma EventsLead(s: State, e: ControlPilotEvent, now: int)
    ensures Apply(s, PilotEvent(e, now)).current == EventLeads(s, e, now)
  {
    IndependentLeads(s, e);
    InStateLeads(EventIndependent(s, e), e, now);
  }

  lemma CommandsLead(s: State, step: Step)
    requires !step.Tick? && !step.PilotEvent?
    ensures Apply(s, step).current == Leads(s, step)
  {
  }

  /** The state diagram: where every step leads from every state. */
  lemma LeadsExactly(s: State, step: Step)
    ensures Apply(s, step).current == Leads(s, step)
  {
    match step
    case Tick(now) => TickLeads(s, now);
    case PilotEvent(e, now) => EventsLead(s, e, now);
    case _ => CommandsLead(s, step);
  }

  // ---------- What a step sends ----------

  function FollowedBy(t: Trace, yes: bool, o: Output): Trace {
    if yes then Then(t, o) else t
  }

  function Ended(t: Trace, active: bool): Trace {
    FollowedBy(FollowedBy(t, active, Signal(ChargingFinished)), active, Signal(TransactionFinished))
  }

  /** The duty cycle for the limit, or 5 percent. */
  function Duty(s: State): real {
    if s.use5ThisSession then 0.05 else AmpereToDutyCycle(s.maxCurrent)
  }

  function EntryWaitingSends(s: State): Trace {
    var asked := Then(FollowedBy(Then(s.trace, AllowPowerOn(false)), !s.sessionActive, Signal(SessionStarted)),
                      Signal(AuthRequired));
    FollowedBy(FollowedBy(asked, AsksForFive(s.config), PwmOn(0.05)), GoesOn(s, true), Signal(TransactionStarted))
  }

  function EntryPrepareSends(s: State): Trace {
    var on := Then(Then(s.trace, Signal(PrepareChargingEvent)), AllowPowerOn(true));
    if s.use5ThisSession then Then(on, PwmOn(0.05))
    else FollowedBy(Then(on, PwmOn(1.0)), Duty(s) != 1.0, PwmOn(Duty(s)))
  }

  function SwitchedOn(s: State, e: SessionEvent): Trace {
    Then(Then(Then(s.trace, Signal(e)), AllowPowerOn(true)), PwmOn(Duty(s)))
  }

  /** What a tick sends on entering a state. */
  function EntrySends(s: State): Trace {
    var t := s.trace;
    match s.current
    case Disabled => Then(Then(t, Signal(DisabledEvent)), PwmF)
    case Replug => Then(t, Signal(ReplugStarted))
    case Idle =>
      FollowedBy(FollowedBy(Then(t, PwmOff), s.sessionActive, Signal(SessionFinished)), s.transactionActive, Dropped)
    case WaitingForAuthentication => EntryWaitingSends(s)
    case TStepEF => Then(t, PwmF)
    case TStepX1 => Then(t, PwmOff)
    case PrepareCharging => EntryPrepareSends(s)
    case Charging => if s.config.mode == AC && s.maxCurrent > 5.9 then SwitchedOn(s, ChargingResumed) else t
    case ChargingPausedEV =>
      if s.config.mode == DC then Then(t, AllowPowerOn(false))
      else if s.maxCurrent > 5.9 then SwitchedOn(s, PausedByEV)
      else t
    case ChargingPausedEVSE =>
      FollowedBy(Then(Then(t, Signal(PausedByEVSE)), PwmOff), s.config.mode == DC, DcSupplyOff)
    case WaitingForEnergy => FollowedBy(Then(t, Signal(WaitingForEnergyEvent)), !s.use5ThisSession, PwmOff)
    case StoppingCharging =>
      Then(Ended(Then(t, Signal(Stopping)), s.transactionActive), if s.config.mode == DC then DcSupplyOff else PwmOff)
    case Finished => Then(Then(Ended(t, s.transactionActive), Signal(SessionFinished)), PwmF)
    case Error => Then(Then(t, Signal(ErrorEvent)), PwmOff)
    case Faulted => Then(Then(t, Signal(PermanentFaultEvent)), PwmF)
  }

  function Restored(dc: real): Output {
    if dc == 0.0 then PwmOff else PwmOn(dc)
  }

  /** A new limit is followed at once while charging is prepared, and five seconds after the last one later on. */
  predicate Follows(s: State, now: int) {
    && !s.use5ThisSession && Duty(s) != s.lastDc
    && (|| s.current == PrepareCharging
        || ((s.current == Charging || s.current == ChargingPausedEV) && s.config.mode == AC && s.maxCurrent > 5.9
            && now - s.timers.lastPwmUpdate >= 5000))
  }

  /** What a tick sends in a state that was entered before. */
  function StaySends(s: State, now: int): Trace {
    match s.current
    case WaitingForAuthentication => FollowedBy(s.trace, GoesOn(s, false), Signal(TransactionStarted))
    case TStepEF => FollowedBy(s.trace, Passed(s, false, 4000, now), Restored(s.back.pwmEF))
    case TStepX1 => FollowedBy(s.trace, Passed(s, false, 3000, now), Restored(s.back.pwmX1))
    case _ => FollowedBy(s.trace, Follows(s, now), PwmOn(Duty(s)))
  }

  function StateSends(s: State, isNew: bool, now: int): Trace {
    if isNew then EntrySends(s) else StaySends(s, now)
  }

  function EventSends(s: State, e: ControlPilotEvent): Trace {
    if s.current == Error && e == CarUnplugged then Then(s.trace, Signal(AllErrorsCleared))
    else FollowedBy(s.trace, s.current == PrepareCharging && s.config.mode == AC && !ActsAnywhere(e),
                    Signal(ChargingStarted))
  }

  /** All that has been sent after a step. */
  function Sends(s: State, step: Step): Trace {
    var t := s.trace;
    match step
    case Tick(now) => if RunsOut(s) then Then(t, SoCTimeout) else StateSends(InForceAt(s, now), IsNew(s), now)
    case PilotEvent(e, now) => EventSends(s, e)
    case ReplugRequest => Then(t, EvseReplug)
    case Cancel => Ended(t, s.transactionActive)
    case Auth(allowed, pnc) =>
      if allowed then FollowedBy(t, !s.sessionActive, Signal(SessionStarted))
      else FollowedBy(t, s.sessionActive, Signal(SessionFinished))
    case DeAuth =>
      FollowedBy(t, s.sessionActive && s.authorized
                    && s.current in {Disabled, Idle, WaitingForAuthentication, Error, Faulted}, Signal(SessionFinished))
    case Disabling => Then(t, Signal(DisabledEvent))
    case Enabling => FollowedBy(t, s.current == Disabled, Signal(Enabled))
    case Fault => Then(t, Signal(PermanentFaultEvent))
    case CurrentDemandStarted => FollowedBy(t, s.current == PrepareCharging, Signal(ChargingStarted))
    case _ => t
  }

  lemma PwmSends(s: State, dc: real, now: int)
    ensures UpdatePwm(s, dc, now).trace == Then(s.trace, PwmOn(dc))
    ensures UpdatePwm(s, dc, now).use5ThisSession == s.use5ThisSession
    ensures UpdatePwm(s, dc, now).maxCurrent == s.maxCurrent && UpdatePwm(s, dc, now).lastDc == dc
    ensures UpdatePwmIfChanged(s, dc, now).trace == FollowedBy(s.trace, dc != s.lastDc, PwmOn(dc))
    ensures UpdatePwmSlowly(s, dc, now).trace ==
      FollowedBy(s.trace, dc != s.lastDc && now - s.timers.lastPwmUpdate >= 5000, PwmOn(dc))
  {
  }

  lemma EmitSends(s: State, o: Output)
    ensures var r := Emit(s, o);
      && r.trace == Then(s.trace, o) && r.use5ThisSession == s.use5ThisSession && r.maxCurrent == s.maxCurrent
      && r.lastDc == s.lastDc && r.config == s.config && r.transactionActive == s.transactionActive
      && r.sessionActive == s.sessionActive
  {
  }

  lemma NoLimit()
    ensures AmpereToDutyCycle(0.0) == 1.0
  {
  }

  lemma PrepareSends(s: State, isNew: bool, now: int)
    requires s.current == PrepareCharging
    ensures OnPrepare(s, isNew, now).trace == StateSends(s, isNew, now)
  {
    NoLimit();
    EmitSends(s, Signal(PrepareChargingEvent));
    EmitSends(Announce(s, PrepareChargingEvent), AllowPowerOn(true));
    var s0 := Emit(Announce(s, PrepareChargingEvent), AllowPowerOn(true));
    var dc := if s.use5ThisSession then PWM_5_PERCENT else AmpereToDutyCycle(0.0);
    PwmSends(s0, dc, now);
    var s1 := if !isNew then s else UpdatePwm(s0, dc, now);
    PwmSends(s1, AmpereToDutyCycle(s1.maxCurrent), now);
  }

  lemma KeepSends(s: State, isNew: bool, e: SessionEvent, now: int)
    ensures KeepCharging(s, isNew, e, now).trace ==
      if isNew then SwitchedOn(s, e)
      else FollowedBy(s.trace, !s.use5ThisSession && Duty(s) != s.lastDc && now - s.timers.lastPwmUpdate >= 5000,
                      PwmOn(Duty(s)))
  {
    if isNew {
      EmitSends(s, Signal(e));
      EmitSends(Announce(s, e), AllowPowerOn(true));
      PwmSends(Emit(Announce(s, e), AllowPowerOn(true)), Duty(s), now);
    } else {
      PwmSends(s, AmpereToDutyCycle(s.maxCurrent), now);
    }
  }

  lemma ChargingSends(s: State, isNew: bool, now: int)
    requires s.current == s.last == Charging && (s.validUntil < now ==> s.maxCurrent == 0.0)
    ensures OnCharging(s, isNew, now).trace == StateSends(s, isNew, now)
  {
    Watched(s, now);
    KeepSends(ExpireLimit(CheckSoftOverCurrent(s, now), now), isNew, ChargingResumed, now);
  }

  lemma PausedEVSends(s: State, isNew: bool, now: int)
    requires s.current == ChargingPausedEV && (s.validUntil < now ==> s.maxCurrent == 0.0)
    ensures OnPausedEV(s, isNew, now).trace == StateSends(s, isNew, now)
  {
    if s.config.mode == DC {
      EmitSends(s, AllowPowerOn(false));
    } else {
      var w := ExpireLimit(CheckSoftOverCurrent(s, now), now);
      Watched(s, now);
      KeepSends(w, isNew, PausedByEV, now);
      assert OnPausedEV(s, isNew, now) ==
        if HasPower(w) then KeepCharging(w, isNew, PausedByEV, now) else PauseForPower(w);
    }
  }

  lemma SessionSends(s: State, allowed: bool, pnc: bool)
    ensures StartSession(s).trace == Then(s.trace, Signal(SessionStarted))
    ensures StopSession(s).trace == Then(s.trace, Signal(SessionFinished))
    ensures Authorize(s, allowed, pnc).trace ==
      if allowed then FollowedBy(s.trace, !s.sessionActive, Signal(SessionStarted))
      else FollowedBy(s.trace, s.sessionActive, Signal(SessionFinished))
    ensures Authorize(s, allowed, pnc).transactionActive == s.transactionActive
  {
  }

  lemma EnterSends(s: State, now: int)
    requires s.last == s.current == WaitingForAuthentication
    ensures EnterWaiting(s, now).trace ==
      FollowedBy(Then(FollowedBy(Then(s.trace, AllowPowerOn(false)), !s.sessionActive, Signal(SessionStarted)),
                      Signal(AuthRequired)), AsksForFive(s.config), PwmOn(0.05))
  {
    var s1 := Emit(s, AllowPowerOn(false));
    EmitSends(s, AllowPowerOn(false));
    SessionSends(s1, true, false);
    var s2 := if s1.sessionActive then s1 else StartSession(s1);
    EmitSends(s2, Signal(AuthRequired));
    PwmSends(EnterMode(Announce(s2, AuthRequired)), 0.05, now);
  }

  lemma ProceedSends(s: State)
    ensures Proceed(StartTransaction(s)).trace == Then(s.trace, Signal(TransactionStarted))
  {
  }

  lemma WaitingSends(s: State, isNew: bool, now: int)
    requires s.last == s.current == WaitingForAuthentication
    ensures OnWaiting(s, isNew, now).trace == StateSends(s, isNew, now)
  {
    if isNew {
      Entering(s, now);
      EnterSends(s, now);
    }
    ProceedSends(if isNew then EnterWaiting(s, now) else s);
  }

  lemma IdleSends(s: State, isNew: bool, now: int)
    requires s.current == Idle
    ensures OnIdle(s, isNew).trace == StateSends(s, isNew, now)
  {
    EmitSends(s, PwmOff);
    SessionSends(Emit(s, PwmOff), false, false);
  }

  lemma LeavingSends(s: State, dc: real, target: EvseState, now: int)
    ensures Go(if dc == 0.0 then Emit(s, PwmOff) else UpdatePwm(s, dc, now), target).trace ==
      Then(s.trace, Restored(dc))
  {
  }

  lemma TStepEFSends(s: State, isNew: bool, now: int)
    requires s.current == TStepEF && (isNew ==> s.timers.startedAt == now)
    ensures OnTStepEF(s, isNew, now).trace == StateSends(s, isNew, now)
  {
    LeavingSends(s, s.back.pwmEF, s.back.stateEF, now);
  }

  lemma TStepX1Sends(s: State, isNew: bool, now: int)
    requires s.current == TStepX1 && (isNew ==> s.timers.startedAt == now)
    ensures OnTStepX1(s, isNew, now).trace == StateSends(s, isNew, now)
  {
    LeavingSends(s, s.back.pwmX1, s.back.stateX1, now);
  }

  lemma EndedSends(s: State)
    ensures StopTransactionIfActive(s).trace == Ended(s.trace, s.transactionActive)
    ensures StopTransaction(s).trace == Ended(s.trace, true)
  {
  }

  lemma StoppingSends(s: State, isNew: bool, now: int)
    requires s.current == StoppingCharging
    ensures OnStopping(s, isNew).trace == StateSends(s, isNew, now)
  {
    EmitSends(s, Signal(Stopping));
    EndedSends(Announce(s, Stopping));
  }

  lemma FinishedSends(s: State, isNew: bool, now: int)
    requires s.current == Finished
    ensures OnFinished(s, isNew).trace == StateSends(s, isNew, now)
  {
    EndedSends(s);
    SessionSends(StopTransactionIfActive(s), false, false);
  }

  lemma RestSends(s: State, isNew: bool, now: int)
    requires s.current in {Disabled, Replug, Error, Faulted, ChargingPausedEVSE, WaitingForEnergy}
    ensures OnState(s, isNew, now).trace == StateSends(s, isNew, now)
  {
  }

  lemma OnStateSends(s: State, isNew: bool, now: int)
    requires s.last == s.current && (isNew ==> s.timers.startedAt == now)
    requires s.validUntil < now ==> s.maxCurrent == 0.0
    ensures OnState(s, isNew, now).trace == StateSends(s, isNew, now)
  {
    match s.current
    case WaitingForAuthentication => WaitingSends(s, isNew, now);
    case Charging => ChargingSends(s, isNew, now);
    case ChargingPausedEV => PausedEVSends(s, isNew, now);
    case PrepareCharging => PrepareSends(s, isNew, now);
    case TStepEF => TStepEFSends(s, isNew, now);
    case TStepX1 => TStepX1Sends(s, isNew, now);
    case Idle => IdleSends(s, isNew, now);
    case StoppingCharging => StoppingSends(s, isNew, now);
    case Finished => FinishedSends(s, isNew, now);
    case _ => RestSends(s, isNew, now);
  }

  lemma ReadiedSends(s: State, r: State, isNew: bool, now: int)
    requires Readied(s, r, isNew, now)
    ensures StateSends(r, isNew, now) == StateSends(s, isNew, now)
  {
  }

  lemma TickSends(s: State, now: int)
    ensures Apply(s, Tick(now)).trace == Sends(s, Tick(now))
  {
    TickRuns(s, now);
    if !RunsOut(s) {
      Readies(s, now);
      OnStateSends(Ready(s, now), IsNew(s), now);
      ReadiedSends(InForceAt(s, now), Ready(s, now), IsNew(s), now);
    }
  }

  lemma RequestSends(s: State, now: int)
    ensures RequestPower(s, now).trace == s.trace
  {
  }

  lemma InStateSends(s: State, e: ControlPilotEvent, now: int)
    ensures EventInState(s, e, now).trace ==
      FollowedBy(s.trace, s.current == PrepareCharging && s.config.mode == AC, Signal(ChargingStarted))
  {
    if s.current == PrepareCharging && s.config.mode == AC {
      PreparedEvent(s, e, now);
      RequestSends(Announce(s, ChargingStarted), now);
    } else {
      PlainEvent(s, e, now);
    }
  }

  lemma AnywhereSends(s: State, e: ControlPilotEvent)
    ensures EventIndependent(s, e).trace ==
      FollowedBy(s.trace, s.current == Error && e == CarUnplugged, Signal(AllErrorsCleared))
  {
    AnywhereEvent(s, e);
  }

  lemma EventsSend(s: State, e: ControlPilotEvent, now: int)
    ensures Apply(s, PilotEvent(e, now)).trace == EventSends(s, e)
  {
    IndependentLeads(s, e);
    AnywhereSends(s, e);
    InStateSends(EventIndependent(s, e), e, now);
  }

  lemma CommandsSend(s: State, step: Step)
    requires !step.Tick? && !step.PilotEvent?
    ensures Apply(s, step).trace == Sends(s, step)
  {
    match step
    case Auth(allowed, pnc) => SessionSends(s, allowed, pnc);
    case Cancel => EndedSends(Go(s, if s.config.mode == DC then StoppingCharging else ChargingPausedEVSE));
    case _ =>
  }

  /** All that every step sends from every state, in order. */
  lemma SendsExactly(s: State, step: Step)
    ensures Apply(s, step).trace == Sends(s, step)
  {
    match step
    case Tick(now) => TickSends(s, now);
    case PilotEvent(e, now) => EventsSend(s, e, now);
    case _ => CommandsSend(s, step);
  }
}
