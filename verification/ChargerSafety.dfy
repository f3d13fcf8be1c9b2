/**
 * What every run of the charger keeps, whatever the interleaving of ticks, control-pilot events
 * and commands: power is switched on only inside a transaction, transactions only start inside a
 * session, and every duty cycle that is put on the pilot line has a meaning.
 */
module ChargerSafety {
  import opened DutyCycle
  import opened ChargerSpec
  import opened Wrappers

  // ---------- An observer of the outputs ----------

  /** Seen from outside: is a transaction open, is a session open, and was every output allowed so far? */
  datatype Watch = Watch(transaction: bool, session: bool, safe: bool)

  /** Which outputs are allowed when a transaction or a session is open. */
  predicate Allowed(w: Watch, o: Output) {
    match o
    case AllowPowerOn(on) => on ==> w.transaction
    case PwmOn(dc) => Meaningful(dc)
    case Signal(TransactionStarted) => w.session
    case Signal(TransactionFinished) => w.transaction
    case Signal(ReplugFinished) => false
    case _ => true
  }

  function Next(w: Watch, o: Output): Watch {
    Watch(
      if o == Signal(TransactionStarted) then true
      else if o == Signal(TransactionFinished) || o == Dropped then false
      else w.transaction,
      if o == Signal(SessionStarted) then true else if o == Signal(SessionFinished) then false else w.session,
      w.safe && Allowed(w, o))
  }

  function Observe(t: Trace): Watch {
    match t
    case Empty => Watch(false, false, true)
    case Then(earlier, o) => Next(Observe(earlier), o)
  }

  // ---------- The invariant ----------

  /** States that may lead to power-on without passing through authorization again. */
  predicate LeadsToPower(current: EvseState, back: Returns) {
    || current == PrepareCharging || current == Charging
    || current == ChargingPausedEV || current == WaitingForEnergy
    || (current == TStepEF && back.stateEF == PrepareCharging)
    || (current == TStepX1 && back.stateX1 == PrepareCharging)
  }

  predicate NeedsTransaction(s: State) {
    LeadsToPower(s.current, s.back)
  }

  predicate GoodReturns(back: Returns) {
    && (back.stateEF == Faulted || back.stateEF == WaitingForAuthentication || back.stateEF == PrepareCharging)
    && (back.stateX1 == Faulted || back.stateX1 == PrepareCharging)
  }

  /** The duty cycles to return to are set by the time the pause is entered. */
  predicate GoodPause(current: EvseState, back: Returns) {
    && (current == TStepEF ==> back.pwmEF == 0.0 || back.pwmEF == PWM_5_PERCENT)
    && (current == TStepX1 ==> back.pwmX1 == 0.0)
  }

  /** The charger's flags agree with what can be seen from outside. */
  predicate Agrees(w: Watch, transactionActive: bool, sessionActive: bool, authorized: bool) {
    && w.safe
    && (transactionActive <==> w.transaction)
    && (sessionActive <==> w.session)
    && (authorized ==> sessionActive)
  }

  predicate Inv(s: State) {
    && Agrees(Observe(s.trace), s.transactionActive, s.sessionActive, s.authorized)
    && (NeedsTransaction(s) ==> s.transactionActive)
    && GoodReturns(s.back) && GoodPause(s.current, s.back)
    && 0.0 <= s.maxCurrent <= ABSOLUTE_MAX_CURRENT
  }

  /** An output that neither opens nor closes anything. */
  lemma EmitKeepsInv(s: State, o: Output)
    requires Inv(s) && Allowed(Observe(s.trace), o) && o != Dropped
    requires o.Signal? ==>
      o.event != SessionStarted && o.event != SessionFinished && o.event != TransactionStarted
      && o.event != TransactionFinished
    ensures Inv(Emit(s, o))
  {
  }

  lemma GoKeepsInv(s: State, target: EvseState)
    requires Inv(s) && target != TStepEF && target != TStepX1
    requires NeedsTransaction(Go(s, target)) ==> s.transactionActive
    ensures Inv(Go(s, target))
  {
  }

  lemma StartSessionKeepsInv(s: State)
    requires Inv(s)
    ensures Inv(StartSession(s))
  {
  }

  lemma StopSessionKeepsInv(s: State)
    requires Inv(s)
    ensures Inv(StopSession(s))
  {
  }

  lemma StartTransactionKeepsInv(s: State)
    requires Inv(s) && s.sessionActive
    ensures Inv(StartTransaction(s))
  {
  }

  lemma StopTransactionKeepsInv(s: State)
    requires Inv(s) && s.transactionActive && !NeedsTransaction(s)
    ensures Inv(StopTransaction(s))
  {
    assert Observe(Announce(s.(transactionActive := false), ChargingFinished).trace) == Observe(s.trace);
  }

  lemma AuthorizeKeepsInv(s: State, allowed: bool, pnc: bool)
    requires Inv(s)
    ensures Inv(Authorize(s, allowed, pnc))
  {
    StartSessionKeepsInv(s);
    StopSessionKeepsInv(s);
  }

  lemma PwmKeepsInv(s: State, dc: real, now: int)
    requires Inv(s) && Meaningful(dc)
    ensures Inv(UpdatePwm(s, dc, now)) && Inv(UpdatePwmIfChanged(s, dc, now)) && Inv(UpdatePwmSlowly(s, dc, now))
  {
    EmitKeepsInv(s.(lastDc := dc, timers := s.timers.(lastPwmUpdate := now)), PwmOn(dc));
  }

  // ---------- The states ----------

  lemma ModeKeepsInv(s: State)
    requires Inv(s)
    ensures Inv(EnterMode(s)) && EnterMode(s).current == s.current
  {
  }

  lemma EnterKeepsInv(s: State, now: int)
    requires Inv(s) && s.current == WaitingForAuthentication && s.last == s.current
    ensures Inv(EnterWaiting(s, now)) && EnterWaiting(s, now).current == WaitingForAuthentication
  {
    var s1 := Emit(s, AllowPowerOn(false));
    EmitKeepsInv(s, AllowPowerOn(false));
    StartSessionKeepsInv(s1);
    var s2 := if s1.sessionActive then s1 else StartSession(s1);
    assert Inv(s2) && s2.current == WaitingForAuthentication;
    EnterModeKeepsInv(s2, now);
  }

  /** The rest of entering, once there is a session. */
  ghost function Entered(s: State, now: int): State {
    var s1 := EnterMode(Announce(s, AuthRequired));
    if s1.use5ThisSession then UpdatePwm(s1, PWM_5_PERCENT, now) else s1
  }

  lemma EnterModeKeepsInv(s: State, now: int)
    requires Inv(s) && s.current == WaitingForAuthentication
    ensures Inv(Entered(s, now)) && Entered(s, now).current == WaitingForAuthentication
  {
    EmitKeepsInv(s, Signal(AuthRequired));
    var s1 := Announce(s, AuthRequired);
    ModeKeepsInv(s1);
    PwmKeepsInv(EnterMode(s1), PWM_5_PERCENT, now);
  }

  lemma ProceedKeepsInv(s: State)
    requires Inv(s) && s.transactionActive && s.current == WaitingForAuthentication
    ensures Inv(Proceed(s))
  {
    var five := s.(use5ThisSession := true);
    if s.pnc {
      assert Inv(five);
    } else if s.config.mode == DC || !s.hlcThisSession {
      GoKeepsInv(s, PrepareCharging);
    } else if s.config.enforceHlc {
      assert Inv(five);
    } else if !s.inputs.matchingStarted {
      var s1 := s.(back := s.back.(stateEF := PrepareCharging, pwmEF := 0.0), use5ThisSession := false);
      assert Inv(Go(s1, TStepEF));
    } else if s.use5ThisSession {
      var s1 := s.(back := s.back.(stateX1 := PrepareCharging, pwmX1 := 0.0), use5ThisSession := false);
      assert Inv(Go(s1, TStepX1));
    } else {
      GoKeepsInv(s, PrepareCharging);
    }
  }

  lemma WaitingKeepsInv(s: State, isNew: bool, now: int)
    requires Inv(s) && s.current == WaitingForAuthentication && s.last == s.current
    ensures Inv(OnWaiting(s, isNew, now))
  {
    EnterKeepsInv(s, now);
    var s1 := if isNew then EnterWaiting(s, now) else s;
    if s1.authorized {
      StartTransactionKeepsInv(s1);
      ProceedKeepsInv(StartTransaction(s1));
    }
  }

  /** Switching on while a transaction is active; the announcement comes first. */
  lemma PowerOnKeepsInv(s: State, e: SessionEvent)
    requires Inv(s) && s.transactionActive
    requires e == ChargingResumed || e == PausedByEV || e == PrepareChargingEvent
    ensures Inv(Emit(Announce(s, e), AllowPowerOn(true)))
  {
    EmitKeepsInv(s, Signal(e));
    EmitKeepsInv(Announce(s, e), AllowPowerOn(true));
  }

  lemma KeepChargingKeepsInv(s: State, isNew: bool, e: SessionEvent, now: int)
    requires Inv(s) && s.transactionActive && (e == ChargingResumed || e == PausedByEV)
    ensures Inv(KeepCharging(s, isNew, e, now))
  {
    LimitsAreMeaningful(s.maxCurrent);
    if isNew {
      PowerOnKeepsInv(s, e);
      var s1 := Emit(Announce(s, e), AllowPowerOn(true));
      PwmKeepsInv(s1, if s.use5ThisSession then PWM_5_PERCENT else AmpereToDutyCycle(s.maxCurrent), now);
    } else {
      PwmKeepsInv(s, AmpereToDutyCycle(s.maxCurrent), now);
    }
  }

  lemma OverCurrentKeepsInv(s: State, now: int)
    requires Inv(s) && s.transactionActive
    ensures var s1 := ExpireLimit(CheckSoftOverCurrent(s, now), now); Inv(s1) && s1.transactionActive
  {
  }

  lemma PauseKeepsInv(s: State)
    requires Inv(s)
    ensures Inv(PauseForPower(s))
  {
  }

  lemma ChargingKeepsInv(s: State, isNew: bool, now: int)
    requires Inv(s) && s.current == Charging
    ensures Inv(OnCharging(s, isNew, now))
  {
    OverCurrentKeepsInv(s, now);
    var s1 := ExpireLimit(CheckSoftOverCurrent(s, now), now);
    PauseKeepsInv(s1);
    KeepChargingKeepsInv(s1, isNew && s1.last != PrepareCharging, ChargingResumed, now);
  }

  lemma PausedEVKeepsInv(s: State, isNew: bool, now: int)
    requires Inv(s) && s.current == ChargingPausedEV
    ensures Inv(OnPausedEV(s, isNew, now))
  {
    if s.config.mode == DC {
      EmitKeepsInv(s, AllowPowerOn(false));
      GoKeepsInv(Emit(s, AllowPowerOn(false)), StoppingCharging);
    } else {
      OverCurrentKeepsInv(s, now);
      var s1 := ExpireLimit(CheckSoftOverCurrent(s, now), now);
      PauseKeepsInv(s1);
      KeepChargingKeepsInv(s1, isNew, PausedByEV, now);
    }
  }

  lemma PrepareKeepsInv(s: State, isNew: bool, now: int)
    requires Inv(s) && s.current == PrepareCharging
    ensures Inv(OnPrepare(s, isNew, now))
  {
    PowerOnKeepsInv(s, PrepareChargingEvent);
    var s0 := Emit(Announce(s, PrepareChargingEvent), AllowPowerOn(true));
    var dc := if s.use5ThisSession then PWM_5_PERCENT else AmpereToDutyCycle(0.0);
    PwmKeepsInv(s0, dc, now);
    var s1 := if !isNew then s else UpdatePwm(s0, dc, now);
    LimitsAreMeaningful(s1.maxCurrent);
    PwmKeepsInv(s1, AmpereToDutyCycle(s1.maxCurrent), now);
  }

  lemma LeaveEFKeepsInv(s: State, now: int)
    requires Inv(s) && s.current == TStepEF
    ensures Inv(LeaveEF(s, now))
  {
    if s.back.pwmEF == 0.0 {
      EmitKeepsInv(s, PwmOff);
      GoKeepsInv(Emit(s, PwmOff), s.back.stateEF);
    } else {
      PwmKeepsInv(s, s.back.pwmEF, now);
      GoKeepsInv(UpdatePwm(s, s.back.pwmEF, now), s.back.stateEF);
    }
  }

  lemma TStepEFKeepsInv(s: State, isNew: bool, now: int)
    requires Inv(s) && s.current == TStepEF
    ensures Inv(OnTStepEF(s, isNew, now))
  {
    if isNew {
      EmitKeepsInv(s, PwmF);
      LeaveEFKeepsInv(Emit(s, PwmF), now);
    } else {
      LeaveEFKeepsInv(s, now);
    }
  }

  lemma LeaveX1KeepsInv(s: State, now: int)
    requires Inv(s) && s.current == TStepX1
    ensures Inv(LeaveX1(s, now))
  {
    EmitKeepsInv(s, PwmOff);
    GoKeepsInv(Emit(s, PwmOff), s.back.stateX1);
  }

  lemma TStepX1KeepsInv(s: State, isNew: bool, now: int)
    requires Inv(s) && s.current == TStepX1
    ensures Inv(OnTStepX1(s, isNew, now))
  {
    if isNew {
      EmitKeepsInv(s, PwmOff);
      LeaveX1KeepsInv(Emit(s, PwmOff), now);
    } else {
      LeaveX1KeepsInv(s, now);
    }
  }

  lemma StoppingKeepsInv(s: State, isNew: bool)
    requires Inv(s) && s.current == StoppingCharging
    ensures Inv(OnStopping(s, isNew))
  {
    EmitKeepsInv(s, Signal(Stopping));
    var s1 := Announce(s, Stopping);
    if s1.transactionActive {
      StopTransactionKeepsInv(s1);
    }
    var s2 := StopTransactionIfActive(s1);
    EmitKeepsInv(s2, DcSupplyOff);
    EmitKeepsInv(s2, PwmOff);
    GoKeepsInv(Emit(s2, PwmOff), Finished);
  }

  lemma FinishedKeepsInv(s: State, isNew: bool)
    requires Inv(s) && s.current == Finished
    ensures Inv(OnFinished(s, isNew))
  {
    if s.transactionActive {
      StopTransactionKeepsInv(s);
    }
    var s1 := StopTransactionIfActive(s);
    StopSessionKeepsInv(s1);
    EmitKeepsInv(StopSession(s1), PwmF);
    GoKeepsInv(if isNew then Emit(StopSession(s1), PwmF) else s, Idle);
  }

  lemma DropKeepsInv(s: State)
    requires Inv(s) && !NeedsTransaction(s)
    ensures Inv(DropTransaction(s))
  {
  }

  lemma IdleKeepsInv(s: State, isNew: bool)
    requires Inv(s) && s.current == Idle
    ensures Inv(OnIdle(s, isNew))
  {
    EmitKeepsInv(s, PwmOff);
    AuthorizeKeepsInv(Emit(s, PwmOff), false, false);
    DropKeepsInv(Authorize(Emit(s, PwmOff), false, false));
  }

  /** States that only announce themselves. */
  lemma RestKeepsInv(s: State, isNew: bool, now: int)
    requires Inv(s)
    requires s.current == Disabled || s.current == Replug || s.current == Error || s.current == Faulted
    ensures Inv(OnState(s, isNew, now))
  {
    match s.current
    case Disabled =>
      EmitKeepsInv(s, Signal(DisabledEvent));
      EmitKeepsInv(Announce(s, DisabledEvent), PwmF);
    case Replug => EmitKeepsInv(s, Signal(ReplugStarted));
    case Error =>
      EmitKeepsInv(s, Signal(ErrorEvent));
      EmitKeepsInv(Announce(s, ErrorEvent), PwmOff);
    case Faulted =>
      EmitKeepsInv(s, Signal(PermanentFaultEvent));
      EmitKeepsInv(Announce(s, PermanentFaultEvent), PwmF);
  }

  lemma PausedKeepsInv(s: State, isNew: bool)
    requires Inv(s)
    ensures Inv(OnPausedEVSE(s, isNew)) && Inv(OnWaitingForEnergy(s, isNew))
  {
    EmitKeepsInv(s, Signal(PausedByEVSE));
    var s1 := Announce(s, PausedByEVSE);
    EmitKeepsInv(s1, PwmOff);
    EmitKeepsInv(Emit(s1, PwmOff), DcSupplyOff);
    EmitKeepsInv(s, Signal(WaitingForEnergyEvent));
    EmitKeepsInv(Announce(s, WaitingForEnergyEvent), PwmOff);
  }

  lemma StateKeepsInv(s: State, isNew: bool, now: int)
    requires Inv(s) && s.last == s.current
    ensures Inv(OnState(s, isNew, now))
  {
    match s.current
    case WaitingForAuthentication => WaitingKeepsInv(s, isNew, now);
    case TStepEF => TStepEFKeepsInv(s, isNew, now);
    case TStepX1 => TStepX1KeepsInv(s, isNew, now);
    case PrepareCharging => PrepareKeepsInv(s, isNew, now);
    case Charging => ChargingKeepsInv(s, isNew, now);
    case ChargingPausedEV => PausedEVKeepsInv(s, isNew, now);
    case Idle => IdleKeepsInv(s, isNew);
    case StoppingCharging => StoppingKeepsInv(s, isNew);
    case Finished => FinishedKeepsInv(s, isNew);
    case ChargingPausedEVSE => PausedKeepsInv(s, isNew);
    case WaitingForEnergy => PausedKeepsInv(s, isNew);
    case _ => RestKeepsInv(s, isNew, now);
  }

  // ---------- Events, commands and runs ----------

  lemma IndependentKeepsInv(s: State, e: ControlPilotEvent)
    requires Inv(s)
    ensures Inv(EventIndependent(s, e))
  {
    match e
    case EvseReplugStarted => GoKeepsInv(s, Replug);
    case EvseReplugFinished => GoKeepsInv(s, WaitingForAuthentication);
    case CarUnplugged => UnpluggedKeepsInv(s);
    case _ => GoKeepsInv(s, Error);
  }

  lemma UnpluggedKeepsInv(s: State)
    requires Inv(s)
    ensures Inv(EventIndependent(s, CarUnplugged))
  {
    EmitKeepsInv(s, Signal(AllErrorsCleared));
    var s1 := if s.current == Error then Announce(s, AllErrorsCleared) else s;
    GoKeepsInv(s1, if s.config.mode == AC then StoppingCharging else Finished);
  }

  lemma RequestPowerKeepsInv(s: State, now: int)
    requires Inv(s) && s.transactionActive
    ensures Inv(RequestPower(s, now))
  {
    ExpireKeepsInv(s, now);
    var s1 := Go(ExpireLimit(s, now), Charging);
    GoKeepsInv(ExpireLimit(s, now), Charging);
    PauseKeepsInv(s1);
  }

  lemma PreparedKeepsInv(s: State, e: ControlPilotEvent, now: int)
    requires Inv(s) && s.current == PrepareCharging
    ensures Inv(EventInState(s, e, now))
  {
    if s.config.mode == AC {
      EmitKeepsInv(s, Signal(ChargingStarted));
      RequestPowerKeepsInv(Announce(s, ChargingStarted), now);
    } else {
      GoKeepsInv(s, StoppingCharging);
    }
  }

  lemma EventInStateKeepsInv(s: State, e: ControlPilotEvent, now: int)
    requires Inv(s)
    ensures Inv(EventInState(s, e, now))
  {
    match s.current
    case PrepareCharging => PreparedKeepsInv(s, e, now);
    case Charging => GoKeepsInv(s, ChargingPausedEV);
    case ChargingPausedEV => GoKeepsInv(s, Charging);
    case Idle =>
      if e.CarPluggedIn? {
        GoKeepsInv(s.(inputs := s.inputs.(cable := e.ampacity)), WaitingForAuthentication);
      }
    case _ =>
  }

  lemma CancelKeepsInv(s: State)
    requires Inv(s)
    ensures Inv(CancelTransaction(s))
  {
    if s.transactionActive {
      var target := if s.config.mode == DC then StoppingCharging else ChargingPausedEVSE;
      GoKeepsInv(s, target);
      StopTransactionKeepsInv(Go(s, target));
    }
  }

  /** Commands that announce something. */
  lemma AnnouncedKeepsInv(s: State)
    requires Inv(s)
    ensures Inv(Disable(s)) && Inv(Enable(s)) && Inv(SetFaulted(s)) && Inv(NotifyCurrentDemandStarted(s))
  {
    GoKeepsInv(s, Disabled);
    EmitKeepsInv(Go(s, Disabled), Signal(DisabledEvent));
    GoKeepsInv(s, Idle);
    EmitKeepsInv(Go(s, Idle), Signal(Enabled));
    GoKeepsInv(s, Faulted);
    EmitKeepsInv(Go(s, Faulted), Signal(PermanentFaultEvent));
    if s.current == PrepareCharging {
      EmitKeepsInv(s, Signal(ChargingStarted));
      GoKeepsInv(Announce(s, ChargingStarted), Charging);
    }
  }

  /** Commands that change the state and nothing else. */
  lemma MovedKeepsInv(s: State)
    requires Inv(s)
    ensures Inv(PauseCharging(s)) && Inv(ResumeCharging(s)) && Inv(Restart(s))
  {
    GoKeepsInv(s, ChargingPausedEVSE);
    GoKeepsInv(s, Idle);
    if s.transactionActive {
      GoKeepsInv(s, WaitingForEnergy);
    }
  }

  lemma ResumedKeepsInv(s: State, now: int)
    requires Inv(s)
    ensures Inv(ResumeChargingPowerAvailable(s, now))
  {
    ExpireKeepsInv(s, now);
    if s.transactionActive {
      GoKeepsInv(ExpireLimit(s, now), Charging);
    }
  }

  lemma ErrorSequenceKeepsInv(s: State)
    requires Inv(s)
    ensures Inv(RequestErrorSequence(s))
  {
  }

  lemma CommandKeepsInv(s: State, step: Step)
    requires Inv(s) && !step.Tick? && !step.PilotEvent?
    ensures Inv(Apply(s, step))
  {
    match step
    case Pause => MovedKeepsInv(s);
    case Resume => MovedKeepsInv(s);
    case ResumePowerAvailable(now) => ResumedKeepsInv(s, now);
    case Restarting => MovedKeepsInv(s);
    case ErrorSequence => ErrorSequenceKeepsInv(s);
    case PauseWaitForPower => PauseKeepsInv(s);
    case Auth(allowed, pnc) => AuthorizeKeepsInv(s, allowed, pnc);
    case DeAuth => StopSessionKeepsInv(s);
    case Cancel => CancelKeepsInv(s);
    case Disabling => AnnouncedKeepsInv(s);
    case Enabling => AnnouncedKeepsInv(s);
    case Fault => AnnouncedKeepsInv(s);
    case CurrentDemandStarted => AnnouncedKeepsInv(s);
    case ReplugRequest => EmitKeepsInv(s, EvseReplug);
    case LimitUntil(c, until, now) => LimitKeepsInv(s, c, until, now);
    case Limit(c, now) => LimitKeepsInv(s, c, 0, now);
    case Configure(mode, hlc, hlc5, enforce, soc) =>
      TellingKeepsInv(s, hlc, s.config.(mode := mode, hlcEnabled := hlc, hlcUse5 := hlc5, enforceHlc := enforce),
                      s.inputs, s.timers.(socTimeout := soc, socTimer := 3600000));
    case Matching(started) =>
      TellingKeepsInv(s, true, s.config, s.inputs.(matchingStarted := started), s.timers);
    case CurrentDrawn(drawn) => TellingKeepsInv(s, true, s.config, s.inputs.(drawn := drawn), s.timers);
    case DcLimits(supplied) => TellingKeepsInv(s, true, s.config, s.inputs.(dcSupplied := supplied), s.timers);
  }

  lemma LimitKeepsInv(s: State, c: real, until: int, now: int)
    requires Inv(s)
    ensures Inv(SetMaxCurrentUntil(s, c, until, now)) && Inv(SetMaxCurrent(s, c, now))
  {
  }

  /** Settings and measurements touch nothing the invariant speaks of. */
  lemma TellingKeepsInv(s: State, hlc: bool, config: Config, inputs: Inputs, timers: Timers)
    requires Inv(s)
    ensures Inv(s.(inputs := inputs))
    ensures Inv(s.(config := config, hlcThisSession := hlc, timers := timers))
  {
  }

  lemma ExpireKeepsInv(s: State, now: int)
    requires Inv(s)
    ensures Inv(ExpireLimit(s, now))
  {
  }

  /** Changing timers and the remembered state touches nothing the invariant speaks of. */
  lemma TimersKeepInv(s: State, last: EvseState, timers: Timers)
    requires Inv(s)
    ensures Inv(s.(last := last, timers := timers))
  {
  }

  lemma TickKeepsInv(s: State, now: int)
    requires Inv(s)
    ensures Inv(RunStateMachine(s, now))
  {
    var isNew := s.last != s.current;
    var s1 := BeginTick(s);
    TimersKeepInv(s, s.current, CountDown(s.timers));
    if CountedOut(s1) {
      var t := s1.timers.(socTimeout := false, socTimer := 3600000);
      TimersKeepInv(s1, s1.last, t);
      EmitKeepsInv(s1.(timers := t), SoCTimeout);
    } else {
      TimersKeepInv(s1, s1.last, s1.timers.(startedAt := now));
      StateKeepsInv(EnterState(s1, isNew, now), isNew, now);
    }
  }

  lemma StepKeepsInv(s: State, step: Step)
    requires Inv(s)
    ensures Inv(Apply(s, step))
  {
    match step
    case Tick(now) =>
      ExpireKeepsInv(s, now);
      TickKeepsInv(ExpireLimit(s, now), now);
    case PilotEvent(e, now) =>
      IndependentKeepsInv(s, e);
      EventInStateKeepsInv(EventIndependent(s, e), e, now);
    case _ => CommandKeepsInv(s, step);
  }

  lemma {:induction false} RunKeepsInv(s: State, steps: seq<Step>)
    requires Initial(s)
    ensures Inv(Run(s, steps))
    decreases |steps|
  {
    if steps == [] {
    } else {
      RunKeepsInv(s, steps[..|steps| - 1]);
      StepKeepsInv(Run(s, steps[..|steps| - 1]), steps[|steps| - 1]);
    }
  }

  // ---------- What this says about every run ----------

  /** Something that was begun in a sequence of outputs and not ended since. */
  ghost predicate Open(out: seq<Output>, begin: Output, ends: set<Output>) {
    exists i :: 0 <= i < |out| && BegunAt(out, begin, ends, i)
  }

  ghost predicate BegunAt(out: seq<Output>, begin: Output, ends: set<Output>, i: nat)
    requires i < |out|
  {
    out[i] == begin && forall k :: i < k < |out| ==> out[k] !in ends
  }

  const TRANSACTION_ENDS := {Signal(TransactionFinished), Dropped}
  const SESSION_ENDS := {Signal(SessionFinished)}

  ghost predicate TransactionOpen(out: seq<Output>) {
    Open(out, Signal(TransactionStarted), TRANSACTION_ENDS)
  }

  ghost predicate SessionOpen(out: seq<Output>) {
    Open(out, Signal(SessionStarted), SESSION_ENDS)
  }

  lemma OpenStep(out: seq<Output>, o: Output, begin: Output, ends: set<Output>)
    requires begin !in ends
    ensures Open(out + [o], begin, ends) <==> o == begin || (o !in ends && Open(out, begin, ends))
  {
    var longer := out + [o];
    if o == begin {
      assert BegunAt(longer, begin, ends, |out|);
    }
    if o !in ends && Open(out, begin, ends) {
      var i :| 0 <= i < |out| && BegunAt(out, begin, ends, i);
      assert BegunAt(longer, begin, ends, i);
    }
    if Open(longer, begin, ends) && o != begin {
      var i :| 0 <= i < |longer| && BegunAt(longer, begin, ends, i);
      assert longer[|out|] == o;
      assert forall k :: 0 <= k < |out| ==> longer[k] == out[k];
      assert BegunAt(out, begin, ends, i);
    }
  }

  /** The observer computes exactly what is open. */
  lemma {:induction false} OpenObserved(t: Trace)
    ensures Observe(t).transaction <==> TransactionOpen(Items(t))
    ensures Observe(t).session <==> SessionOpen(Items(t))
  {
    match t
    case Empty =>
    case Then(earlier, o) =>
      OpenObserved(earlier);
      OpenStep(Items(earlier), o, Signal(TransactionStarted), TRANSACTION_ENDS);
      OpenStep(Items(earlier), o, Signal(SessionStarted), SESSION_ENDS);
  }

  /** Every output of a safe trace was allowed by what was open before it. */
  lemma {:induction false} SafeAt(t: Trace, i: nat) returns (w: Watch)
    requires Observe(t).safe && i < |Items(t)|
    ensures Allowed(w, Items(t)[i])
    ensures w.transaction <==> TransactionOpen(Items(t)[..i])
    ensures w.session <==> SessionOpen(Items(t)[..i])
  {
    if i == |Items(t.earlier)| {
      OpenObserved(t.earlier);
      assert Items(t)[..i] == Items(t.earlier);
      w := Observe(t.earlier);
    } else {
      w := SafeAt(t.earlier, i);
      assert Items(t)[..i] == Items(t.earlier)[..i];
    }
  }

  /** The flag in the charger is the transaction seen from outside, and likewise for the session. */
  lemma FlagsAreObservable(s: State, steps: seq<Step>)
    requires Initial(s)
    ensures var r := Run(s, steps);
      && (r.transactionActive <==> TransactionOpen(Items(r.trace)))
      && (r.sessionActive <==> SessionOpen(Items(r.trace)))
      && (r.authorized ==> r.sessionActive)
  {
    RunKeepsInv(s, steps);
    OpenObserved(Run(s, steps).trace);
  }

  /** Power is switched on only after a transaction started, and not after it was cancelled, stopped or dropped. */
  lemma PowerOnSafety(s: State, steps: seq<Step>, i: nat)
    requires Initial(s) && i < |Items(Run(s, steps).trace)|
    requires Items(Run(s, steps).trace)[i] == AllowPowerOn(true)
    ensures TransactionOpen(Items(Run(s, steps).trace)[..i])
  {
    RunKeepsInv(s, steps);
    var w := SafeAt(Run(s, steps).trace, i);
  }

  /** A transaction starts only inside a session and finishes only if it has started. */
  lemma TransactionsAreNested(s: State, steps: seq<Step>, i: nat)
    requires Initial(s) && i < |Items(Run(s, steps).trace)|
    ensures var out := Items(Run(s, steps).trace);
      && (out[i] == Signal(TransactionStarted) ==> SessionOpen(out[..i]))
      && (out[i] == Signal(TransactionFinished) ==> TransactionOpen(out[..i]))
  {
    RunKeepsInv(s, steps);
    var w := SafeAt(Run(s, steps).trace, i);
  }

  lemma BegunSince(out: seq<Output>, begin: Output, ends: set<Output>, i: nat, j: nat)
    requires i < j < |out| && out[i] in ends && begin !in ends && Open(out[..j], begin, ends)
    ensures exists k :: i < k < j && out[k] == begin
  {
    var k :| 0 <= k < j && BegunAt(out[..j], begin, ends, k);
    assert out[..j][i] == out[i] && out[..j][k] == out[k];
  }

  /** Between any two ends of transactions lies a start. */
  lemma StartBetweenFinishes(s: State, steps: seq<Step>, i: nat, j: nat)
    requires Initial(s) && i < j < |Items(Run(s, steps).trace)|
    requires Items(Run(s, steps).trace)[i] == Signal(TransactionFinished)
    requires Items(Run(s, steps).trace)[j] == Signal(TransactionFinished)
    ensures exists k :: i < k < j && Items(Run(s, steps).trace)[k] == Signal(TransactionStarted)
  {
    TransactionsAreNested(s, steps, j);
    BegunSince(Items(Run(s, steps).trace), Signal(TransactionStarted), TRANSACTION_ENDS, i, j);
  }

  function Count(t: Trace, o: Output): nat {
    match t
    case Empty => 0
    case Then(earlier, last) => Count(earlier, o) + if last == o then 1 else 0
  }

  lemma {:induction false} FinishedBelowStarted(t: Trace)
    requires Observe(t).safe
    ensures Count(t, Signal(TransactionFinished)) + (if Observe(t).transaction then 1 else 0)
      <= Count(t, Signal(TransactionStarted))
  {
    match t
    case Empty =>
    case Then(earlier, o) => FinishedBelowStarted(earlier);
  }

  /** Ends of transactions never outnumber starts, and lag behind while one is active. */
  lemma FinishedNeverOutnumberStarted(s: State, steps: seq<Step>)
    requires Initial(s)
    ensures var r := Run(s, steps);
      Count(r.trace, Signal(TransactionFinished)) + (if r.transactionActive then 1 else 0)
        <= Count(r.trace, Signal(TransactionStarted))
  {
    RunKeepsInv(s, steps);
    FinishedBelowStarted(Run(s, steps).trace);
  }

  /** Every duty cycle ever commanded is 5 percent, invalid, or in the analogue range. */
  lemma DutyCyclesAreMeaningful(s: State, steps: seq<Step>, i: nat)
    requires Initial(s) && i < |Items(Run(s, steps).trace)|
    requires Items(Run(s, steps).trace)[i].PwmOn?
    ensures Meaningful(Items(Run(s, steps).trace)[i].dc)
  {
    RunKeepsInv(s, steps);
    var w := SafeAt(Run(s, steps).trace, i);
  }

  /** The stored limit always lies between 0 A and 80 A. */
  lemma LimitStaysInRange(s: State, steps: seq<Step>)
    requires Initial(s)
    ensures 0.0 <= Run(s, steps).maxCurrent <= ABSOLUTE_MAX_CURRENT
  {
    RunKeepsInv(s, steps);
  }

  // ---------- Where the code does not do what its comments say ----------

  /** The end of a replug is never announced: the remembered state is overwritten before it is looked at. */
  lemma ReplugNeverFinishes(s: State, steps: seq<Step>, i: nat)
    requires Initial(s) && i < |Items(Run(s, steps).trace)|
    ensures Items(Run(s, steps).trace)[i] != Signal(ReplugFinished)
  {
    RunKeepsInv(s, steps);
    var w := SafeAt(Run(s, steps).trace, i);
  }
}
