/**
 * What the charger remembers: what every step makes of the limit, the authorization, the returns from pauses, the
 * clocks and the duty cycle, by conditions on the state before the step.
 */
module ChargerMemory {
  import opened DutyCycle
  import opened ChargerSpec
  import opened Wrappers
  import opened ChargerSafety
  import opened ChargerLedger
  import opened ChargerDiagram

  // ---------- What a tick leaves as it was ----------

  /** Nothing the charger was told has changed, nor what it has decided for the session. */
  predicate Kept(s: State, r: State) {
    && r.maxCurrent == s.maxCurrent && r.validUntil == s.validUntil && r.pnc == s.pnc && r.config == s.config
    && r.inputs == s.inputs && r.back == s.back && r.use5ThisSession == s.use5ThisSession
    && r.hlcThisSession == s.hlcThisSession
  }

  predicate SameClocks(s: Timers, t: Timers) {
    && t.startedAt == s.startedAt && t.overCurrent == s.overCurrent && t.overSince == s.overSince
    && t.socTimeout == s.socTimeout && t.socTimer == s.socTimer
  }

  predicate KeptAll(s: State, r: State) {
    Kept(s, r) && SameClocks(s.timers, r.timers)
  }

  lemma GoKeeps(s: State, target: EvseState)
    ensures KeptAll(s, Go(s, target)) && Go(s, target).authorized == s.authorized
  {
  }

  lemma EmitKeeps(s: State, o: Output)
    ensures KeptAll(s, Emit(s, o)) && Emit(s, o).authorized == s.authorized
  {
  }

  lemma PwmKeeps(s: State, dc: real, now: int)
    ensures KeptAll(s, UpdatePwm(s, dc, now)) && KeptAll(s, UpdatePwmIfChanged(s, dc, now))
    ensures KeptAll(s, UpdatePwmSlowly(s, dc, now))
    ensures UpdatePwm(s, dc, now).authorized == s.authorized
    ensures UpdatePwmIfChanged(s, dc, now).authorized == s.authorized
    ensures UpdatePwmSlowly(s, dc, now).authorized == s.authorized
  {
  }

  lemma SessionKeeps(s: State, pnc: bool)
    ensures KeptAll(s, StartSession(s)) && KeptAll(s, StopSession(s)) && KeptAll(s, Authorize(s, false, pnc))
    ensures !StartSession(s).authorized && !StopSession(s).authorized && !Authorize(s, false, pnc).authorized
    ensures KeptAll(s, StopTransactionIfActive(s)) && StopTransactionIfActive(s).authorized == s.authorized
    ensures KeptAll(s, DropTransaction(s)) && DropTransaction(s).authorized == s.authorized
  {
  }

  lemma KeepKeeps(s: State, isNew: bool, e: SessionEvent, now: int)
    ensures KeptAll(s, KeepCharging(s, isNew, e, now)) && KeepCharging(s, isNew, e, now).authorized == s.authorized
  {
    EmitKeeps(s, Signal(e));
    EmitKeeps(Announce(s, e), AllowPowerOn(true));
    var s1 := Emit(Announce(s, e), AllowPowerOn(true));
    PwmKeeps(s1, if s1.use5ThisSession then PWM_5_PERCENT else AmpereToDutyCycle(s1.maxCurrent), now);
    PwmKeeps(s, AmpereToDutyCycle(s.maxCurrent), now);
  }

  /** The clock of the over-current: it runs while more than ten percent too much is drawn, from when that was seen. */
  predicate OverCurrentTimed(s: State, t: Timers, now: int) {
    var above := s.inputs.drawn > s.maxCurrent * 1.1;
    && (t.overCurrent <==> above)
    && t.overSince == (if above && !s.timers.overCurrent then now else s.timers.overSince)
    && t.startedAt == s.timers.startedAt && t.socTimeout == s.timers.socTimeout && t.socTimer == s.timers.socTimer
  }

  lemma WatchedKeeps(s: State, now: int)
    requires s.validUntil < now ==> s.maxCurrent == 0.0
    ensures var r := ExpireLimit(CheckSoftOverCurrent(s, now), now);
      Kept(s, r) && r.authorized == s.authorized && OverCurrentTimed(s, r.timers, now)
  {
    CheckKeeps(s, now);
    Expired(CheckSoftOverCurrent(s, now), now);
  }

  lemma CheckKeeps(s: State, now: int)
    ensures var r := CheckSoftOverCurrent(s, now);
      Kept(s, r) && r.authorized == s.authorized && OverCurrentTimed(s, r.timers, now)
  {
  }

  /** In AC mode charging is watched, paused by the car or not. */
  predicate IsWatched(s: State) {
    (s.current == Charging || s.current == ChargingPausedEV) && s.config.mode == AC
  }

  predicate ClocksAfter(s: State, t: Timers, isNew: bool, now: int) {
    if IsWatched(s) then OverCurrentTimed(s, t, now)
    else if s.current == Replug && isNew && s.timers.socTimeout then SameClocks(s.timers.(socTimer := 120000), t)
    else SameClocks(s.timers, t)
  }

  predicate AuthorizedAfterState(s: State, isNew: bool) {
    && s.authorized
    && !(isNew && (s.current == Idle || s.current == Finished
                   || (s.current == WaitingForAuthentication && !s.sessionActive)))
  }

  /** What a tick in a state leaves of clocks and authorization. */
  predicate Timed(s: State, r: State, isNew: bool, now: int) {
    ClocksAfter(s, r.timers, isNew, now) && (r.authorized <==> AuthorizedAfterState(s, isNew))
  }

  lemma WatchedSets(s: State, w: State, r: State, isNew: bool, now: int)
    requires IsWatched(s) && Kept(s, w) && OverCurrentTimed(s, w.timers, now) && w.authorized == s.authorized
    requires KeptAll(w, r) && r.authorized == w.authorized
    ensures Kept(s, r) && Timed(s, r, isNew, now)
  {
  }

  lemma ChargingSets(s: State, isNew: bool, now: int)
    requires s.current == s.last == Charging && (s.validUntil < now ==> s.maxCurrent == 0.0)
    ensures Kept(s, OnCharging(s, isNew, now)) && Timed(s, OnCharging(s, isNew, now), isNew, now)
  {
    if s.config.mode == AC {
      var w, r := ExpireLimit(CheckSoftOverCurrent(s, now), now), OnCharging(s, isNew, now);
      WatchedKeeps(s, now);
      Watched(s, now);
      KeepKeeps(w, isNew, ChargingResumed, now);
      GoKeeps(w, WaitingForEnergy);
      assert r == if HasPower(w) then KeepCharging(w, isNew, ChargingResumed, now) else PauseForPower(w);
      WatchedSets(s, w, r, isNew, now);
    }
  }

  lemma PausedEVSets(s: State, isNew: bool, now: int)
    requires s.current == ChargingPausedEV && (s.validUntil < now ==> s.maxCurrent == 0.0)
    ensures Kept(s, OnPausedEV(s, isNew, now)) && Timed(s, OnPausedEV(s, isNew, now), isNew, now)
  {
    if s.config.mode == AC {
      var w, r := ExpireLimit(CheckSoftOverCurrent(s, now), now), OnPausedEV(s, isNew, now);
      WatchedKeeps(s, now);
      KeepKeeps(w, isNew, PausedByEV, now);
      GoKeeps(w, WaitingForEnergy);
      assert r == if HasPower(w) then KeepCharging(w, isNew, PausedByEV, now) else PauseForPower(w);
      WatchedSets(s, w, r, isNew, now);
    } else {
      EmitKeeps(s, AllowPowerOn(false));
      GoKeeps(Emit(s, AllowPowerOn(false)), StoppingCharging);
    }
  }

  lemma PrepareSets(s: State, isNew: bool, now: int)
    requires s.current == PrepareCharging
    ensures Kept(s, OnPrepare(s, isNew, now)) && Timed(s, OnPrepare(s, isNew, now), isNew, now)
  {
    EmitKeeps(s, Signal(PrepareChargingEvent));
    EmitKeeps(Announce(s, PrepareChargingEvent), AllowPowerOn(true));
    var s0 := Emit(Announce(s, PrepareChargingEvent), AllowPowerOn(true));
    var dc := if s.use5ThisSession then PWM_5_PERCENT else AmpereToDutyCycle(0.0);
    PwmKeeps(s0, dc, now);
    var s1 := if !isNew then s else UpdatePwm(s0, dc, now);
    PwmKeeps(s1, AmpereToDutyCycle(s1.maxCurrent), now);
  }

  lemma PlainSets(s: State, r: State, isNew: bool, now: int)
    requires KeptAll(s, r) && !IsWatched(s) && s.current != Replug
    requires r.authorized <==> AuthorizedAfterState(s, isNew)
    ensures Kept(s, r) && Timed(s, r, isNew, now)
  {
  }

  /** Leaving a pause: the pilot is switched off or restored. */
  lemma LeavingKeeps(s: State, dc: real, target: EvseState, now: int)
    ensures var r := Go(if dc == 0.0 then Emit(s, PwmOff) else UpdatePwm(s, dc, now), target);
      KeptAll(s, r) && r.authorized == s.authorized
  {
    EmitKeeps(s, PwmOff);
    PwmKeeps(s, dc, now);
    GoKeeps(Emit(s, PwmOff), target);
    GoKeeps(UpdatePwm(s, dc, now), target);
  }

  lemma TStepEFSets(s: State, isNew: bool, now: int)
    requires s.current == TStepEF
    ensures Kept(s, OnTStepEF(s, isNew, now)) && Timed(s, OnTStepEF(s, isNew, now), isNew, now)
  {
    var s1 := if isNew then Emit(s, PwmF) else s;
    EmitKeeps(s, PwmF);
    LeavingKeeps(s1, s1.back.pwmEF, s1.back.stateEF, now);
    PlainSets(s, OnTStepEF(s, isNew, now), isNew, now);
  }

  lemma TStepX1Sets(s: State, isNew: bool, now: int)
    requires s.current == TStepX1
    ensures Kept(s, OnTStepX1(s, isNew, now)) && Timed(s, OnTStepX1(s, isNew, now), isNew, now)
  {
    var s1 := if isNew then Emit(s, PwmOff) else s;
    EmitKeeps(s, PwmOff);
    LeavingKeeps(s1, s1.back.pwmX1, s1.back.stateX1, now);
    PlainSets(s, OnTStepX1(s, isNew, now), isNew, now);
  }

  lemma StoppingSets(s: State, isNew: bool, now: int)
    requires s.current == StoppingCharging
    ensures Kept(s, OnStopping(s, isNew)) && Timed(s, OnStopping(s, isNew), isNew, now)
  {
    var s1 := Announce(s, Stopping);
    var s2 := StopTransactionIfActive(s1);
    EmitKeeps(s, Signal(Stopping));
    SessionKeeps(s1, false);
    EmitKeeps(s2, DcSupplyOff);
    EmitKeeps(s2, PwmOff);
    GoKeeps(Emit(s2, PwmOff), Finished);
    PlainSets(s, OnStopping(s, isNew), isNew, now);
  }

  lemma FinishedSets(s: State, isNew: bool, now: int)
    requires s.current == Finished
    ensures Kept(s, OnFinished(s, isNew)) && Timed(s, OnFinished(s, isNew), isNew, now)
  {
    var s1 := StopTransactionIfActive(s);
    SessionKeeps(s, false);
    SessionKeeps(s1, false);
    EmitKeeps(StopSession(s1), PwmF);
    GoKeeps(if isNew then Emit(StopSession(s1), PwmF) else s, Idle);
    PlainSets(s, OnFinished(s, isNew), isNew, now);
  }

  lemma IdleSets(s: State, isNew: bool, now: int)
    requires s.current == Idle
    ensures Kept(s, OnIdle(s, isNew)) && Timed(s, OnIdle(s, isNew), isNew, now)
  {
    var s1 := Emit(s, PwmOff);
    EmitKeeps(s, PwmOff);
    SessionKeeps(s1, false);
    SessionKeeps(Authorize(s1, false, false), false);
    PlainSets(s, OnIdle(s, isNew), isNew, now);
  }

  /** States that announce themselves and switch the pilot. */
  lemma AnnouncingKeeps(s: State, e: SessionEvent, o: Output, p: Output)
    ensures KeptAll(s, Emit(Emit(Announce(s, e), o), p)) && KeptAll(s, Emit(Announce(s, e), o))
    ensures KeptAll(s, Announce(s, e)) && Announce(s, e).authorized == s.authorized
    ensures Emit(Emit(Announce(s, e), o), p).authorized == Emit(Announce(s, e), o).authorized == s.authorized
  {
    EmitKeeps(s, Signal(e));
    EmitKeeps(Announce(s, e), o);
    EmitKeeps(Emit(Announce(s, e), o), p);
  }

  lemma RestSets(s: State, isNew: bool, now: int)
    requires s.current in {Disabled, Error, Faulted, ChargingPausedEVSE, WaitingForEnergy}
    ensures Kept(s, OnState(s, isNew, now)) && Timed(s, OnState(s, isNew, now), isNew, now)
  {
    AnnouncingKeeps(s, DisabledEvent, PwmF, PwmF);
    AnnouncingKeeps(s, ErrorEvent, PwmOff, PwmOff);
    AnnouncingKeeps(s, PermanentFaultEvent, PwmF, PwmF);
    AnnouncingKeeps(s, PausedByEVSE, PwmOff, DcSupplyOff);
    AnnouncingKeeps(s, WaitingForEnergyEvent, PwmOff, PwmOff);
    PlainSets(s, OnState(s, isNew, now), isNew, now);
  }

  lemma ReplugSets(s: State, isNew: bool, now: int)
    requires s.current == Replug
    ensures Kept(s, OnState(s, isNew, now)) && Timed(s, OnState(s, isNew, now), isNew, now)
  {
    EmitKeeps(s, Signal(ReplugStarted));
  }

  /** The pause through which an authorized charger goes leads it to PrepareCharging, with the pilot off. */
  function WaitingBack(s: State, isNew: bool): Returns {
    if !GoesOn(s, isNew) then s.back
    else if AuthorizedLeads(s, isNew) == TStepEF then s.back.(stateEF := PrepareCharging, pwmEF := 0.0)
    else if AuthorizedLeads(s, isNew) == TStepX1 then s.back.(stateX1 := PrepareCharging, pwmX1 := 0.0)
    else s.back
  }

  /** 5 percent are forced by Plug & Charge or by enforced communication, and given up before a pause. */
  predicate WaitingFive(s: State, isNew: bool) {
    if GoesOn(s, isNew) && s.config.mode == AC && (s.pnc || (UsesHlc(s, isNew) && s.config.enforceHlc)) then true
    else UsesFive(s, isNew) && !(GoesOn(s, isNew) && AuthorizedLeads(s, isNew) != PrepareCharging)
  }

  predicate WaitingSet(s: State, r: State, isNew: bool) {
    && r.maxCurrent == s.maxCurrent && r.validUntil == s.validUntil && r.pnc == s.pnc && r.config == s.config
    && r.inputs == s.inputs && r.back == WaitingBack(s, isNew) && (r.use5ThisSession <==> WaitingFive(s, isNew))
    && (r.hlcThisSession <==> UsesHlc(s, isNew))
  }

  lemma EnterModeKeeps(s: State)
    ensures var r := EnterMode(s);
      && r.maxCurrent == s.maxCurrent && r.validUntil == s.validUntil && r.back == s.back && r.timers == s.timers
      && r.authorized == s.authorized
  {
  }

  lemma EnteringSets(s: State, now: int)
    requires s.last == s.current == WaitingForAuthentication
    ensures var r := EnterWaiting(s, now);
      && r.maxCurrent == s.maxCurrent && r.validUntil == s.validUntil && r.back == s.back
      && SameClocks(s.timers, r.timers)
  {
    var s1 := Emit(s, AllowPowerOn(false));
    EmitKeeps(s, AllowPowerOn(false));
    SessionKeeps(s1, false);
    var s2 := if s1.sessionActive then s1 else StartSession(s1);
    EmitKeeps(s2, Signal(AuthRequired));
    EnterModeKeeps(Announce(s2, AuthRequired));
    PwmKeeps(EnterMode(Announce(s2, AuthRequired)), 0.05, now);
  }

  lemma ProceedSets(s: State)
    requires s.authorized && (s.config.mode == DC ==> s.inputs.dcSupplied)
    ensures var r := Proceed(StartTransaction(s));
      WaitingSet(s, r, false) && r.timers == s.timers && r.authorized
  {
  }

  lemma WaitingSets(s: State, isNew: bool, now: int)
    requires s.last == s.current == WaitingForAuthentication
    ensures WaitingSet(s, OnWaiting(s, isNew, now), isNew) && Timed(s, OnWaiting(s, isNew, now), isNew, now)
  {
    var s1 := if isNew then EnterWaiting(s, now) else s;
    if isNew {
      Entering(s, now);
      EnteringSets(s, now);
    }
    if GoesOn(s, isNew) {
      ProceedSets(s1);
    }
  }

  predicate StateSet(s: State, r: State, isNew: bool) {
    if s.current == WaitingForAuthentication then WaitingSet(s, r, isNew) else Kept(s, r)
  }

  lemma OnStateSets(s: State, isNew: bool, now: int)
    requires s.last == s.current && (s.validUntil < now ==> s.maxCurrent == 0.0)
    ensures StateSet(s, OnState(s, isNew, now), isNew) && Timed(s, OnState(s, isNew, now), isNew, now)
  {
    match s.current
    case WaitingForAuthentication => WaitingSets(s, isNew, now);
    case Charging => ChargingSets(s, isNew, now);
    case ChargingPausedEV => PausedEVSets(s, isNew, now);
    case PrepareCharging => PrepareSets(s, isNew, now);
    case TStepEF => TStepEFSets(s, isNew, now);
    case TStepX1 => TStepX1Sets(s, isNew, now);
    case Idle => IdleSets(s, isNew, now);
    case StoppingCharging => StoppingSets(s, isNew, now);
    case Finished => FinishedSets(s, isNew, now);
    case Replug => ReplugSets(s, isNew, now);
    case _ => RestSets(s, isNew, now);
  }

  // ---------- What a step sets ----------

  predicate OverClock(s: State, t: Timers, now: int) {
    var above := s.inputs.drawn > LimitNow(s, now) * 1.1;
    && (t.overCurrent <==> above)
    && t.overSince == (if above && !s.timers.overCurrent then now else s.timers.overSince)
  }

  /** The clocks after a tick, which counts 50 ms; a replug counts from two minutes. */
  predicate TickClocks(s: State, t: Timers, now: int) {
    && t.startedAt == (if IsNew(s) then now else s.timers.startedAt)
    && t.socTimeout == s.timers.socTimeout
    && t.socTimer == (if !s.timers.socTimeout then s.timers.socTimer
                      else if s.current == Replug && IsNew(s) then 120000
                      else s.timers.socTimer - 50)
    && if IsWatched(s) then OverClock(s, t, now)
       else t.overCurrent == s.timers.overCurrent && t.overSince == s.timers.overSince
  }

  /** The clocks after a tick in which the countdown for the state of charge ends. */
  predicate RunOutClocks(s: Timers, t: Timers) {
    && t.startedAt == s.startedAt && t.overCurrent == s.overCurrent && t.overSince == s.overSince
    && !t.socTimeout && t.socTimer == 3600000
  }

  /** What a tick sets. */
  predicate TickSet(s: State, r: State, now: int) {
    if RunsOut(s) then Kept(InForceAt(s, now), r) && r.authorized == s.authorized && RunOutClocks(s.timers, r.timers)
    else
      && StateSet(InForceAt(s, now), r, IsNew(s)) && TickClocks(s, r.timers, now)
      && (r.authorized <==> AuthorizedAfterState(s, IsNew(s)))
  }

  lemma ReadiedSets(s: State, q: State, r: State, isNew: bool, now: int)
    requires Readied(s, q, isNew, now) && StateSet(q, r, isNew)
    ensures StateSet(s, r, isNew)
  {
  }

  lemma BegunClocks(s: State, isNew: bool, now: int)
    ensures EnterState(BeginTick(s), isNew, now).timers ==
      CountDown(s.timers).(startedAt := if isNew then now else s.timers.startedAt)
  {
  }

  lemma ReadyClocks(s: State, now: int)
    ensures Ready(s, now).timers == CountDown(s.timers).(startedAt := if IsNew(s) then now else s.timers.startedAt)
  {
    BegunClocks(ExpireLimit(s, now), IsNew(s), now);
  }

  lemma TimedTick(s: State, q: State, r: State, now: int)
    requires !RunsOut(s) && Readied(InForceAt(s, now), q, IsNew(s), now)
    requires q.timers == CountDown(s.timers).(startedAt := if IsNew(s) then now else s.timers.startedAt)
    requires Timed(q, r, IsNew(s), now)
    ensures TickClocks(s, r.timers, now) && (r.authorized <==> AuthorizedAfterState(s, IsNew(s)))
  {
  }

  lemma RunOutSets(s: State, now: int)
    requires RunsOut(s)
    ensures TickSet(s, StopCounting(BeginTick(ExpireLimit(s, now))), now)
  {
    BegunKeeps(s, now);
    StoppedKeeps(BeginTick(ExpireLimit(s, now)));
  }

  lemma BegunKeeps(s: State, now: int)
    ensures var b := BeginTick(ExpireLimit(s, now));
      Kept(InForceAt(s, now), b) && b.authorized == s.authorized && b.timers == CountDown(s.timers)
  {
  }

  lemma StoppedKeeps(b: State)
    ensures var r := StopCounting(b);
      && Kept(b, r) && r.authorized == b.authorized
      && r.timers == b.timers.(socTimeout := false, socTimer := 3600000)
  {
  }

  lemma ReadySets(s: State, q: State, r: State, now: int)
    requires !RunsOut(s) && Readied(InForceAt(s, now), q, IsNew(s), now)
    requires q.timers == CountDown(s.timers).(startedAt := if IsNew(s) then now else s.timers.startedAt)
    requires StateSet(q, r, IsNew(s)) && Timed(q, r, IsNew(s), now)
    ensures TickSet(s, r, now)
  {
    ReadiedSets(InForceAt(s, now), q, r, IsNew(s), now);
    TimedTick(s, q, r, now);
  }

  /** What a tick sets, in every state. */
  lemma TickSets(s: State, now: int)
    ensures TickSet(s, Apply(s, Tick(now)), now)
  {
    TickRuns(s, now);
    if RunsOut(s) {
      RunOutSets(s, now);
    } else {
      var q := Ready(s, now);
      Readies(s, now);
      ReadyClocks(s, now);
      OnStateSets(q, IsNew(s), now);
      ReadySets(s, q, OnState(q, IsNew(s), now), now);
    }
  }

  /** A limit is taken between 0 A and 80 A; at a socket, not above what the cable carries. */
  function LimitTaken(s: State, c: real): real {
    if !(0.0 <= c <= 80.0) then s.maxCurrent
    else if s.config.socket && s.inputs.cable < c then s.inputs.cable
    else c
  }

  /** The limit after a step. */
  function LimitAfter(s: State, step: Step): real {
    match step
    case Tick(now) => LimitNow(s, now)
    case PilotEvent(e, now) =>
      if s.current == PrepareCharging && s.config.mode == AC && e == CarRequestedPower then LimitNow(s, now)
      else s.maxCurrent
    case ResumePowerAvailable(now) =>
      if s.current == WaitingForEnergy && s.transactionActive then LimitNow(s, now) else s.maxCurrent
    case LimitUntil(c, until, now) => if until > now then LimitTaken(s, c) else s.maxCurrent
    case Limit(c, now) => if s.validUntil > now then LimitTaken(s, c) else s.maxCurrent
    case _ => s.maxCurrent
  }

  /** A limit is refused unless it is in range, and a validity unless it ends later. */
  function UntilAfter(s: State, step: Step): int {
    if step.LimitUntil? && 0.0 <= step.c <= 80.0 && step.until > step.now then step.until else s.validUntil
  }

  lemma RequestLimits(s: State, now: int)
    ensures RequestPower(s, now).maxCurrent == LimitNow(s, now) && RequestPower(s, now).validUntil == s.validUntil
  {
  }

  lemma InStateLimits(s: State, e: ControlPilotEvent, now: int)
    ensures var r := EventInState(s, e, now);
      r.maxCurrent == LimitAfter(s, PilotEvent(e, now)) && r.validUntil == s.validUntil
  {
    if s.current == PrepareCharging && s.config.mode == AC {
      PreparedEvent(s, e, now);
      RequestLimits(Announce(s, ChargingStarted), now);
    } else {
      PlainEvent(s, e, now);
    }
  }

  lemma AnywhereLimits(s: State, e: ControlPilotEvent)
    ensures var r := EventIndependent(s, e);
      r.maxCurrent == s.maxCurrent && r.validUntil == s.validUntil && r.config == s.config
  {
    AnywhereEvent(s, e);
  }

  lemma EventLimits(s: State, e: ControlPilotEvent, now: int)
    ensures var r := Apply(s, PilotEvent(e, now));
      r.maxCurrent == LimitAfter(s, PilotEvent(e, now)) && r.validUntil == s.validUntil
  {
    AnywhereLimits(s, e);
    IndependentLeads(s, e);
    InStateLimits(EventIndependent(s, e), e, now);
  }

  lemma CommandLimits(s: State, step: Step)
    requires !step.Tick? && !step.PilotEvent?
    ensures Apply(s, step).maxCurrent == LimitAfter(s, step) && Apply(s, step).validUntil == UntilAfter(s, step)
  {
  }

  lemma SetLimits(s: State, r: State, now: int)
    requires TickSet(s, r, now)
    ensures r.maxCurrent == LimitNow(s, now) && r.validUntil == s.validUntil
  {
  }

  lemma TickLimits(s: State, now: int)
    ensures Apply(s, Tick(now)).maxCurrent == LimitNow(s, now) && Apply(s, Tick(now)).validUntil == s.validUntil
  {
    TickSets(s, now);
    SetLimits(s, Apply(s, Tick(now)), now);
  }

  /** The limit and its validity after every step, in every state. */
  lemma LimitExactly(s: State, step: Step)
    ensures Apply(s, step).maxCurrent == LimitAfter(s, step) && Apply(s, step).validUntil == UntilAfter(s, step)
  {
    match step
    case Tick(now) => TickLimits(s, now);
    case PilotEvent(e, now) => EventLimits(s, e, now);
    case _ => CommandLimits(s, step);
  }

  predicate Removable(s: State) {
    s.sessionActive && s.current in {Disabled, Idle, WaitingForAuthentication, Error, Faulted}
  }

  predicate AuthorizedAfter(s: State, step: Step) {
    match step
    case Auth(allowed, pnc) => allowed
    case DeAuth => s.authorized && !Removable(s)
    case _ => s.authorized
  }

  /** On request, a waiting charger goes through F and comes back to where it was. */
  function BackAfter(s: State, step: Step): Returns {
    if step.ErrorSequence? && s.current == WaitingForAuthentication then
      s.back.(stateEF := WaitingForAuthentication, pwmEF := if s.hlcThisSession && s.use5ThisSession then 0.05 else 0.0)
    else s.back
  }

  function ConfigAfter(s: State, step: Step): Config {
    match step
    case Configure(mode, hlc, hlc5, enforce, soc) => Config(mode, hlc, hlc5, enforce, s.config.socket)
    case _ => s.config
  }

  function InputsAfter(s: State, step: Step): Inputs {
    match step
    case PilotEvent(e, now) =>
      if s.current == Idle && e.CarPluggedIn? then s.inputs.(cable := e.ampacity) else s.inputs
    case Matching(started) => s.inputs.(matchingStarted := started)
    case CurrentDrawn(drawn) => s.inputs.(drawn := drawn)
    case DcLimits(supplied) => s.inputs.(dcSupplied := supplied)
    case _ => s.inputs
  }

  function TimersAfter(s: State, step: Step): Timers {
    match step
    case Configure(mode, hlc, hlc5, enforce, soc) => s.timers.(socTimeout := soc, socTimer := 3600000)
    case _ => s.timers
  }

  /** What a pilot event or a command sets beside the limit. */
  predicate CommandSet(s: State, step: Step, r: State) {
    && (r.authorized <==> AuthorizedAfter(s, step))
    && (r.pnc <==> if step.Auth? && step.allowed then step.pnc else s.pnc)
    && (r.hlcThisSession <==> if step.Configure? then step.hlc else s.hlcThisSession)
    && r.use5ThisSession == s.use5ThisSession && r.lastDc == s.lastDc && r.last == s.last
    && r.back == BackAfter(s, step) && r.config == ConfigAfter(s, step) && r.inputs == InputsAfter(s, step)
    && r.timers == TimersAfter(s, step)
  }

  predicate Untouched(s: State, r: State) {
    && r.authorized == s.authorized && r.pnc == s.pnc && r.hlcThisSession == s.hlcThisSession
    && r.use5ThisSession == s.use5ThisSession && r.lastDc == s.lastDc && r.last == s.last && r.back == s.back
    && r.config == s.config && r.inputs == s.inputs && r.timers == s.timers
  }


  lemma EmitTouchesNothing(s: State, o: Output)
    ensures Untouched(s, Emit(s, o))
  {
  }

  lemma GoTouchesNothing(s: State, target: EvseState)
    ensures Untouched(s, Go(s, target))
  {
  }

  lemma ExpiringTouchesNothing(s: State, now: int)
    ensures Untouched(s, ExpireLimit(s, now))
  {
  }

  lemma AnywhereSets(s: State, e: ControlPilotEvent)
    ensures Untouched(s, EventIndependent(s, e))
  {
    var s1 := if s.current == Error && e == CarUnplugged then Announce(s, AllErrorsCleared) else s;
    EmitTouchesNothing(s, Signal(AllErrorsCleared));
    GoTouchesNothing(s1, EventIndependent(s, e).current);
    AnywhereEvent(s, e);
  }

  lemma RequestSets(s: State, now: int)
    ensures Untouched(s, RequestPower(s, now))
  {
    var s1 := ExpireLimit(s, now);
    ExpiringTouchesNothing(s, now);
    GoTouchesNothing(s1, Charging);
    GoTouchesNothing(Go(s1, Charging), WaitingForEnergy);
  }

  lemma InStateSets(s: State, e: ControlPilotEvent, now: int)
    ensures Untouched(if Plugs(s, e) then s.(inputs := s.inputs.(cable := e.ampacity)) else s, EventInState(s, e, now))
  {
    if s.current == PrepareCharging && s.config.mode == AC {
      PreparedEvent(s, e, now);
      EmitTouchesNothing(s, Signal(ChargingStarted));
      RequestSets(Announce(s, ChargingStarted), now);
    } else {
      PlainEvent(s, e, now);
      GoTouchesNothing(if Plugs(s, e) then s.(inputs := s.inputs.(cable := e.ampacity)) else s,
                       EventInState(s, e, now).current);
    }
  }

  lemma EventSets(s: State, e: ControlPilotEvent, now: int)
    ensures CommandSet(s, PilotEvent(e, now), Apply(s, PilotEvent(e, now)))
  {
    AnywhereSets(s, e);
    IndependentLeads(s, e);
    InStateSets(EventIndependent(s, e), e, now);
  }

  lemma AnnouncedMove(s: State, target: EvseState, e: SessionEvent)
    ensures Untouched(s, Announce(Go(s, target), e)) && Untouched(s, Go(Announce(s, e), target))
  {
    GoTouchesNothing(s, target);
    EmitTouchesNothing(Go(s, target), Signal(e));
    EmitTouchesNothing(s, Signal(e));
    GoTouchesNothing(Announce(s, e), target);
  }

  lemma CancelSets(s: State)
    ensures Untouched(s, CancelTransaction(s))
  {
    if s.transactionActive {
      var s1 := Go(s, if s.config.mode == DC then StoppingCharging else ChargingPausedEVSE);
      var s2 := s1.(transactionActive := false);
      GoTouchesNothing(s, s1.current);
      assert Untouched(s1, s2);
      EmitTouchesNothing(s2, Signal(ChargingFinished));
      EmitTouchesNothing(Announce(s2, ChargingFinished), Signal(TransactionFinished));
    }
  }

  lemma ResumeSets(s: State, now: int)
    ensures Untouched(s, ResumeChargingPowerAvailable(s, now))
  {
    ExpiringTouchesNothing(s, now);
    GoTouchesNothing(ExpireLimit(s, now), Charging);
  }

  /** Commands that announce something. */
  lemma AnnouncingSets(s: State)
    ensures Untouched(s, Disable(s)) && Untouched(s, Enable(s)) && Untouched(s, SetFaulted(s))
    ensures Untouched(s, NotifyCurrentDemandStarted(s)) && Untouched(s, Emit(s, EvseReplug))
  {
    AnnouncedMove(s, Disabled, DisabledEvent);
    AnnouncedMove(s, Idle, Enabled);
    AnnouncedMove(s, Faulted, PermanentFaultEvent);
    AnnouncedMove(s, Charging, ChargingStarted);
    EmitTouchesNothing(s, EvseReplug);
  }

  /** Commands that only lead elsewhere. */
  lemma LeadingSets(s: State)
    ensures Untouched(s, PauseCharging(s)) && Untouched(s, ResumeCharging(s)) && Untouched(s, PauseForPower(s))
    ensures Untouched(s, Restart(s))
  {
    GoTouchesNothing(s, ChargingPausedEVSE);
    GoTouchesNothing(s, WaitingForEnergy);
    GoTouchesNothing(s, Idle);
  }

  lemma ErrorSequenceSets(s: State)
    ensures CommandSet(s, ErrorSequence, RequestErrorSequence(s))
  {
  }

  lemma AuthSets(s: State, allowed: bool, pnc: bool)
    ensures CommandSet(s, Auth(allowed, pnc), Authorize(s, allowed, pnc))
  {
  }

  lemma DeAuthSets(s: State)
    ensures CommandSet(s, DeAuth, DeAuthorize(s))
  {
  }

  lemma LimitSets(s: State, c: real, until: int, now: int)
    ensures Untouched(s, SetMaxCurrentUntil(s, c, until, now)) && Untouched(s, SetMaxCurrent(s, c, now))
  {
  }

  lemma ConfigureSets(s: State, step: Step)
    requires step.Configure?
    ensures CommandSet(s, step, Apply(s, step))
  {
  }

  lemma InputSets(s: State, step: Step)
    requires step.Matching? || step.CurrentDrawn? || step.DcLimits?
    ensures CommandSet(s, step, Apply(s, step))
  {
  }

  lemma UntouchedSets(s: State, step: Step, r: State)
    requires Untouched(s, r)
    requires !step.Auth? && !step.DeAuth? && !step.Configure? && !step.ErrorSequence? && !step.PilotEvent?
      && !step.Matching? && !step.CurrentDrawn? && !step.DcLimits?
    ensures CommandSet(s, step, r)
  {
  }

  /** Everything else a pilot event or a command sets, in every state; what a tick sets, says TickSets. */
  lemma CommandSets(s: State, step: Step)
    requires !step.Tick?
    ensures CommandSet(s, step, Apply(s, step))
  {
    match step
    case PilotEvent(e, now) => EventSets(s, e, now);
    case ErrorSequence => ErrorSequenceSets(s);
    case Auth(allowed, pnc) => AuthSets(s, allowed, pnc);
    case DeAuth => DeAuthSets(s);
    case Configure(mode, hlc, hlc5, enforce, soc) => ConfigureSets(s, step);
    case Matching(started) => InputSets(s, step);
    case CurrentDrawn(drawn) => InputSets(s, step);
    case DcLimits(supplied) => InputSets(s, step);
    case _ =>
      OtherSets(s, step);
      UntouchedSets(s, step, Apply(s, step));
  }

  lemma OtherSets(s: State, step: Step)
    requires !step.Auth? && !step.DeAuth? && !step.Configure? && !step.ErrorSequence? && !step.PilotEvent?
      && !step.Matching? && !step.CurrentDrawn? && !step.DcLimits? && !step.Tick?
    ensures Untouched(s, Apply(s, step))
  {
    match step
    case LimitUntil(c, until, now) => LimitSets(s, c, until, now);
    case Limit(c, now) => LimitSets(s, c, 0, now);
    case ResumePowerAvailable(now) => ResumeSets(s, now);
    case Cancel => CancelSets(s);
    case _ =>
      AnnouncingSets(s);
      LeadingSets(s);
  }
}
