/**
 * What a car can read off the pilot line, in every run: the limit the charger has stored, or nothing. And how
 * charging can be reached at all.
 */
module ChargerPilot {
  import opened DutyCycle
  import opened ChargerSpec
  import opened Wrappers
  import opened ChargerSafety
  import opened ChargerLedger
  import opened ChargerDiagram
  import opened ChargerMemory

  // ---------- Duty cycles follow the limit ----------

  /** A duty cycle asks for digital communication, offers nothing, or reads as the limit. */
  predicate Reads(dc: real, limit: real) {
    dc == 0.05 || DutyCycleToAmps(dc) == 0.0 || DutyCycleToAmps(dc) == Understood(limit)
  }

  /** From a trace on, only duty cycles were added that read as the limit. */
  predicate AddsReading(base: Trace, t: Trace, limit: real)
    decreases t
  {
    t == base || (t.Then? && (t.last.PwmOn? ==> Reads(t.last.dc, limit)) && AddsReading(base, t.earlier, limit))
  }

  lemma {:induction false} ReadingItems(base: Trace, t: Trace, limit: real)
    requires AddsReading(base, t, limit)
    ensures |Items(base)| <= |Items(t)| && Items(t)[..|Items(base)|] == Items(base)
    ensures forall i :: |Items(base)| <= i < |Items(t)| && Items(t)[i].PwmOn? ==> Reads(Items(t)[i].dc, limit)
    decreases t
  {
    if t != base {
      ReadingItems(base, t.earlier, limit);
      assert Items(t)[..|Items(base)|] == Items(t.earlier)[..|Items(base)|];
    }
  }

  lemma DutyReads(s: State)
    ensures Reads(Duty(s), s.maxCurrent)
  {
    DutyCycleRoundTrip(s.maxCurrent);
  }

  lemma OneAdded(base: Trace, t: Trace, yes: bool, o: Output, limit: real)
    requires AddsReading(base, t, limit) && (o.PwmOn? ==> Reads(o.dc, limit))
    ensures AddsReading(base, FollowedBy(t, yes, o), limit) && AddsReading(base, Then(t, o), limit)
  {
  }

  lemma NothingAdded(t: Trace, limit: real)
    ensures AddsReading(t, t, limit)
  {
  }

  lemma EndedReads(base: Trace, t: Trace, active: bool, limit: real)
    requires AddsReading(base, t, limit)
    ensures AddsReading(base, Ended(t, active), limit)
  {
    OneAdded(base, t, active, Signal(ChargingFinished), limit);
    OneAdded(base, FollowedBy(t, active, Signal(ChargingFinished)), active, Signal(TransactionFinished), limit);
  }

  lemma WaitingReads(s: State)
    ensures AddsReading(s.trace, EntryWaitingSends(s), s.maxCurrent)
  {
    var t, limit := s.trace, s.maxCurrent;
    var t1 := Then(t, AllowPowerOn(false));
    var t2 := FollowedBy(t1, !s.sessionActive, Signal(SessionStarted));
    var t3 := Then(t2, Signal(AuthRequired));
    OneAdded(t, t, true, AllowPowerOn(false), limit);
    OneAdded(t, t1, !s.sessionActive, Signal(SessionStarted), limit);
    OneAdded(t, t2, true, Signal(AuthRequired), limit);
    OneAdded(t, t3, AsksForFive(s.config), PwmOn(0.05), limit);
    OneAdded(t, FollowedBy(t3, AsksForFive(s.config), PwmOn(0.05)), GoesOn(s, true), Signal(TransactionStarted), limit);
  }

  lemma PrepareReads(s: State)
    ensures AddsReading(s.trace, EntryPrepareSends(s), s.maxCurrent)
  {
    var t, limit := s.trace, s.maxCurrent;
    var t1 := Then(t, Signal(PrepareChargingEvent));
    var t2 := Then(t1, AllowPowerOn(true));
    OneAdded(t, t, true, Signal(PrepareChargingEvent), limit);
    OneAdded(t, t1, true, AllowPowerOn(true), limit);
    OneAdded(t, t2, true, PwmOn(0.05), limit);
    OneAdded(t, t2, true, PwmOn(1.0), limit);
    DutyReads(s);
    OneAdded(t, Then(t2, PwmOn(1.0)), Duty(s) != 1.0, PwmOn(Duty(s)), limit);
  }

  lemma SwitchedOnReads(s: State, e: SessionEvent)
    ensures AddsReading(s.trace, SwitchedOn(s, e), s.maxCurrent)
  {
    var t, limit := s.trace, s.maxCurrent;
    OneAdded(t, t, true, Signal(e), limit);
    OneAdded(t, Then(t, Signal(e)), true, AllowPowerOn(true), limit);
    DutyReads(s);
    OneAdded(t, Then(Then(t, Signal(e)), AllowPowerOn(true)), true, PwmOn(Duty(s)), limit);
  }

  /** Two or three outputs of which none is a duty cycle. */
  lemma SilentReads(t: Trace, a: Output, b: Output, more: bool, c: Output, limit: real)
    requires !a.PwmOn? && !b.PwmOn? && !c.PwmOn?
    ensures AddsReading(t, Then(t, a), limit) && AddsReading(t, Then(Then(t, a), b), limit)
    ensures AddsReading(t, FollowedBy(Then(t, a), more, c), limit)
    ensures AddsReading(t, FollowedBy(Then(Then(t, a), b), more, c), limit)
  {
  }

  lemma IdleReads(s: State)
    requires s.current == Idle
    ensures AddsReading(s.trace, EntrySends(s), s.maxCurrent)
  {
    var t, limit := s.trace, s.maxCurrent;
    OneAdded(t, t, true, PwmOff, limit);
    OneAdded(t, Then(t, PwmOff), s.sessionActive, Signal(SessionFinished), limit);
    OneAdded(t, FollowedBy(Then(t, PwmOff), s.sessionActive, Signal(SessionFinished)), s.transactionActive, Dropped,
             limit);
  }

  lemma EndsRead(s: State)
    requires s.current == StoppingCharging || s.current == Finished
    ensures AddsReading(s.trace, EntrySends(s), s.maxCurrent)
  {
    var t, limit := s.trace, s.maxCurrent;
    OneAdded(t, t, true, Signal(Stopping), limit);
    EndedReads(t, Then(t, Signal(Stopping)), s.transactionActive, limit);
    OneAdded(t, Ended(Then(t, Signal(Stopping)), s.transactionActive), true, DcSupplyOff, limit);
    OneAdded(t, Ended(Then(t, Signal(Stopping)), s.transactionActive), true, PwmOff, limit);
    EndedReads(t, t, s.transactionActive, limit);
    OneAdded(t, Ended(t, s.transactionActive), true, Signal(SessionFinished), limit);
    OneAdded(t, Then(Ended(t, s.transactionActive), Signal(SessionFinished)), true, PwmF, limit);
  }

  lemma EntryReads(s: State)
    ensures AddsReading(s.trace, EntrySends(s), s.maxCurrent)
  {
    var t, limit := s.trace, s.maxCurrent;
    match s.current
    case Idle => IdleReads(s);
    case WaitingForAuthentication => WaitingReads(s);
    case PrepareCharging => PrepareReads(s);
    case Charging =>
      SwitchedOnReads(s, ChargingResumed);
      NothingAdded(t, limit);
    case ChargingPausedEV =>
      SwitchedOnReads(s, PausedByEV);
      SilentReads(t, AllowPowerOn(false), PwmOff, false, PwmOff, limit);
    case ChargingPausedEVSE => SilentReads(t, Signal(PausedByEVSE), PwmOff, s.config.mode == DC, DcSupplyOff, limit);
    case WaitingForEnergy =>
      SilentReads(t, Signal(WaitingForEnergyEvent), PwmOff, !s.use5ThisSession, PwmOff, limit);
    case StoppingCharging => EndsRead(s);
    case Finished => EndsRead(s);
    case Disabled => SilentReads(t, Signal(DisabledEvent), PwmF, false, PwmOff, limit);
    case Replug => SilentReads(t, Signal(ReplugStarted), PwmF, false, PwmOff, limit);
    case TStepEF => SilentReads(t, PwmF, PwmF, false, PwmOff, limit);
    case TStepX1 => SilentReads(t, PwmOff, PwmF, false, PwmOff, limit);
    case Error => SilentReads(t, Signal(ErrorEvent), PwmOff, false, PwmOff, limit);
    case Faulted => SilentReads(t, Signal(PermanentFaultEvent), PwmF, false, PwmOff, limit);
  }

  lemma StayReads(s: State, now: int)
    requires GoodPause(s.current, s.back)
    ensures AddsReading(s.trace, StaySends(s, now), s.maxCurrent)
  {
    var t, limit := s.trace, s.maxCurrent;
    NothingAdded(t, limit);
    OneAdded(t, t, GoesOn(s, false), Signal(TransactionStarted), limit);
    if s.current == TStepEF {
      OneAdded(t, t, Passed(s, false, 4000, now), Restored(s.back.pwmEF), limit);
    }
    if s.current == TStepX1 {
      OneAdded(t, t, Passed(s, false, 3000, now), Restored(s.back.pwmX1), limit);
    }
    DutyReads(s);
    OneAdded(t, t, Follows(s, now), PwmOn(Duty(s)), limit);
  }

  lemma CommandReads(s: State, step: Step, limit: real)
    requires !step.Tick?
    ensures AddsReading(s.trace, Sends(s, step), limit)
  {
    var t := s.trace;
    NothingAdded(t, limit);
    EndedReads(t, t, s.transactionActive, limit);
  }

  /**
   * In every run, every duty cycle that a step puts on the pilot line is 5 percent, offers nothing, or reads as
   * the limit that is stored after that step.
   */
  lemma PilotReadsLimit(s: State, steps: seq<Step>, step: Step, i: nat)
    requires Initial(s)
    requires |Items(Run(s, steps).trace)| <= i < |Items(Apply(Run(s, steps), step).trace)|
    requires Items(Apply(Run(s, steps), step).trace)[i].PwmOn?
    ensures Reads(Items(Apply(Run(s, steps), step).trace)[i].dc, Apply(Run(s, steps), step).maxCurrent)
  {
    var r := Run(s, steps);
    RunKeepsInv(s, steps);
    StepReads(r, step);
    ReadingItems(r.trace, Apply(r, step).trace, Apply(r, step).maxCurrent);
  }

  lemma TickReads(s: State, now: int)
    requires GoodPause(s.current, s.back)
    ensures AddsReading(s.trace, Sends(s, Tick(now)), LimitNow(s, now))
  {
    var r := InForceAt(s, now);
    if RunsOut(s) {
      OneAdded(s.trace, s.trace, true, SoCTimeout, LimitNow(s, now));
    } else if IsNew(s) {
      EntryReads(r);
    } else {
      StayReads(r, now);
    }
  }

  lemma StepReads(s: State, step: Step)
    requires GoodPause(s.current, s.back)
    ensures AddsReading(s.trace, Apply(s, step).trace, Apply(s, step).maxCurrent)
  {
    SendsExactly(s, step);
    LimitExactly(s, step);
    if step.Tick? {
      TickReads(s, step.now);
    } else {
      CommandReads(s, step, Apply(s, step).maxCurrent);
    }
  }

  // ---------- Switching on ----------

  /** What switching on for charging sends: the announcement, the power, and a duty cycle. */
  ghost predicate SwitchedOnWith(s: State, r: State, dc: real) {
    r.trace == Then(Then(Then(s.trace, Signal(if s.current == Charging then ChargingResumed else PausedByEV)),
                         AllowPowerOn(true)), PwmOn(dc))
  }

  /**
   * A tick that switches on for charging sends the announcement, the power and one duty cycle: 5 percent in digital
   * communication, and otherwise one that the car reads as the limit.
   */
  lemma SwitchesOnAtLimit(s: State, now: int) returns (dc: real)
    requires SwitchesOn(s, now) && (s.current == Charging || s.current == ChargingPausedEV)
    ensures SwitchedOnWith(s, Apply(s, Tick(now)), dc)
    ensures s.use5ThisSession ==> dc == 0.05
    ensures !s.use5ThisSession ==> DutyCycleToAmps(dc) == Understood(s.maxCurrent)
  {
    SendsExactly(s, Tick(now));
    DutyCycleRoundTrip(s.maxCurrent);
    dc := Duty(s);
    assert InForceAt(s, now).maxCurrent == s.maxCurrent;
  }

  // ---------- The duty cycle the charger remembers ----------

  function DutyCount(t: Trace): nat {
    match t
    case Empty => 0
    case Then(earlier, o) => DutyCount(earlier) + if o.PwmOn? then 1 else 0
  }

  /** The last duty cycle that was sent, 0.0 before the first. */
  function LastDuty(t: Trace): real {
    match t
    case Empty => 0.0
    case Then(earlier, o) => if o.PwmOn? then o.dc else LastDuty(earlier)
  }

  /** Whenever duty cycles are sent, the last one and the time are remembered; otherwise both stay. */
  predicate DutyMoved(s: State, r: State, now: int) {
    && DutyCount(r.trace) >= DutyCount(s.trace) && r.last == s.last
    && if DutyCount(r.trace) == DutyCount(s.trace)
       then r.lastDc == s.lastDc && r.timers.lastPwmUpdate == s.timers.lastPwmUpdate
            && LastDuty(r.trace) == LastDuty(s.trace)
       else r.lastDc == LastDuty(r.trace) && r.timers.lastPwmUpdate == now
  }

  lemma MovedThrough(s: State, r: State, q: State, now: int)
    requires DutyMoved(s, r, now) && DutyMoved(r, q, now)
    ensures DutyMoved(s, q, now)
  {
  }

  lemma EmitMoves(s: State, o: Output, now: int)
    requires !o.PwmOn?
    ensures DutyMoved(s, Emit(s, o), now)
  {
  }

  lemma PwmMoves(s: State, dc: real, now: int)
    ensures DutyMoved(s, UpdatePwm(s, dc, now), now) && DutyMoved(s, UpdatePwmIfChanged(s, dc, now), now)
    ensures DutyMoved(s, UpdatePwmSlowly(s, dc, now), now)
  {
  }

  lemma GoMoves(s: State, target: EvseState, now: int)
    ensures DutyMoved(s, Go(s, target), now)
  {
  }

  lemma SessionMoves(s: State, now: int)
    ensures DutyMoved(s, StartSession(s), now) && DutyMoved(s, StopSession(s), now)
    ensures DutyMoved(s, Authorize(s, false, false), now) && DutyMoved(s, DropTransaction(s), now)
    ensures DutyMoved(s, StopTransactionIfActive(s), now) && DutyMoved(s, StartTransaction(s), now)
  {
  }

  lemma KeepMoves(s: State, isNew: bool, e: SessionEvent, now: int)
    ensures DutyMoved(s, KeepCharging(s, isNew, e, now), now)
  {
    var s1 := Announce(s, e);
    var s2 := Emit(s1, AllowPowerOn(true));
    EmitMoves(s, Signal(e), now);
    EmitMoves(s1, AllowPowerOn(true), now);
    PwmMoves(s2, if s2.use5ThisSession then PWM_5_PERCENT else AmpereToDutyCycle(s2.maxCurrent), now);
    PwmMoves(s, AmpereToDutyCycle(s.maxCurrent), now);
  }

  lemma WatchedMoves(s: State, now: int)
    ensures DutyMoved(s, ExpireLimit(CheckSoftOverCurrent(s, now), now), now)
  {
    OverCurrentSeen(s, now);
  }

  lemma ChargingMoves(s: State, isNew: bool, now: int)
    ensures DutyMoved(s, OnCharging(s, isNew, now), now)
  {
    var w := ExpireLimit(CheckSoftOverCurrent(s, now), now);
    WatchedMoves(s, now);
    GoMoves(w, WaitingForEnergy, now);
    KeepMoves(w, isNew && w.last != PrepareCharging, ChargingResumed, now);
  }

  lemma PausedEVMoves(s: State, isNew: bool, now: int)
    ensures DutyMoved(s, OnPausedEV(s, isNew, now), now)
  {
    if s.config.mode == DC {
      EmitMoves(s, AllowPowerOn(false), now);
      GoMoves(Emit(s, AllowPowerOn(false)), StoppingCharging, now);
    } else {
      var w := ExpireLimit(CheckSoftOverCurrent(s, now), now);
      WatchedMoves(s, now);
      GoMoves(w, WaitingForEnergy, now);
      KeepMoves(w, isNew, PausedByEV, now);
      assert OnPausedEV(s, isNew, now) ==
        if HasPower(w) then KeepCharging(w, isNew, PausedByEV, now) else PauseForPower(w);
    }
  }

  lemma PrepareMoves(s: State, isNew: bool, now: int)
    ensures DutyMoved(s, OnPrepare(s, isNew, now), now)
  {
    var s1 := Announce(s, PrepareChargingEvent);
    var s2 := Emit(s1, AllowPowerOn(true));
    EmitMoves(s, Signal(PrepareChargingEvent), now);
    EmitMoves(s1, AllowPowerOn(true), now);
    var dc := if s.use5ThisSession then PWM_5_PERCENT else AmpereToDutyCycle(0.0);
    PwmMoves(s2, dc, now);
    var s3 := if !isNew then s else UpdatePwm(s2, dc, now);
    PwmMoves(s3, AmpereToDutyCycle(s3.maxCurrent), now);
  }

  lemma ModeMoves(s: State, now: int)
    ensures DutyMoved(s, EnterMode(s), now)
  {
  }

  lemma EnterMoves(s: State, now: int)
    requires s.last != Replug
    ensures DutyMoved(s, EnterWaiting(s, now), now)
  {
    var s1 := Emit(s, AllowPowerOn(false));
    EmitMoves(s, AllowPowerOn(false), now);
    SessionMoves(s1, now);
    var s2 := if s1.sessionActive then s1 else StartSession(s1);
    EmitMoves(s2, Signal(AuthRequired), now);
    ModeMoves(Announce(s2, AuthRequired), now);
    PwmMoves(EnterMode(Announce(s2, AuthRequired)), PWM_5_PERCENT, now);
  }

  lemma ProceedMoves(s: State, now: int)
    ensures DutyMoved(s, Proceed(s), now)
  {
  }

  lemma WaitingMoves(s: State, isNew: bool, now: int)
    requires s.last != Replug
    ensures DutyMoved(s, OnWaiting(s, isNew, now), now)
  {
    EnterMoves(s, now);
    var s1 := if isNew then EnterWaiting(s, now) else s;
    SessionMoves(s1, now);
    ProceedMoves(StartTransaction(s1), now);
  }

  lemma LeavingMoves(s: State, dc: real, target: EvseState, now: int)
    ensures DutyMoved(s, Go(if dc == 0.0 then Emit(s, PwmOff) else UpdatePwm(s, dc, now), target), now)
  {
    EmitMoves(s, PwmOff, now);
    PwmMoves(s, dc, now);
    GoMoves(Emit(s, PwmOff), target, now);
    GoMoves(UpdatePwm(s, dc, now), target, now);
  }

  lemma PausesMove(s: State, isNew: bool, now: int)
    ensures DutyMoved(s, OnTStepEF(s, isNew, now), now) && DutyMoved(s, OnTStepX1(s, isNew, now), now)
  {
    var f, off := if isNew then Emit(s, PwmF) else s, if isNew then Emit(s, PwmOff) else s;
    EmitMoves(s, PwmF, now);
    EmitMoves(s, PwmOff, now);
    LeavingMoves(f, f.back.pwmEF, f.back.stateEF, now);
    LeavingMoves(off, off.back.pwmX1, off.back.stateX1, now);
  }

  lemma StoppingMoves(s: State, isNew: bool, now: int)
    ensures DutyMoved(s, OnStopping(s, isNew), now)
  {
    var s1 := Announce(s, Stopping);
    var s2 := StopTransactionIfActive(s1);
    EmitMoves(s, Signal(Stopping), now);
    SessionMoves(s1, now);
    EmitMoves(s2, DcSupplyOff, now);
    EmitMoves(s2, PwmOff, now);
    GoMoves(Emit(s2, PwmOff), Finished, now);
  }

  lemma FinishedMoves(s: State, isNew: bool, now: int)
    ensures DutyMoved(s, OnFinished(s, isNew), now)
  {
    if isNew {
      var s1 := StopTransactionIfActive(s);
      var s2 := StopSession(s1);
      SessionMoves(s, now);
      SessionMoves(s1, now);
      MovedThrough(s, s1, s2, now);
      EmitMoves(s2, PwmF, now);
      MovedThrough(s, s2, Emit(s2, PwmF), now);
      GoMoves(Emit(s2, PwmF), Idle, now);
    } else {
      GoMoves(s, Idle, now);
    }
  }

  lemma IdleMoves(s: State, isNew: bool, now: int)
    ensures DutyMoved(s, OnIdle(s, isNew), now)
  {
    var off := Emit(s, PwmOff);
    EmitMoves(s, PwmOff, now);
    SessionMoves(off, now);
    SessionMoves(Authorize(off, false, false), now);
  }

  lemma AnnouncingMoves(s: State, e: SessionEvent, o: Output, p: Output, now: int)
    requires !o.PwmOn? && !p.PwmOn?
    ensures DutyMoved(s, Announce(s, e), now) && DutyMoved(s, Emit(Announce(s, e), o), now)
    ensures DutyMoved(s, Emit(Emit(Announce(s, e), o), p), now)
  {
    EmitMoves(s, Signal(e), now);
    EmitMoves(Announce(s, e), o, now);
    EmitMoves(Emit(Announce(s, e), o), p, now);
  }

  lemma ReplugMoves(s: State, isNew: bool, now: int)
    requires s.current == Replug
    ensures DutyMoved(s, OnState(s, isNew, now), now)
  {
    EmitMoves(s, Signal(ReplugStarted), now);
  }

  lemma RestMoves(s: State, isNew: bool, now: int)
    requires s.current in {Disabled, Error, Faulted, ChargingPausedEVSE, WaitingForEnergy}
    ensures DutyMoved(s, OnState(s, isNew, now), now)
  {
    AnnouncingMoves(s, DisabledEvent, PwmF, PwmF, now);
    AnnouncingMoves(s, ErrorEvent, PwmOff, PwmOff, now);
    AnnouncingMoves(s, PermanentFaultEvent, PwmF, PwmF, now);
    AnnouncingMoves(s, PausedByEVSE, PwmOff, DcSupplyOff, now);
    AnnouncingMoves(s, WaitingForEnergyEvent, PwmOff, PwmOff, now);
  }

  lemma StateMoves(s: State, isNew: bool, now: int)
    requires s.last == s.current
    ensures DutyMoved(s, OnState(s, isNew, now), now)
  {
    match s.current
    case WaitingForAuthentication => WaitingMoves(s, isNew, now);
    case Charging => ChargingMoves(s, isNew, now);
    case ChargingPausedEV => PausedEVMoves(s, isNew, now);
    case PrepareCharging => PrepareMoves(s, isNew, now);
    case TStepEF => PausesMove(s, isNew, now);
    case TStepX1 => PausesMove(s, isNew, now);
    case Idle => IdleMoves(s, isNew, now);
    case Finished => FinishedMoves(s, isNew, now);
    case Replug => ReplugMoves(s, isNew, now);
    case StoppingCharging => StoppingMoves(s, isNew, now);
    case _ => RestMoves(s, isNew, now);
  }

  /** What a tick leaves is remembered as the last duty cycle and its time, and as the last state. */
  predicate TickMoved(s: State, r: State, now: int) {
    && r.last == s.current
    && if DutyCount(r.trace) == DutyCount(s.trace)
       then r.lastDc == s.lastDc && r.timers.lastPwmUpdate == s.timers.lastPwmUpdate
            && LastDuty(r.trace) == LastDuty(s.trace)
       else r.lastDc == LastDuty(r.trace) && r.timers.lastPwmUpdate == now
  }

  lemma ReadyMoves(s: State, now: int)
    ensures var q := Ready(s, now);
      && q.last == q.current == s.current && q.trace == s.trace && q.lastDc == s.lastDc
      && q.timers.lastPwmUpdate == s.timers.lastPwmUpdate
  {
    Readies(s, now);
  }

  /** After a tick, the duty cycle it sent last and its time are remembered, and the state it found. */
  lemma TickMoves(s: State, now: int)
    ensures TickMoved(s, Apply(s, Tick(now)), now)
  {
    TickRuns(s, now);
    if RunsOut(s) {
      RunOutMoves(s, now);
    } else {
      ReadyMoves(s, now);
      StateMoves(Ready(s, now), IsNew(s), now);
      MovedTick(s, Ready(s, now), OnState(Ready(s, now), IsNew(s), now), now);
    }
  }

  lemma RunOutMoves(s: State, now: int)
    ensures TickMoved(s, StopCounting(BeginTick(ExpireLimit(s, now))), now)
  {
    var b := BeginTick(ExpireLimit(s, now));
    BegunMoves(s, now);
    EmitMoves(b.(timers := b.timers.(socTimeout := false, socTimer := 3600000)), SoCTimeout, now);
    MovedTick(s, b, StopCounting(b), now);
  }

  lemma BegunMoves(s: State, now: int)
    ensures var b := BeginTick(ExpireLimit(s, now));
      && b.last == s.current && b.trace == s.trace && b.lastDc == s.lastDc
      && b.timers.lastPwmUpdate == s.timers.lastPwmUpdate
  {
  }

  lemma MovedTick(s: State, q: State, r: State, now: int)
    requires q.last == s.current && q.trace == s.trace && q.lastDc == s.lastDc
    requires q.timers.lastPwmUpdate == s.timers.lastPwmUpdate && DutyMoved(q, r, now)
    ensures TickMoved(s, r, now)
  {
  }

  lemma CommandsSilent(s: State, step: Step)
    requires !step.Tick?
    ensures LastDuty(Sends(s, step)) == LastDuty(s.trace)
  {
  }

  /** In every run, the duty cycle the charger remembers is the last one it sent. */
  lemma {:induction false} LastDutyRemembered(s: State, steps: seq<Step>)
    requires Initial(s)
    ensures Run(s, steps).lastDc == LastDuty(Run(s, steps).trace)
    decreases |steps|
  {
    if steps != [] {
      var r, step := Run(s, steps[..|steps| - 1]), steps[|steps| - 1];
      LastDutyRemembered(s, steps[..|steps| - 1]);
      if step.Tick? {
        TickMoves(r, step.now);
      } else {
        CommandSets(r, step);
        SendsExactly(r, step);
        CommandsSilent(r, step);
      }
    }
  }

  // ---------- How charging is reached ----------

  /** The car asks for power after a pause, or in AC mode after preparation while there is power. */
  predicate CarStarts(s: State, step: Step) {
    && step.PilotEvent? && step.e == CarRequestedPower
    && (|| s.current == ChargingPausedEV
        || (s.current == PrepareCharging && s.config.mode == AC && Powered(s, step.now)))
  }

  /** Current demand starts after preparation, or power returns during a transaction that waits for it. */
  predicate StationStarts(s: State, step: Step) {
    || (step.CurrentDemandStarted? && s.current == PrepareCharging)
    || (step.ResumePowerAvailable? && s.current == WaitingForEnergy && s.transactionActive && Powered(s, step.now))
  }

  lemma TicksReachNoCharging(s: State, now: int)
    requires s.current != Charging && GoodReturns(s.back)
    ensures Leads(s, Tick(now)) != Charging
  {
  }

  lemma EventsReachCharging(s: State, e: ControlPilotEvent, now: int)
    requires s.current != Charging
    ensures EventLeads(s, e, now) == Charging <==> CarStarts(s, PilotEvent(e, now))
  {
  }

  lemma CommandsReachCharging(s: State, step: Step)
    requires s.current != Charging && !step.Tick? && !step.PilotEvent?
    ensures Leads(s, step) == Charging <==> StationStarts(s, step)
  {
  }

  /**
   * In every run, charging is reached from elsewhere exactly by the car's request, the start of current demand or
   * the return of power, and never by a tick.
   */
  lemma IntoChargingExactly(s: State, steps: seq<Step>, step: Step)
    requires Initial(s) && Run(s, steps).current != Charging
    ensures var r := Run(s, steps);
      Apply(r, step).current == Charging <==> CarStarts(r, step) || StationStarts(r, step)
  {
    var r := Run(s, steps);
    RunKeepsInv(s, steps);
    LeadsExactly(r, step);
    match step
    case Tick(now) => TicksReachNoCharging(r, now);
    case PilotEvent(e, now) => EventsReachCharging(r, e, now);
    case _ => CommandsReachCharging(r, step);
  }
}
