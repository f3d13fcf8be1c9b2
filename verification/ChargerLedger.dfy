/**
 * Exactly when the charger announces, switches and forgets: for every step in every state, the outputs of
 * four kinds that it adds to the trace, by conditions on the state before the step.
 */
module ChargerLedger {
  import opened DutyCycle
  import opened ChargerSpec
  import opened Wrappers
  import opened ChargerSafety

  /** How often outputs were sent, and whether power was last allowed or not. */
  datatype Ledger = Ledger(dropped: nat, resumed: nat, paused: nat, started: nat, power: bool)

  function Booked(l: Ledger, o: Output): Ledger {
    match o
    case Dropped => l.(dropped := l.dropped + 1)
    case AllowPowerOn(on) => l.(power := on)
    case Signal(ChargingResumed) => l.(resumed := l.resumed + 1)
    case Signal(PausedByEV) => l.(paused := l.paused + 1)
    case Signal(PausedByEVSE) => l.(paused := l.paused + 1)
    case Signal(TransactionStarted) => l.(started := l.started + 1)
    case _ => l
  }

  function LedgerOf(t: Trace): Ledger {
    match t
    case Empty => Ledger(0, 0, 0, 0, false)
    case Then(earlier, o) => Booked(LedgerOf(earlier), o)
  }

  lemma {:induction false} LedgerCountsCharging(t: Trace)
    ensures LedgerOf(t).resumed == Count(t, Signal(ChargingResumed))
    ensures LedgerOf(t).paused == Count(t, Signal(PausedByEV)) + Count(t, Signal(PausedByEVSE))
  {
    match t
    case Empty =>
    case Then(earlier, o) => LedgerCountsCharging(earlier);
  }

  lemma {:induction false} LedgerCountsTransactions(t: Trace)
    ensures LedgerOf(t).dropped == Count(t, Dropped)
    ensures LedgerOf(t).started == Count(t, Signal(TransactionStarted))
  {
    match t
    case Empty =>
    case Then(earlier, o) => LedgerCountsTransactions(earlier);
  }

  /** The ledger counts what stands in the trace. */
  lemma LedgerCounts(t: Trace)
    ensures var l := LedgerOf(t);
      && l.dropped == Count(t, Dropped) && l.resumed == Count(t, Signal(ChargingResumed))
      && l.paused == Count(t, Signal(PausedByEV)) + Count(t, Signal(PausedByEVSE))
      && l.started == Count(t, Signal(TransactionStarted))
  {
    LedgerCountsCharging(t);
    LedgerCountsTransactions(t);
  }

  /** Power was last allowed at some position, and not forbidden since. */
  ghost predicate PowerAllowed(out: seq<Output>) {
    Open(out, AllowPowerOn(true), {AllowPowerOn(false)})
  }

  lemma {:induction false} LedgerKnowsPower(t: Trace)
    ensures LedgerOf(t).power <==> PowerAllowed(Items(t))
  {
    match t
    case Empty =>
    case Then(earlier, o) =>
      LedgerKnowsPower(earlier);
      OpenStep(Items(earlier), o, AllowPowerOn(true), {AllowPowerOn(false)});
  }

  // ---------- When a tick does what ----------

  /** The countdown for the state of charge ends in this tick. */
  predicate RunsOut(s: State) {
    s.timers.socTimeout && s.timers.socTimer < 50
  }

  /** The state is entered in this tick. */
  predicate Enters(s: State) {
    s.last != s.current && !RunsOut(s)
  }

  /** There is a limit in force that allows charging. */
  predicate Powered(s: State, now: int) {
    s.validUntil >= now && s.maxCurrent > 5.9
  }

  predicate Forgets(s: State) {
    Enters(s) && s.current == Idle && s.transactionActive
  }

  predicate Resumes(s: State, now: int) {
    Enters(s) && s.current == Charging && s.config.mode == AC && Powered(s, now)
  }

  predicate Pauses(s: State, now: int) {
    && Enters(s)
    && (|| s.current == ChargingPausedEVSE
        || (s.current == ChargingPausedEV && s.config.mode == AC && Powered(s, now)))
  }

  /** An authorized charger starts a transaction; on entering, it must have a session already. */
  predicate Starts(s: State) {
    && s.current == WaitingForAuthentication && !RunsOut(s) && s.authorized && (Enters(s) ==> s.sessionActive)
    && (s.config.mode == DC ==> s.inputs.dcSupplied)
  }

  predicate SwitchesOn(s: State, now: int) {
    && Enters(s)
    && (|| s.current == PrepareCharging
        || ((s.current == Charging || s.current == ChargingPausedEV) && s.config.mode == AC && Powered(s, now)))
  }

  predicate SwitchesOff(s: State) {
    && Enters(s)
    && (s.current == WaitingForAuthentication || (s.current == ChargingPausedEV && s.config.mode == DC))
  }

  function One(b: bool): nat {
    if b then 1 else 0
  }

  /** The ledger after a tick. */
  function Ticked(s: State, now: int): Ledger {
    var l := LedgerOf(s.trace);
    Ledger(l.dropped + One(Forgets(s)), l.resumed + One(Resumes(s, now)), l.paused + One(Pauses(s, now)),
           l.started + One(Starts(s)),
           if SwitchesOn(s, now) then true else if SwitchesOff(s) then false else l.power)
  }

  function LedgerAfter(s: State, step: Step): Ledger {
    if step.Tick? then Ticked(s, step.now) else LedgerOf(s.trace)
  }

  // ---------- The states ----------

  predicate Neutral(o: Output) {
    && !o.Dropped? && !o.AllowPowerOn? && o != Signal(ChargingResumed) && o != Signal(TransactionStarted)
    && o != Signal(PausedByEV) && o != Signal(PausedByEVSE)
  }

  predicate Same(s: State, r: State) {
    LedgerOf(r.trace) == LedgerOf(s.trace)
  }

  lemma NeutralEmit(s: State, o: Output)
    requires Neutral(o)
    ensures Same(s, Emit(s, o))
  {
  }

  lemma PwmNeutral(s: State, dc: real, now: int)
    ensures Same(s, UpdatePwm(s, dc, now)) && Same(s, UpdatePwmIfChanged(s, dc, now))
    ensures Same(s, UpdatePwmSlowly(s, dc, now))
  {
  }

  lemma SessionNeutral(s: State, allowed: bool, pnc: bool)
    ensures Same(s, StartSession(s)) && Same(s, StopSession(s)) && Same(s, Authorize(s, allowed, pnc))
    ensures Authorize(s, allowed, pnc).transactionActive == s.transactionActive
  {
  }

  lemma StopNeutral(s: State)
    ensures Same(s, StopTransactionIfActive(s))
  {
    if s.transactionActive {
      var s1 := s.(transactionActive := false);
      NeutralEmit(s1, Signal(ChargingFinished));
      NeutralEmit(Announce(s1, ChargingFinished), Signal(TransactionFinished));
    }
  }

  lemma AnnouncedNeutral(s: State, e: SessionEvent, o: Output)
    requires Neutral(Signal(e)) && Neutral(o)
    ensures Same(s, Announce(s, e)) && Same(s, Emit(Announce(s, e), o))
  {
    NeutralEmit(s, Signal(e));
    NeutralEmit(Announce(s, e), o);
  }

  lemma IdleLedger(s: State, isNew: bool)
    ensures LedgerOf(OnIdle(s, isNew).trace) ==
      LedgerOf(s.trace).(dropped := LedgerOf(s.trace).dropped + One(isNew && s.transactionActive))
  {
    NeutralEmit(s, PwmOff);
    SessionNeutral(Emit(s, PwmOff), false, false);
  }

  lemma EnterLedger(s: State, now: int)
    requires s.last != Replug
    ensures LedgerOf(EnterWaiting(s, now).trace) == LedgerOf(s.trace).(power := false)
    ensures var r := EnterWaiting(s, now);
      r.authorized == (s.authorized && s.sessionActive) && r.config == s.config && r.inputs == s.inputs
  {
    var s1 := Emit(s, AllowPowerOn(false));
    SessionNeutral(s1, false, false);
    var s2 := if s1.sessionActive then s1 else StartSession(s1);
    NeutralEmit(s2, Signal(AuthRequired));
    PwmNeutral(EnterMode(Announce(s2, AuthRequired)), PWM_5_PERCENT, now);
  }

  lemma ProceedNeutral(s: State)
    ensures Same(s, Proceed(s))
  {
  }

  lemma StartLedger(s: State)
    ensures var r := Proceed(StartTransaction(s));
      LedgerOf(r.trace) == LedgerOf(s.trace).(started := LedgerOf(s.trace).started + 1)
  {
    ProceedNeutral(StartTransaction(s));
  }

  lemma WaitingLedger(s: State, isNew: bool, now: int)
    requires s.last != Replug
    ensures var l := LedgerOf(s.trace);
      LedgerOf(OnWaiting(s, isNew, now).trace) ==
        l.(power := l.power && !isNew,
           started := l.started + One(s.authorized && (isNew ==> s.sessionActive)
                                      && (s.config.mode == DC ==> s.inputs.dcSupplied)))
  {
    if isNew {
      EnterLedger(s, now);
    }
    StartLedger(if isNew then EnterWaiting(s, now) else s);
  }

  lemma PausesNeutral(s: State, isNew: bool, now: int)
    ensures Same(s, OnTStepEF(s, isNew, now)) && Same(s, OnTStepX1(s, isNew, now))
  {
    var f, off := if isNew then Emit(s, PwmF) else s, if isNew then Emit(s, PwmOff) else s;
    NeutralEmit(s, PwmF);
    NeutralEmit(s, PwmOff);
    NeutralEmit(f, PwmOff);
    NeutralEmit(off, PwmOff);
    PwmNeutral(f, s.back.pwmEF, now);
    PwmNeutral(off, s.back.pwmX1, now);
  }

  lemma PrepareLedger(s: State, isNew: bool, now: int)
    ensures var l := LedgerOf(s.trace); LedgerOf(OnPrepare(s, isNew, now).trace) == l.(power := l.power || isNew)
  {
    NeutralEmit(s, Signal(PrepareChargingEvent));
    var s1 := Emit(Announce(s, PrepareChargingEvent), AllowPowerOn(true));
    var dc := if s.use5ThisSession then PWM_5_PERCENT else AmpereToDutyCycle(0.0);
    PwmNeutral(s1, dc, now);
    var s2 := if isNew then UpdatePwm(s1, dc, now) else s;
    PwmNeutral(s2, AmpereToDutyCycle(s2.maxCurrent), now);
  }

  lemma KeepLedger(s: State, isNew: bool, e: SessionEvent, now: int)
    requires e == ChargingResumed || e == PausedByEV
    ensures var l := LedgerOf(s.trace);
      LedgerOf(KeepCharging(s, isNew, e, now).trace) ==
        l.(power := l.power || isNew, resumed := l.resumed + One(isNew && e == ChargingResumed),
           paused := l.paused + One(isNew && e == PausedByEV))
  {
    if isNew {
      var s1 := Announce(s, e);
      var s2 := Emit(s1, AllowPowerOn(true));
      assert LedgerOf(s1.trace) == Booked(LedgerOf(s.trace), Signal(e));
      PwmNeutral(s2, if s2.use5ThisSession then PWM_5_PERCENT else AmpereToDutyCycle(s2.maxCurrent), now);
    } else {
      PwmNeutral(s, AmpereToDutyCycle(s.maxCurrent), now);
    }
  }

  /** Watching the current and the limit sends nothing. */
  lemma WatchedLimits(s: State, now: int)
    ensures var r := ExpireLimit(CheckSoftOverCurrent(s, now), now);
      && r.trace == s.trace && r.last == s.last && r.use5ThisSession == s.use5ThisSession
      && (HasPower(r) <==> Powered(s, now))
  {
  }

  lemma ChargingLedger(s: State, isNew: bool, now: int)
    requires s.last == Charging
    ensures var l := LedgerOf(s.trace);
      var on := isNew && s.config.mode == AC && Powered(s, now);
      LedgerOf(OnCharging(s, isNew, now).trace) == l.(power := l.power || on, resumed := l.resumed + One(on))
  {
    WatchedLimits(s, now);
    KeepLedger(ExpireLimit(CheckSoftOverCurrent(s, now), now), isNew, ChargingResumed, now);
  }

  lemma PausedEVLedger(s: State, isNew: bool, now: int)
    ensures var l := LedgerOf(s.trace);
      LedgerOf(OnPausedEV(s, isNew, now).trace) ==
        if s.config.mode == DC then l.(power := l.power && !isNew)
        else
          var on := isNew && Powered(s, now);
          l.(power := l.power || on, paused := l.paused + One(on))
  {
    if s.config.mode == DC {
      assert LedgerOf(Emit(s, AllowPowerOn(false)).trace) == Booked(LedgerOf(s.trace), AllowPowerOn(false));
    } else {
      PausedEVLedgerAC(s, isNew, now);
    }
  }

  lemma PausedEVLedgerAC(s: State, isNew: bool, now: int)
    requires s.config.mode == AC
    ensures var l, on := LedgerOf(s.trace), isNew && Powered(s, now);
      LedgerOf(OnPausedEV(s, isNew, now).trace) == l.(power := l.power || on, paused := l.paused + One(on))
  {
    var s1 := ExpireLimit(CheckSoftOverCurrent(s, now), now);
    WatchedLimits(s, now);
    KeepLedger(s1, isNew, PausedByEV, now);
    assert PauseForPower(s1).trace == s1.trace;
  }

  lemma EndingNeutral(s: State, isNew: bool)
    ensures Same(s, OnStopping(s, isNew)) && Same(s, OnFinished(s, isNew))
  {
    var s1 := Announce(s, Stopping);
    NeutralEmit(s, Signal(Stopping));
    StopNeutral(s1);
    NeutralEmit(StopTransactionIfActive(s1), DcSupplyOff);
    NeutralEmit(StopTransactionIfActive(s1), PwmOff);
    var s2 := StopTransactionIfActive(s);
    StopNeutral(s);
    SessionNeutral(s2, false, false);
    NeutralEmit(StopSession(s2), PwmF);
  }

  lemma PausedLedger(s: State, isNew: bool)
    ensures var l := LedgerOf(s.trace);
      LedgerOf(OnPausedEVSE(s, isNew).trace) == l.(paused := l.paused + One(isNew))
  {
    var s1 := Announce(s, PausedByEVSE);
    assert LedgerOf(s1.trace) == Booked(LedgerOf(s.trace), Signal(PausedByEVSE));
    NeutralEmit(s1, PwmOff);
    NeutralEmit(Emit(s1, PwmOff), DcSupplyOff);
  }

  lemma WaitingForEnergyNeutral(s: State, isNew: bool)
    ensures Same(s, OnWaitingForEnergy(s, isNew))
  {
    AnnouncedNeutral(s, WaitingForEnergyEvent, PwmOff);
  }

  lemma RestNeutral(s: State, isNew: bool, now: int)
    requires s.current == Disabled || s.current == Replug || s.current == Error || s.current == Faulted
    ensures Same(s, OnState(s, isNew, now))
  {
    AnnouncedNeutral(s, DisabledEvent, PwmF);
    AnnouncedNeutral(s, ReplugStarted, PwmF);
    AnnouncedNeutral(s, ErrorEvent, PwmOff);
    AnnouncedNeutral(s, PermanentFaultEvent, PwmF);
  }

  /** What a state adds to the ledger when it runs. */
  function InState(s: State, isNew: bool, now: int): Ledger {
    var l := LedgerOf(s.trace);
    var on := isNew && s.config.mode == AC && Powered(s, now);
    match s.current
    case Idle => l.(dropped := l.dropped + One(isNew && s.transactionActive))
    case WaitingForAuthentication =>
      l.(power := l.power && !isNew,
         started := l.started + One(s.authorized && (isNew ==> s.sessionActive)
                                    && (s.config.mode == DC ==> s.inputs.dcSupplied)))
    case PrepareCharging => l.(power := l.power || isNew)
    case Charging => l.(power := l.power || on, resumed := l.resumed + One(on))
    case ChargingPausedEV =>
      if s.config.mode == DC then l.(power := l.power && !isNew)
      else l.(power := l.power || on, paused := l.paused + One(on))
    case ChargingPausedEVSE => l.(paused := l.paused + One(isNew))
    case _ => l
  }

  lemma StateLedger(s: State, isNew: bool, now: int)
    requires s.last == s.current
    ensures LedgerOf(OnState(s, isNew, now).trace) == InState(s, isNew, now)
  {
    match s.current
    case Idle => IdleLedger(s, isNew);
    case WaitingForAuthentication => WaitingLedger(s, isNew, now);
    case TStepEF => PausesNeutral(s, isNew, now);
    case TStepX1 => PausesNeutral(s, isNew, now);
    case PrepareCharging => PrepareLedger(s, isNew, now);
    case Charging => ChargingLedger(s, isNew, now);
    case ChargingPausedEV => PausedEVLedger(s, isNew, now);
    case ChargingPausedEVSE => PausedLedger(s, isNew);
    case WaitingForEnergy => WaitingForEnergyNeutral(s, isNew);
    case StoppingCharging => EndingNeutral(s, isNew);
    case Finished => EndingNeutral(s, isNew);
    case _ => RestNeutral(s, isNew, now);
  }

  // ---------- The steps ----------

  /** A state that differs from another only in what a tick sets before the state itself runs. */
  predicate Begins(s: State, r: State) {
    && r.current == s.current && r.trace == s.trace && r.transactionActive == s.transactionActive
    && r.sessionActive == s.sessionActive && r.authorized == s.authorized && r.config == s.config
    && r.inputs == s.inputs && r.maxCurrent == s.maxCurrent && r.validUntil == s.validUntil
  }

  lemma StateTicks(s: State, r: State, now: int)
    requires !RunsOut(s) && Begins(s, r)
    ensures InState(r, s.last != s.current, now) == Ticked(s, now)
  {
  }

  lemma BeginTickBegins(s: State, isNew: bool, now: int)
    ensures var r := EnterState(BeginTick(s), isNew, now); Begins(s, r) && r.last == r.current
    ensures CountedOut(BeginTick(s)) <==> RunsOut(s)
  {
  }

  lemma RunLedger(s: State, now: int)
    ensures LedgerOf(RunStateMachine(s, now).trace) == Ticked(s, now)
  {
    var isNew := s.last != s.current;
    var s1 := BeginTick(s);
    BeginTickBegins(s, isNew, now);
    if CountedOut(s1) {
      NeutralEmit(s1.(timers := s1.timers.(socTimeout := false, socTimer := 3600000)), SoCTimeout);
    } else {
      var s2 := EnterState(s1, isNew, now);
      StateLedger(s2, isNew, now);
      StateTicks(s, s2, now);
    }
  }

  lemma ExpiredTicks(s: State, now: int)
    ensures Ticked(ExpireLimit(s, now), now) == Ticked(s, now)
  {
  }

  lemma TickLedger(s: State, now: int)
    ensures LedgerOf(Apply(s, Tick(now)).trace) == Ticked(s, now)
  {
    RunLedger(ExpireLimit(s, now), now);
    ExpiredTicks(s, now);
  }

  lemma IndependentNeutral(s: State, e: ControlPilotEvent)
    ensures Same(s, EventIndependent(s, e))
  {
    NeutralEmit(s, Signal(AllErrorsCleared));
  }

  lemma RequestNeutral(s: State, now: int)
    ensures RequestPower(s, now).trace == s.trace
  {
  }

  lemma InStateNeutral(s: State, e: ControlPilotEvent, now: int)
    ensures Same(s, EventInState(s, e, now))
  {
    if s.current == PrepareCharging {
      NeutralEmit(s, Signal(ChargingStarted));
      RequestNeutral(Announce(s, ChargingStarted), now);
    }
  }

  lemma EventNeutral(s: State, e: ControlPilotEvent, now: int)
    ensures Same(s, Apply(s, PilotEvent(e, now)))
  {
    IndependentNeutral(s, e);
    InStateNeutral(EventIndependent(s, e), e, now);
  }

  lemma CommandNeutral(s: State, step: Step)
    requires !step.Tick? && !step.PilotEvent?
    ensures Same(s, Apply(s, step))
  {
    match step
    case ReplugRequest => NeutralEmit(s, EvseReplug);
    case Cancel =>
      var r := Go(s, if s.config.mode == DC then StoppingCharging else ChargingPausedEVSE);
      StopNeutral(r);
    case Auth(allowed, pnc) => SessionNeutral(s, allowed, pnc);
    case DeAuth => SessionNeutral(s, false, false);
    case Disabling => NeutralEmit(Go(s, Disabled), Signal(DisabledEvent));
    case Enabling => NeutralEmit(Go(s, Idle), Signal(Enabled));
    case Fault => NeutralEmit(Go(s, Faulted), Signal(PermanentFaultEvent));
    case CurrentDemandStarted => NeutralEmit(s, Signal(ChargingStarted));
    case _ =>
  }

  /** What any step adds to the ledger. */
  lemma StepLedger(s: State, step: Step)
    ensures LedgerOf(Apply(s, step).trace) == LedgerAfter(s, step)
  {
    match step
    case Tick(now) => TickLedger(s, now);
    case PilotEvent(e, now) => EventNeutral(s, e, now);
    case _ => CommandNeutral(s, step);
  }

  // ---------- What this says about every step and every run ----------

  /** A transaction is forgotten exactly by a tick that enters Idle while it is active, and by nothing else. */
  lemma DroppedExactly(s: State, step: Step)
    ensures Count(Apply(s, step).trace, Dropped) == Count(s.trace, Dropped) + One(step.Tick? && Forgets(s))
  {
    StepLedger(s, step);
    LedgerCounts(s.trace);
    LedgerCounts(Apply(s, step).trace);
  }

  /**
   * Charging is announced as resumed exactly by a tick that enters Charging in AC mode with power, whether it
   * was paused before or only prepared.
   */
  lemma ResumedExactly(s: State, step: Step)
    ensures Count(Apply(s, step).trace, Signal(ChargingResumed)) ==
      Count(s.trace, Signal(ChargingResumed)) + One(step.Tick? && Resumes(s, step.now))
  {
    StepLedger(s, step);
    LedgerCounts(s.trace);
    LedgerCounts(Apply(s, step).trace);
  }

  /** A transaction starts exactly by a tick that finds the charger waiting and authorized. */
  lemma StartedExactly(s: State, step: Step)
    ensures Count(Apply(s, step).trace, Signal(TransactionStarted)) ==
      Count(s.trace, Signal(TransactionStarted)) + One(step.Tick? && Starts(s))
    ensures step.Tick? && Starts(s) ==> s.authorized && s.current == WaitingForAuthentication
  {
    StepLedger(s, step);
    LedgerCounts(s.trace);
    LedgerCounts(Apply(s, step).trace);
  }

  predicate OnAt(s: State, steps: seq<Step>, i: nat)
    requires i < |steps|
  {
    steps[i].Tick? && SwitchesOn(Run(s, steps[..i]), steps[i].now)
  }

  predicate OffAt(s: State, steps: seq<Step>, i: nat)
    requires i < |steps|
  {
    steps[i].Tick? && SwitchesOff(Run(s, steps[..i]))
  }

  function Ons(s: State, steps: seq<Step>): (on: seq<bool>)
    ensures |on| == |steps|
  {
    seq(|steps|, i requires 0 <= i < |steps| => OnAt(s, steps, i))
  }

  function Offs(s: State, steps: seq<Step>): (off: seq<bool>)
    ensures |off| == |steps|
  {
    seq(|steps|, i requires 0 <= i < |steps| => OffAt(s, steps, i))
  }

  /** Something was switched on at some position, and at no later one switched off. */
  ghost predicate LeftOn(on: seq<bool>, off: seq<bool>)
    requires |on| == |off|
  {
    exists i :: 0 <= i < |on| && on[i] && StaysOn(off, i)
  }

  ghost predicate StaysOn(off: seq<bool>, i: nat) {
    forall k :: i < k < |off| ==> !off[k]
  }

  lemma LeftOnStep(on: seq<bool>, off: seq<bool>, x: bool, y: bool)
    requires |on| == |off|
    ensures LeftOn(on + [x], off + [y]) <==> x || (LeftOn(on, off) && !y)
  {
    var on', off' := on + [x], off + [y];
    if x {
      assert on'[|on|] && StaysOn(off', |on|);
    }
    if LeftOn(on, off) && !y {
      var i :| 0 <= i < |on| && on[i] && StaysOn(off, i);
      assert on'[i] && StaysOn(off', i);
    }
    if LeftOn(on', off') && !x {
      var i :| 0 <= i < |on'| && on'[i] && StaysOn(off', i);
      assert forall k :: i < k < |off| ==> off[k] == off'[k];
      assert off'[|off|] == y;
      assert on[i] && StaysOn(off, i);
    }
  }

  lemma OneLonger(longer: seq<bool>, shorter: seq<bool>)
    requires |longer| == |shorter| + 1 && forall i :: 0 <= i < |shorter| ==> longer[i] == shorter[i]
    ensures longer == shorter + [longer[|shorter|]]
  {
  }

  lemma EarlierAlike(s: State, steps: seq<Step>, last: nat, i: nat)
    requires i < last <= |steps|
    ensures Ons(s, steps)[i] == Ons(s, steps[..last])[i] && Offs(s, steps)[i] == Offs(s, steps[..last])[i]
  {
    SameAt(s, steps, last, i);
  }

  lemma OneMoreStep(s: State, steps: seq<Step>, last: nat)
    requires |steps| == last + 1
    ensures Ons(s, steps) == Ons(s, steps[..last]) + [OnAt(s, steps, last)]
    ensures Offs(s, steps) == Offs(s, steps[..last]) + [OffAt(s, steps, last)]
  {
    forall i | 0 <= i < last
      ensures Ons(s, steps)[i] == Ons(s, steps[..last])[i] && Offs(s, steps)[i] == Offs(s, steps[..last])[i]
    {
      EarlierAlike(s, steps, last, i);
    }
    OneLonger(Ons(s, steps), Ons(s, steps[..last]));
    OneLonger(Offs(s, steps), Offs(s, steps[..last]));
  }

  lemma SameAt(s: State, steps: seq<Step>, last: nat, i: nat)
    requires i < last <= |steps|
    ensures OnAt(s, steps[..last], i) == OnAt(s, steps, i) && OffAt(s, steps[..last], i) == OffAt(s, steps, i)
  {
    assert steps[..last][..i] == steps[..i];
  }

  /**
   * In every run, power stays allowed exactly from a tick that switches it on to the next that switches it
   * off: on entering WaitingForAuthentication or, in DC mode, ChargingPausedEV. The end of a transaction,
   * a cancellation or an error do not.
   */
  lemma {:induction false} PowerExactly(s: State, steps: seq<Step>)
    requires Initial(s)
    ensures PowerAllowed(Items(Run(s, steps).trace)) <==> LeftOn(Ons(s, steps), Offs(s, steps))
    decreases |steps|
  {
    LedgerKnowsPower(Run(s, steps).trace);
    if steps != [] {
      var last := |steps| - 1;
      var r := Run(s, steps[..last]);
      PowerExactly(s, steps[..last]);
      LedgerKnowsPower(r.trace);
      StepLedger(r, steps[last]);
      OneMoreStep(s, steps, last);
      LeftOnStep(Ons(s, steps[..last]), Offs(s, steps[..last]), OnAt(s, steps, last), OffAt(s, steps, last));
    }
  }

  // ---------- Runs in which a transaction is forgotten ----------

  ghost function NewCharger(mode: ChargeMode): (s: State)
    ensures Initial(s) && s.config.mode == mode
  {
    State(Disabled, Disabled, false, false, false, false, false, false, 6.0, 0, 0.0,
          Returns(Faulted, 0.0, Faulted, 0.0), Config(mode, false, false, false, false),
          Inputs(0.0, 32.0, false, true), Timers(0, 0, false, 0, false, 0), Empty)
  }

  lemma RunMore(s: State, steps: seq<Step>, step: Step)
    ensures Run(s, steps + [step]) == Apply(Run(s, steps), step)
  {
    assert (steps + [step])[..|steps|] == steps;
  }

  const PLUGGED := PilotEvent(CarPluggedIn(32.0), 0)
  const UNPLUGGED := PilotEvent(CarUnplugged, 0)
  const AUTHORIZING := [Enabling] + [PLUGGED] + [Auth(true, false)]
  const STARTING := AUTHORIZING + [Tick(0)]

  /** Where a charger without digital communication stands. */
  predicate At(s: State, mode: ChargeMode, current: EvseState, last: EvseState, session: bool, transaction: bool) {
    && s.current == current && s.last == last && s.sessionActive == session && s.transactionActive == transaction
    && (s.authorized <==> session) && !s.pnc
    && s.config == Config(mode, false, false, false, false) && s.inputs.dcSupplied && !s.timers.socTimeout
    && s.maxCurrent == 6.0 && s.validUntil == 0
  }

  lemma Enables(s: State, mode: ChargeMode, last: EvseState, open: bool)
    requires At(s, mode, Disabled, last, open, open)
    ensures At(Apply(s, Enabling), mode, Idle, last, open, open)
  {
  }

  lemma Disables(s: State, mode: ChargeMode, current: EvseState, last: EvseState, open: bool)
    requires At(s, mode, current, last, open, open)
    ensures At(Apply(s, Disabling), mode, Disabled, last, open, open)
  {
  }

  lemma PlugsIn(s: State, mode: ChargeMode)
    requires At(s, mode, Idle, Disabled, false, false)
    ensures At(Apply(s, PLUGGED), mode, WaitingForAuthentication, Disabled, false, false)
  {
  }

  lemma Authorizes(s: State, mode: ChargeMode)
    requires At(s, mode, WaitingForAuthentication, Disabled, false, false)
    ensures At(Apply(s, Auth(true, false)), mode, WaitingForAuthentication, Disabled, true, false)
  {
  }

  /** The tick that starts the transaction. */
  lemma Starting(s: State, mode: ChargeMode)
    requires At(s, mode, WaitingForAuthentication, Disabled, true, false)
    ensures At(Apply(s, Tick(0)), mode, PrepareCharging, WaitingForAuthentication, true, true)
  {
    var s1 := EnterState(BeginTick(ExpireLimit(s, 0)), true, 0);
    var s2 := EnterWaiting(s1, 0);
    assert At(s1, mode, WaitingForAuthentication, WaitingForAuthentication, true, false);
    EntersWaiting(s1, mode);
    assert Apply(s, Tick(0)) == Proceed(StartTransaction(s2));
  }

  lemma EntersWaiting(s: State, mode: ChargeMode)
    requires At(s, mode, WaitingForAuthentication, WaitingForAuthentication, true, false)
    ensures At(EnterWaiting(s, 0), mode, WaitingForAuthentication, WaitingForAuthentication, true, false)
    ensures mode == AC ==> !EnterWaiting(s, 0).hlcThisSession
  {
  }

  lemma Unplugs(s: State)
    requires At(s, DC, PrepareCharging, WaitingForAuthentication, true, true)
    ensures At(Apply(s, UNPLUGGED), DC, Finished, WaitingForAuthentication, true, true)
  {
  }

  lemma Restarts(s: State)
    requires At(s, DC, Finished, WaitingForAuthentication, true, true)
    ensures At(Apply(s, Restarting), DC, Idle, WaitingForAuthentication, true, true)
  {
  }

  /** One step more of a run, and what it adds to the ledger. */
  lemma Reached(s: State, steps: seq<Step>, r: State, step: Step) returns (next: State)
    requires r == Run(s, steps)
    ensures next == Apply(r, step) == Run(s, steps + [step])
    ensures LedgerOf(next.trace) == LedgerAfter(r, step)
  {
    next := Apply(r, step);
    RunMore(s, steps, step);
    StepLedger(r, step);
  }

  lemma Authorized(mode: ChargeMode) returns (r: State)
    ensures r == Run(NewCharger(mode), AUTHORIZING) && LedgerOf(r.trace) == Ledger(0, 0, 0, 0, false)
    ensures At(r, mode, WaitingForAuthentication, Disabled, true, false)
  {
    var s := NewCharger(mode);
    var r1 := Reached(s, [], s, Enabling);
    Enables(s, mode, Disabled, false);
    var r2 := Reached(s, [Enabling], r1, PLUGGED);
    PlugsIn(r1, mode);
    r := Reached(s, [Enabling] + [PLUGGED], r2, Auth(true, false));
    Authorizes(r2, mode);
  }

  /** A car is plugged in and authorized; the next tick starts the transaction. */
  lemma Started(mode: ChargeMode) returns (r: State)
    ensures r == Run(NewCharger(mode), STARTING) && LedgerOf(r.trace) == Ledger(0, 0, 0, 1, false)
    ensures At(r, mode, PrepareCharging, WaitingForAuthentication, true, true)
  {
    var r1 := Authorized(mode);
    r := Reached(NewCharger(mode), AUTHORIZING, r1, Tick(0));
    Starting(r1, mode);
  }

  /** The charger is disabled and enabled during a transaction. */
  lemma DroppedByDisabling(mode: ChargeMode)
    ensures Count(Run(NewCharger(mode), STARTING + [Disabling] + [Enabling] + [Tick(0)]).trace, Dropped) == 1
  {
    var s := NewCharger(mode);
    var r := Started(mode);
    var r1 := Reached(s, STARTING, r, Disabling);
    Disables(r, mode, PrepareCharging, WaitingForAuthentication, true);
    var r2 := Reached(s, STARTING + [Disabling], r1, Enabling);
    Enables(r1, mode, WaitingForAuthentication, true);
    var r3 := Reached(s, STARTING + [Disabling] + [Enabling], r2, Tick(0));
    LedgerCounts(r3.trace);
  }

  /** In DC mode, the car is unplugged during a transaction and the charger is restarted before its next tick. */
  lemma DroppedByRestarting()
    ensures Count(Run(NewCharger(DC), STARTING + [UNPLUGGED] + [Restarting] + [Tick(0)]).trace, Dropped) == 1
  {
    var s := NewCharger(DC);
    var r := Started(DC);
    var r1 := Reached(s, STARTING, r, UNPLUGGED);
    Unplugs(r);
    var r2 := Reached(s, STARTING + [UNPLUGGED], r1, Restarting);
    Restarts(r1);
    var r3 := Reached(s, STARTING + [UNPLUGGED] + [Restarting], r2, Tick(0));
    LedgerCounts(r3.trace);
  }

  // ---------- Runs of the other failures ----------

  const REQUESTED := PilotEvent(CarRequestedPower, 0)
  const REPLUGGED := PilotEvent(EvseReplugFinished, 0)

  /** The first tick in PrepareCharging stays there. */
  lemma Preparing(s: State, mode: ChargeMode)
    requires At(s, mode, PrepareCharging, WaitingForAuthentication, true, true)
    ensures At(Apply(s, Tick(0)), mode, PrepareCharging, PrepareCharging, true, true)
  {
  }

  lemma Cancelling(s: State)
    requires s.transactionActive
    ensures !Apply(s, Cancel).transactionActive
  {
  }

  lemma Requests(s: State)
    requires At(s, AC, PrepareCharging, PrepareCharging, true, true)
    ensures At(Apply(s, REQUESTED), AC, Charging, PrepareCharging, true, true)
  {
  }

  lemma Replugs(s: State, mode: ChargeMode)
    requires At(s, mode, PrepareCharging, WaitingForAuthentication, true, true)
    ensures At(Apply(s, REPLUGGED), mode, WaitingForAuthentication, WaitingForAuthentication, true, true)
  {
  }

  /** Whether a transaction is open is what the charger's flag says. */
  lemma OpenAfter(steps: seq<Step>, mode: ChargeMode, r: State)
    requires r == Run(NewCharger(mode), steps)
    ensures TransactionOpen(Items(r.trace)) <==> r.transactionActive
  {
    FlagsAreObservable(NewCharger(mode), steps);
  }

  lemma Prepared() returns (r: State)
    ensures r == Run(NewCharger(AC), STARTING + [Tick(0)]) && LedgerOf(r.trace) == Ledger(0, 0, 0, 1, true)
    ensures At(r, AC, PrepareCharging, PrepareCharging, true, true)
  {
    var r0 := Started(AC);
    r := Reached(NewCharger(AC), STARTING, r0, Tick(0));
    Preparing(r0, AC);
  }

  lemma ChargingBegins(s: State)
    requires At(s, AC, Charging, PrepareCharging, true, true) && LedgerOf(s.trace) == Ledger(0, 0, 0, 1, true)
    ensures Ticked(s, 0) == Ledger(0, 1, 0, 1, true)
  {
  }

  /** A cancelled transaction leaves power allowed. */
  lemma CancelLeavesPower()
    ensures var out := Items(Run(NewCharger(AC), STARTING + [Tick(0)] + [Cancel]).trace);
      PowerAllowed(out) && !TransactionOpen(out)
  {
    var s := NewCharger(AC);
    var r1 := Prepared();
    var r2 := Reached(s, STARTING + [Tick(0)], r1, Cancel);
    Cancelling(r1);
    LedgerKnowsPower(r2.trace);
    OpenAfter(STARTING + [Tick(0)] + [Cancel], AC, r2);
  }

  /** Charging that was only prepared, and never paused, is announced as resumed. */
  lemma ResumedWithoutPause()
    ensures var t := Run(NewCharger(AC), STARTING + [Tick(0)] + [REQUESTED] + [Tick(0)]).trace;
      && Count(t, Signal(ChargingResumed)) == 1
      && Count(t, Signal(PausedByEV)) == Count(t, Signal(PausedByEVSE)) == 0
  {
    var s := NewCharger(AC);
    var r1 := Prepared();
    var r2 := Reached(s, STARTING + [Tick(0)], r1, REQUESTED);
    Requests(r1);
    var r3 := Reached(s, STARTING + [Tick(0)] + [REQUESTED], r2, Tick(0));
    ChargingBegins(r2);
    LedgerCounts(r3.trace);
  }

  /** A transaction starts while one is open exactly if an authorized charger waits again without having ended it. */
  lemma StartedAgainExactly(s: State, steps: seq<Step>, step: Step)
    requires Initial(s)
    ensures var r := Run(s, steps);
      (Count(Apply(r, step).trace, Signal(TransactionStarted)) > Count(r.trace, Signal(TransactionStarted))
       && TransactionOpen(Items(r.trace))) <==> step.Tick? && Starts(r) && r.transactionActive
  {
    StartedExactly(Run(s, steps), step);
    FlagsAreObservable(s, steps);
  }

  /** The end of a replug during a transaction starts it a second time. */
  lemma TransactionStartedTwice(mode: ChargeMode)
    ensures TransactionOpen(Items(Run(NewCharger(mode), STARTING + [REPLUGGED]).trace))
    ensures Count(Run(NewCharger(mode), STARTING + [REPLUGGED]).trace, Signal(TransactionStarted)) == 1
    ensures Count(Run(NewCharger(mode), STARTING + [REPLUGGED] + [Tick(0)]).trace, Signal(TransactionStarted)) == 2
  {
    var s := NewCharger(mode);
    var r := Started(mode);
    var r1 := Reached(s, STARTING, r, REPLUGGED);
    Replugs(r, mode);
    OpenAfter(STARTING + [REPLUGGED], mode, r1);
    var r2 := Reached(s, STARTING + [REPLUGGED], r1, Tick(0));
    LedgerCounts(r1.trace);
    LedgerCounts(r2.trace);
  }
}
