/**
 * What every run of the DIN 70121 server keeps when it closes the connection on failed responses:
 * the order of the phases, and when charging starts and ends.
 */
module DinSequence {
  import opened DinSpec
  import opened V2gTypes
  import opened Wrappers

  // ---------- The order of the phases ----------

  /** The request was accepted: it was answered and the session goes on. */
  predicate Accepted(e: Entry) {
    e.event == NoEvent
  }

  /** The phases that precede energy transfer, in their order. */
  predicate Milestone(k: nat, e: Entry) {
    Accepted(e) &&
    match k
    case 0 => e.request.SessionSetupReq?
    case 1 => e.request.ServiceDiscoveryReq?
    case 2 => e.request.PaymentSelectionReq?
    case 3 => e.request.ContractAuthenticationReq? && e.station.authFinished
    case 4 => e.request.ChargeParameterReq? && e.station.parameterFinished
    case 5 => e.request.CableCheckReq? && CableCheckPassed(e.station)
    case 6 => e.request.PreChargeReq?
    case 7 => e.request.PowerDeliveryReq? && e.request.ready == 1 && e.station.chargeReady
    case _ => false
  }

  const MILESTONES := 8

  /** The first n milestones were passed in order. */
  predicate Passed(h: History<Entry>, n: nat) {
    n == 0 || (h.Then? && (Passed(h.earlier, n) || (Milestone(n - 1, h.last) && Passed(h.earlier, n - 1))))
  }

  /** The first n milestones stand in order in a log, before a position. */
  ghost predicate InOrder(log: seq<Entry>, n: nat, before: nat)
    requires before <= |log|
    decreases n
  {
    n == 0 || exists i :: 0 <= i < before && Milestone(n - 1, log[i]) && InOrder(log, n - 1, i)
  }

  lemma {:induction false} InOrderExtends(log: seq<Entry>, longer: seq<Entry>, n: nat, before: nat, later: nat)
    requires before <= later <= |longer| && before <= |log| <= |longer| && longer[..|log|] == log
    requires InOrder(log, n, before)
    ensures InOrder(longer, n, later)
    decreases n
  {
    if n == 0 {
    } else {
      var i :| 0 <= i < before && Milestone(n - 1, log[i]) && InOrder(log, n - 1, i);
      assert longer[i] == log[i];
      InOrderExtends(log, longer, n - 1, i, i);
    }
  }

  lemma {:induction false} PassedIsInOrder(h: History<Entry>, n: nat)
    requires Passed(h, n)
    ensures InOrder(Items(h), n, |Items(h)|)
    decreases h
  {
    if n == 0 {
    } else {
      var log, before := Items(h), Items(h.earlier);
      if Passed(h.earlier, n) {
        PassedIsInOrder(h.earlier, n);
        InOrderExtends(before, log, n, |before|, |log|);
      } else {
        PassedIsInOrder(h.earlier, n - 1);
        InOrderExtends(before, log, n - 1, |before|, |before|);
        assert Milestone(n - 1, log[|before|]);
      }
    }
  }

  // ---------- The invariant of an open connection ----------

  /** How many milestones lie behind a session that waits in a state; none are claimed once charging has ended. */
  function Behind(state: nat): nat {
    if state <= 8 then state else if state == 9 then 8 else 0
  }

  /** A state is entered by one kind of request only. */
  predicate LastFits(state: nat, last: Message) {
    && (state == 8 ==> last == PowerDelivery)
    && (state == 9 ==> last == CurrentDemand)
  }

  predicate Inv(s: Session) {
    && s.terminateOnFailed && s.state <= 11
    && LastFits(s.state, s.last)
    && Passed(s.log, Behind(s.state))
  }

  /** Every accepted demand for current in the log has all milestones before it. */
  predicate Prepared(h: History<Entry>) {
    h.Then? ==>
      && Prepared(h.earlier)
      && (Accepted(h.last) && h.last.request.CurrentDemandReq? ==> Passed(h.earlier, MILESTONES))
  }

  /** The table of expected requests, for requests that were accepted. */
  lemma AcceptedIsExpected(s: Session, r: Request, sid: int)
    requires s.terminateOnFailed && HandleRequest(s, r, sid).event == NoEvent
    ensures Supported(r) && MessageOf(r) in Allowed(s.state) && !s.station.emergency && !s.station.stopHlc
    ensures !Failed(HandleRequest(s, r, sid).code)
    ensures HandleRequest(s, r, sid).session.terminateOnFailed
  {
  }

  lemma SessionPhaseKeepsInv(s: Session, r: Request, sid: int)
    requires Inv(s) && s.state <= 3 && HandleRequest(s, r, sid).event == NoEvent
    ensures Inv(HandleRequest(s, r, sid).session)
  {
    AcceptedIsExpected(s, r, sid);
  }

  lemma ParameterPhaseKeepsInv(s: Session, r: Request, sid: int)
    requires Inv(s) && 4 <= s.state <= 5 && HandleRequest(s, r, sid).event == NoEvent
    ensures Inv(HandleRequest(s, r, sid).session)
  {
    AcceptedIsExpected(s, r, sid);
  }

  lemma PreChargePhaseKeepsInv(s: Session, r: Request, sid: int)
    requires Inv(s) && 6 <= s.state <= 7 && HandleRequest(s, r, sid).event == NoEvent
    ensures Inv(HandleRequest(s, r, sid).session)
  {
    AcceptedIsExpected(s, r, sid);
  }

  lemma ChargingPhaseKeepsInv(s: Session, r: Request, sid: int)
    requires Inv(s) && 8 <= s.state && HandleRequest(s, r, sid).event == NoEvent
    ensures Inv(HandleRequest(s, r, sid).session)
  {
    AcceptedIsExpected(s, r, sid);
  }

  lemma RequestKeepsInv(s: Session, r: Request, sid: int)
    requires Inv(s) && Prepared(s.log)
    ensures var reply := HandleRequest(s, r, sid);
      Prepared(reply.session.log) && (!Terminating(reply.event) ==> Inv(reply.session))
  {
    var reply := HandleRequest(s, r, sid);
    if reply.event == NoEvent {
      AcceptedIsExpected(s, r, sid);
      if s.state <= 3 {
        SessionPhaseKeepsInv(s, r, sid);
      } else if s.state <= 5 {
        ParameterPhaseKeepsInv(s, r, sid);
      } else if s.state <= 7 {
        PreChargePhaseKeepsInv(s, r, sid);
      } else {
        ChargingPhaseKeepsInv(s, r, sid);
      }
    }
  }

  lemma {:induction false} RunKeepsInv(s: Session, steps: seq<Step>)
    requires Initial(s) && s.terminateOnFailed
    ensures Prepared(Run(s, steps).log) && (Run(s, steps).open ==> Inv(Run(s, steps)))
    decreases |steps|
  {
    if steps == [] {
    } else {
      RunKeepsInv(s, steps[..|steps| - 1]);
      var s1 := Run(s, steps[..|steps| - 1]);
      match steps[|steps| - 1]
      case Receive(r, sid, sent) =>
        if s1.open {
          RequestKeepsInv(s1, r, sid);
        }
      case _ =>
    }
  }

  lemma {:induction false} PreparedAt(h: History<Entry>, j: nat)
    requires Prepared(h) && j < |Items(h)| && Accepted(Items(h)[j]) && Items(h)[j].request.CurrentDemandReq?
    ensures InOrder(Items(h), MILESTONES, j)
  {
    var before := Items(h.earlier);
    if j == |before| {
      PassedIsInOrder(h.earlier, MILESTONES);
      InOrderExtends(before, Items(h), MILESTONES, j, j);
    } else {
      PreparedAt(h.earlier, j);
      InOrderExtends(before, Items(h), MILESTONES, j, j);
    }
  }

  /**
   * Sequence safety: in every run, an accepted CurrentDemandReq comes after session setup, service
   * discovery, payment selection, a finished authorization, a finished parameter discovery, a passed
   * cable check, a precharge and an accepted readiness to charge, in this order.
   */
  lemma CurrentDemandIsPrepared(s: Session, steps: seq<Step>, j: nat)
    requires Initial(s) && s.terminateOnFailed && j < |Items(Run(s, steps).log)|
    requires Accepted(Items(Run(s, steps).log)[j]) && Items(Run(s, steps).log)[j].request.CurrentDemandReq?
    ensures InOrder(Items(Run(s, steps).log), MILESTONES, j)
  {
    RunKeepsInv(s, steps);
    PreparedAt(Run(s, steps).log, j);
  }

  // ---------- Exactly which requests are accepted ----------

  /** What the handlers themselves find wrong with a request. */
  predicate ContentFine(s: Session, r: Request) {
    match r
    case PaymentSelectionReq(externalPayment, services) => externalPayment && services == [s.serviceId]
    case ChargeParameterReq(transfer, acParameter) =>
      !acParameter && transfer == s.transfer && (transfer == DCCore || transfer == DCExtended)
    case PowerDeliveryReq(ready, tuple) =>
      && (ready == 1 ==> s.station.chargeReady && s.last != CurrentDemand)
      && (tuple == None || tuple == Some(SA_SCHEDULE_TUPLE_ID))
    case _ => true
  }

  /** A request is accepted if and only if it is expected, in the right session, undisturbed and in order itself. */
  lemma AcceptedExactly(s: Session, r: Request, sid: int)
    requires s.terminateOnFailed
    ensures HandleRequest(s, r, sid).event == NoEvent <==>
      && Supported(r) && !r.SessionStopReq?
      && MessageOf(r) in Allowed(s.state) && (r.SessionSetupReq? || s.sessionId == sid)
      && !s.station.terminated && !s.station.stopHlc && !s.station.emergency
      && ContentFine(s, r)
  {
    if r.PowerDeliveryReq? {
      assert r.tuple.ValueOr(SA_SCHEDULE_TUPLE_ID) == SA_SCHEDULE_TUPLE_ID <==>
        r.tuple == None || r.tuple == Some(SA_SCHEDULE_TUPLE_ID);
    }
  }

  /** A request is answered as out of sequence if and only if no other check takes precedence and it is not expected. */
  lemma SequenceErrorExactly(s: Session, r: Request, sid: int)
    ensures HandleRequest(s, r, sid).code == FAILED_SequenceError <==>
      && Supported(r) && MessageOf(r) !in Allowed(s.state)
      && !s.station.terminated && (r.SessionSetupReq? || s.sessionId == sid)
      && !(r.PowerDeliveryReq? && r.ready == 1 && s.last == CurrentDemand)
  {
  }

  /** Without the setting, order is lost: current is delivered in any state, with a failed response. */
  lemma OrderNeedsTermination(s: Session, sid: int)
    requires !s.terminateOnFailed && !s.station.terminated && s.state < 8 && s.last != PowerDelivery
    ensures var reply := HandleRequest(s, CurrentDemandReq, sid);
      reply.event == NoEvent && Failed(reply.code) && reply.session.state == 9
  {
  }

  // ---------- Phases never go back ----------

  /** The state after the last accepted request. */
  function Top(h: History<Entry>): nat {
    match h
    case Empty => 0
    case Then(earlier, e) => if Accepted(e) then e.to else Top(earlier)
  }

  predicate Rising(h: History<Entry>) {
    h.Then? ==>
      Rising(h.earlier) && (Accepted(h.last) ==> Top(h.earlier) == h.last.from <= h.last.to)
  }

  lemma StateNeverFalls(s: Session, r: Request, sid: int)
    requires Inv(s) && HandleRequest(s, r, sid).event == NoEvent
    ensures s.state <= HandleRequest(s, r, sid).session.state
  {
    AcceptedIsExpected(s, r, sid);
  }

  lemma RequestRises(s: Session, r: Request, sid: int)
    requires Inv(s) && Rising(s.log) && Top(s.log) == s.state
    ensures var reply := HandleRequest(s, r, sid);
      Rising(reply.session.log) && (!Terminating(reply.event) ==> Top(reply.session.log) == reply.session.state)
  {
    if HandleRequest(s, r, sid).event == NoEvent {
      StateNeverFalls(s, r, sid);
    }
  }

  lemma {:induction false} RunRises(s: Session, steps: seq<Step>)
    requires Initial(s) && s.terminateOnFailed
    ensures var r := Run(s, steps); Rising(r.log) && (r.open ==> Top(r.log) == r.state)
    decreases |steps|
  {
    if steps == [] {
    } else {
      RunRises(s, steps[..|steps| - 1]);
      var s1 := Run(s, steps[..|steps| - 1]);
      RunKeepsInv(s, steps[..|steps| - 1]);
      match steps[|steps| - 1]
      case Receive(r, sid, sent) =>
        if s1.open {
          RequestRises(s1, r, sid);
        }
      case _ =>
    }
  }

  lemma {:induction false} TopBounds(h: History<Entry>, i: nat)
    requires Rising(h) && i < |Items(h)| && Accepted(Items(h)[i])
    ensures Items(h)[i].to <= Top(h)
  {
    if i < |Items(h.earlier)| {
      TopBounds(h.earlier, i);
    }
  }

  lemma {:induction false} RisingAt(h: History<Entry>, i: nat, j: nat)
    requires Rising(h) && i < j < |Items(h)| && Accepted(Items(h)[i]) && Accepted(Items(h)[j])
    ensures Items(h)[i].to <= Items(h)[j].from <= Items(h)[j].to
  {
    if j == |Items(h.earlier)| {
      TopBounds(h.earlier, i);
    } else {
      RisingAt(h.earlier, i, j);
    }
  }

  /** Monotone phases: from one accepted request to any later one, the state never goes back. */
  lemma PhasesNeverGoBack(s: Session, steps: seq<Step>, i: nat, j: nat)
    requires Initial(s) && s.terminateOnFailed && i < j < |Items(Run(s, steps).log)|
    requires Accepted(Items(Run(s, steps).log)[i]) && Accepted(Items(Run(s, steps).log)[j])
    ensures Items(Run(s, steps).log)[i].to <= Items(Run(s, steps).log)[j].from <= Items(Run(s, steps).log)[j].to
  {
    RunRises(s, steps);
    RisingAt(Run(s, steps).log, i, j);
  }

  // ---------- When charging starts and ends ----------

  function StartCount(h: History<Entry>): nat {
    match h
    case Empty => 0
    case Then(earlier, e) => StartCount(earlier) + if e.started then 1 else 0
  }

  predicate CountFits(s: Session) {
    StartCount(s.log) == 0 || (StartCount(s.log) == 1 && s.state >= 9)
  }

  lemma RequestKeepsCount(s: Session, r: Request, sid: int)
    requires Inv(s) && CountFits(s)
    ensures var reply := HandleRequest(s, r, sid);
      StartCount(reply.session.log) <= 2 && (!Terminating(reply.event) ==> CountFits(reply.session))
  {
    if HandleRequest(s, r, sid).event == NoEvent {
      AcceptedIsExpected(s, r, sid);
      StateNeverFalls(s, r, sid);
    }
  }

  /** The start of charging is published at most once before the request that ends the session. */
  lemma {:induction false} StartedOnce(s: Session, steps: seq<Step>)
    requires Initial(s) && s.terminateOnFailed
    ensures var r := Run(s, steps);
      StartCount(r.log) <= 2 && (r.open ==> CountFits(r))
    decreases |steps|
  {
    if steps == [] {
    } else {
      StartedOnce(s, steps[..|steps| - 1]);
      RunKeepsInv(s, steps[..|steps| - 1]);
      var s1 := Run(s, steps[..|steps| - 1]);
      match steps[|steps| - 1]
      case Receive(r, sid, sent) =>
        if s1.open {
          RequestKeepsCount(s1, r, sid);
        }
      case _ =>
    }
  }

  /**
   * The start of charging is published before the request is validated: exactly these demands for current
   * publish it although they are rejected.
   */
  lemma StartedYetRejectedExactly(s: Session, r: Request, sid: int)
    requires Inv(s)
    ensures var reply := HandleRequest(s, r, sid);
      (StartCount(reply.session.log) > StartCount(s.log) && Terminating(reply.event)) <==>
        && r.CurrentDemandReq? && s.last == PowerDelivery
        && (s.state != 8 || s.sessionId != sid
            || s.station.terminated || s.station.stopHlc || s.station.emergency)
  {
    AcceptedExactly(s, r, sid);
  }

  // A run in which the start of charging is published twice.

  /** The requests of a session that asks for current once more after charging has ended. */
  function Script(k: nat): Request {
    match k
    case 0 => SessionSetupReq(7)
    case 1 => ServiceDiscoveryReq
    case 2 => PaymentSelectionReq(true, [1])
    case 3 => ContractAuthenticationReq
    case 4 => ChargeParameterReq(DCCore, false)
    case 5 => CableCheckReq
    case 6 => PreChargeReq
    case 7 => PowerDeliveryReq(1, None)
    case 8 => CurrentDemandReq
    case 9 => PowerDeliveryReq(0, None)
    case _ => CurrentDemandReq
  }

  function Scripted(k: nat): seq<Step> {
    if k == 0 then [] else Scripted(k - 1) + [Receive(Script(k - 1), 7, true)]
  }

  const READY_STATION := Station(true, true, true, true, Valid, true, true, true, false, false, false, false)

  ghost function NewSession(): (s: Session)
    ensures Initial(s) && s.terminateOnFailed
  {
    Session(0, Unknown, Unknown, false, 0, DCCore, 1, true, READY_STATION, true, Empty)
  }

  /** Where the session stands before the k-th request of the script. */
  predicate AtStage(s: Session, k: nat) {
    && s.open && s.terminateOnFailed && s.station == READY_STATION && s.transfer == DCCore && s.serviceId == 1
    && s.state == k && s.last == (if k == 0 then Unknown else MessageOf(Script(k - 1)))
    && s.sessionId == (if k == 0 then 0 else 7) && StartCount(s.log) == (if k <= 8 then 0 else 1)
    && (s.charging <==> k == 9)
  }

  lemma EarlyScriptStep(s: Session, k: nat)
    requires k < 5 && AtStage(s, k)
    ensures AtStage(Apply(s, Receive(Script(k), 7, true)), k + 1)
  {
    AcceptedExactly(s, Script(k), 7);
  }

  lemma LateScriptStep(s: Session, k: nat)
    requires 5 <= k < 10 && AtStage(s, k)
    ensures AtStage(Apply(s, Receive(Script(k), 7, true)), k + 1)
  {
    AcceptedExactly(s, Script(k), 7);
  }

  lemma LastScriptStep(s: Session)
    requires AtStage(s, 10)
    ensures StartCount(Apply(s, Receive(CurrentDemandReq, 7, true)).log) == 2
  {
  }

  lemma ScriptStep(s: Session, k: nat)
    requires k < 10 && AtStage(s, k)
    ensures AtStage(Apply(s, Receive(Script(k), 7, true)), k + 1)
  {
    if k < 5 {
      EarlyScriptStep(s, k);
    } else {
      LateScriptStep(s, k);
    }
  }

  lemma ScriptGoesOn(s: Session, k: nat)
    requires k > 0
    ensures Run(s, Scripted(k)) == Apply(Run(s, Scripted(k - 1)), Receive(Script(k - 1), 7, true))
  {
    assert Scripted(k)[..|Scripted(k)| - 1] == Scripted(k - 1);
  }

  lemma {:induction false} ScriptRun(k: nat)
    requires k <= 10
    ensures AtStage(Run(NewSession(), Scripted(k)), k)
  {
    if k > 0 {
      ScriptRun(k - 1);
      ScriptStep(Run(NewSession(), Scripted(k - 1)), k - 1);
      ScriptGoesOn(NewSession(), k);
    }
  }

  /** There is a run from the beginning in which the start of charging is published twice. */
  lemma StartedTwice()
    ensures StartCount(Run(NewSession(), Scripted(11)).log) == 2
  {
    ScriptRun(10);
    var s := Run(NewSession(), Scripted(10));
    ScriptGoesOn(NewSession(), 11);
    LastScriptStep(s);
  }

  /** The car says that it is ready or that it is not. */
  predicate BooleanReadiness(steps: seq<Step>) {
    forall i :: 0 <= i < |steps| && steps[i].Receive? && steps[i].request.PowerDeliveryReq? ==>
      0 <= steps[i].request.ready <= 1
  }

  lemma RequestKeepsCharging(s: Session, r: Request, sid: int)
    requires Inv(s) && (s.charging <==> s.state == 9) && (r.PowerDeliveryReq? ==> 0 <= r.ready <= 1)
    ensures var reply := HandleRequest(s, r, sid);
      !Terminating(reply.event) ==> (reply.session.charging <==> reply.session.state == 9)
  {
    if HandleRequest(s, r, sid).event == NoEvent {
      AcceptedIsExpected(s, r, sid);
    }
  }

  /** As long as the session lasts, it is charging exactly in the state that expects more demands for current. */
  lemma {:induction false} ChargingExactly(s: Session, steps: seq<Step>)
    requires Initial(s) && s.terminateOnFailed && BooleanReadiness(steps)
    ensures var r := Run(s, steps); r.open ==> (r.charging <==> r.state == 9)
    decreases |steps|
  {
    if steps == [] {
    } else {
      ChargingExactly(s, steps[..|steps| - 1]);
      RunKeepsInv(s, steps[..|steps| - 1]);
      var s1 := Run(s, steps[..|steps| - 1]);
      match steps[|steps| - 1]
      case Receive(r, sid, sent) =>
        if s1.open {
          RequestKeepsCharging(s1, r, sid);
        }
      case _ =>
    }
  }

  /** A readiness other than 0 or 1 ends the charging phase without ending charging. */
  lemma ChargingEndsExactly(s: Session, sid: int, ready: int, tuple: Option<int>)
    requires Inv(s) && s.state == 9 && s.charging
    requires HandleRequest(s, PowerDeliveryReq(ready, tuple), sid).event == NoEvent
    ensures var r := HandleRequest(s, PowerDeliveryReq(ready, tuple), sid).session;
      r.state == 10 && (r.charging <==> ready != 0) && ready != 1
  {
  }

  lemma StrangeReadiness(s: Session)
    requires AtStage(s, 9)
    ensures var r := Apply(s, Receive(PowerDeliveryReq(2, None), 7, true)); r.open && r.state == 10 && r.charging
  {
    AcceptedExactly(s, PowerDeliveryReq(2, None), 7);
  }

  /** There is a run from the beginning whose charging goes on after the charging phase has ended. */
  lemma ChargingOutlivesItsPhase()
    ensures var r := Run(NewSession(), Scripted(9) + [Receive(PowerDeliveryReq(2, None), 7, true)]);
      r.open && r.state == 10 && r.charging
  {
    var steps := Scripted(9) + [Receive(PowerDeliveryReq(2, None), 7, true)];
    assert steps[..|steps| - 1] == Scripted(9);
    ScriptRun(9);
    StrangeReadiness(Run(NewSession(), Scripted(9)));
  }
}
