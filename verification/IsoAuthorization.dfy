/**
 * No energy without authorization: what precedes the discovery of charge parameters in every run of the ISO 15118-2
 * server that closes the connection on failed responses, with certificate requests and renegotiations.
 */
module IsoAuthorization {
  import opened IsoSpec
  import opened V2gTypes
  import opened Wrappers
  import opened IsoSequence

  // ---------- What precedes the charge parameters ----------

  /** A request that a session has to be led through before its charge parameters, in this order. */
  predicate Milestone(k: nat, e: Entry) {
    Accepted(e) &&
    match k
    case 0 => e.request.SessionSetupReq?
    case 1 => e.request.ServiceDiscoveryReq?
    case 2 => e.request.PaymentServiceSelectionReq?
    case 3 => e.request.AuthorizationReq? && e.station.authFinished
    case _ => false
  }

  /** The first n milestones were passed in order. */
  predicate Passed(h: History<Entry>, n: nat) {
    n == 0 || (h.Then? && (Passed(h.earlier, n) || (Milestone(n - 1, h.last) && Passed(h.earlier, n - 1))))
  }

  /** The first n milestones stand in order in a log, before a position. */
  ghost predicate MilestonesBefore(log: seq<Entry>, n: nat, before: nat)
    requires before <= |log|
    decreases n
  {
    n == 0 || exists i :: 0 <= i < before && Milestone(n - 1, log[i]) && MilestonesBefore(log, n - 1, i)
  }

  lemma {:induction false} MilestonesStay(log: seq<Entry>, longer: seq<Entry>, n: nat, before: nat, later: nat)
    requires before <= later <= |longer| && before <= |log| <= |longer| && longer[..|log|] == log
    requires MilestonesBefore(log, n, before)
    ensures MilestonesBefore(longer, n, later)
    decreases n
  {
    if n == 0 {
    } else {
      var i :| 0 <= i < before && Milestone(n - 1, log[i]) && MilestonesBefore(log, n - 1, i);
      assert longer[i] == log[i];
      MilestonesStay(log, longer, n - 1, i, i);
    }
  }

  lemma {:induction false} PassedIsBefore(h: History<Entry>, n: nat)
    requires Passed(h, n)
    ensures MilestonesBefore(Items(h), n, |Items(h)|)
    decreases h
  {
    if n == 0 {
    } else {
      var log, before := Items(h), Items(h.earlier);
      if Passed(h.earlier, n) {
        PassedIsBefore(h.earlier, n);
        MilestonesStay(before, log, n, |before|, |log|);
      } else {
        PassedIsBefore(h.earlier, n - 1);
        MilestonesStay(before, log, n - 1, |before|, |before|);
        assert Milestone(n - 1, log[|before|]);
      }
    }
  }

  // ---------- The invariant of an open connection ----------

  /** How many milestones lie behind a session that waits in a state; a certificate leads nowhere from state 4. */
  function Reached(state: nat): nat {
    match state
    case 0 => 0
    case 1 => 1
    case 2 => 2
    case 3 => 3
    case 4 => 0
    case 5 => 3
    case _ => 4
  }

  predicate Led(s: Session) {
    s.setup.terminateOnFailed && Passed(s.log, Reached(s.state))
  }

  /** Charge parameters are discovered, or energy is asked for. */
  predicate NeedsAuthorization(e: Entry) {
    Accepted(e) && (e.request.ChargeParameterReq? || e.request.CurrentDemandReq? || e.request.ChargingStatusReq?)
  }

  predicate AllLed(h: History<Entry>) {
    h.Then? ==> AllLed(h.earlier) && (NeedsAuthorization(h.last) ==> Passed(h.earlier, 4))
  }

  lemma Recorded(s: Session, r: Request, sid: int)
    requires Supported(r)
    ensures var reply := HandleRequest(s, r, sid);
      && reply.session.log.Then? && reply.session.log.earlier == s.log && reply.session.setup == s.setup
      && reply.session.log.last.Handled?
      && var e := reply.session.log.last;
         e.request == r && e.event == reply.event && e.station == s.station && e.code == reply.code
  {
    LogGrows(s, r, sid);
    SetupStays(s, r, sid);
  }

  /** Up to the authorization, a response that leaves the session open is no failure. */
  lemma EarlyIsAccepted(s: Session, r: Request, sid: int)
    requires s.setup.terminateOnFailed && Supported(r) && !r.PowerDeliveryReq?
    requires !Terminating(HandleRequest(s, r, sid).event)
    ensures !Failed(HandleRequest(s, r, sid).code)
  {
    FailedYetOpenExactly(s, r, sid);
  }

  /** Where a request leads whose number of milestones may rise. */
  lemma Leads(s: Session, r: Request, sid: int)
    requires s.setup.terminateOnFailed && Supported(r) && !Terminating(HandleRequest(s, r, sid).event)
    requires !r.CertificateUpdateReq? && !r.CertificateInstallationReq?
    ensures var n := Reached(HandleRequest(s, r, sid).session.state);
      || n <= Reached(s.state)
      || (n == Reached(s.state) + 1 && !r.PowerDeliveryReq?
          && match n
             case 1 => r.SessionSetupReq?
             case 2 => r.ServiceDiscoveryReq?
             case 3 => r.PaymentServiceSelectionReq?
             case _ => r.AuthorizationReq? && s.station.authFinished)
  {
    AcceptedIsExpected(s, r, sid);
  }

  /** No certificate request leads nearer to energy. */
  lemma CertificatesLeadNowhere(s: Session, r: Request, sid: int)
    requires r.CertificateUpdateReq? || r.CertificateInstallationReq?
    ensures Reached(HandleRequest(s, r, sid).session.state) <= Reached(s.state)
  {
  }

  lemma {:induction false} PassedFewer(h: History<Entry>, n: nat, m: nat)
    requires Passed(h, n) && m <= n
    ensures Passed(h, m)
    decreases h, n
  {
    if m == 0 || m == n {
    } else if Passed(h.earlier, n) {
      PassedFewer(h.earlier, n, m);
    } else {
      PassedFewer(h.earlier, n - 1, m);
    }
  }

  lemma RequestKeepsLed(s: Session, r: Request, sid: int)
    requires Led(s) && !Terminating(HandleRequest(s, r, sid).event)
    ensures Led(HandleRequest(s, r, sid).session)
  {
    if Supported(r) {
      Recorded(s, r, sid);
      var n := Reached(HandleRequest(s, r, sid).session.state);
      if r.CertificateUpdateReq? || r.CertificateInstallationReq? {
        CertificatesLeadNowhere(s, r, sid);
      } else {
        Leads(s, r, sid);
      }
      if n <= Reached(s.state) {
        PassedFewer(s.log, Reached(s.state), n);
      } else {
        EarlyIsAccepted(s, r, sid);
      }
    }
  }

  lemma LedWhereExpected(s: Session, r: Request, sid: int)
    requires Led(s) && !Terminating(HandleRequest(s, r, sid).event)
    requires r.ChargeParameterReq? || r.CurrentDemandReq? || r.ChargingStatusReq?
    ensures Passed(s.log, 4)
  {
    AcceptedIsExpected(s, r, sid);
  }

  lemma RequestKeepsAllLed(s: Session, r: Request, sid: int)
    requires Led(s) && AllLed(s.log)
    ensures AllLed(HandleRequest(s, r, sid).session.log)
  {
    if Supported(r) {
      Recorded(s, r, sid);
      if NeedsAuthorization(HandleRequest(s, r, sid).session.log.last) {
        LedWhereExpected(s, r, sid);
      }
    }
  }

  lemma StepKeepsLed(s: Session, step: Step)
    requires Led(s) && AllLed(s.log) && s.open
    ensures AllLed(Apply(s, step).log) && (Apply(s, step).open ==> Led(Apply(s, step)))
  {
    match step
    case Receive(r, sid, sent) =>
      RequestKeepsAllLed(s, r, sid);
      if !Terminating(HandleRequest(s, r, sid).event) {
        RequestKeepsLed(s, r, sid);
      }
    case ReportCableCheck(finished) =>
      assert Apply(s, step).log == Then(s.log, CableCheckReported(finished));
    case _ =>
  }

  lemma {:induction false} RunIsLed(s: Session, steps: seq<Step>)
    requires Initial(s) && s.setup.terminateOnFailed
    ensures AllLed(Run(s, steps).log) && (Run(s, steps).open ==> Led(Run(s, steps)))
    decreases |steps|
  {
    if steps == [] {
    } else {
      RunIsLed(s, steps[..|steps| - 1]);
      if Run(s, steps[..|steps| - 1]).open {
        StepKeepsLed(Run(s, steps[..|steps| - 1]), steps[|steps| - 1]);
      }
    }
  }

  lemma {:induction false} LedAt(h: History<Entry>, j: nat)
    requires AllLed(h) && j < |Items(h)| && NeedsAuthorization(Items(h)[j])
    ensures MilestonesBefore(Items(h), 4, j)
  {
    var before := Items(h.earlier);
    if j == |before| {
      PassedIsBefore(h.earlier, 4);
    } else {
      LedAt(h.earlier, j);
    }
    MilestonesStay(before, Items(h), 4, j, j);
  }

  /**
   * In every run, an accepted discovery of charge parameters, and an accepted demand for energy, come after an
   * accepted session setup, service discovery, selection of payment, and an authorization that had finished, in
   * this order.
   */
  lemma EnergyIsAuthorized(s: Session, steps: seq<Step>, j: nat)
    requires Initial(s) && s.setup.terminateOnFailed && j < |Items(Run(s, steps).log)|
    requires NeedsAuthorization(Items(Run(s, steps).log)[j])
    ensures MilestonesBefore(Items(Run(s, steps).log), 4, j)
  {
    RunIsLed(s, steps);
    LedAt(Run(s, steps).log, j);
  }

  // ---------- Authorization has to be reported after the selection ----------

  /** No report by other threads. */
  predicate OnlyReceives(steps: seq<Step>) {
    forall i :: 0 <= i < |steps| ==> !steps[i].Report?
  }

  lemma StepAuthorizesNothing(s: Session, step: Step)
    requires !s.station.authFinished && !step.Report?
    ensures !Apply(s, step).station.authFinished
  {
  }

  lemma {:induction false} NothingAuthorizes(s: Session, steps: seq<Step>)
    requires !s.station.authFinished && OnlyReceives(steps)
    ensures !Run(s, steps).station.authFinished
    decreases |steps|
  {
    if steps != [] {
      NothingAuthorizes(s, steps[..|steps| - 1]);
      StepAuthorizesNothing(Run(s, steps[..|steps| - 1]), steps[|steps| - 1]);
    }
  }

  /**
   * With external payment, authorization starts over: after the selection, and as long as nobody reports, an
   * authorization request never leads on to the charge parameters.
   */
  lemma SelectionStartsOver(s: Session, services: seq<int>, sid: int, steps: seq<Step>, sid': int)
    requires OnlyReceives(steps)
    ensures var s1 := HandleRequest(s, PaymentServiceSelectionReq(false, services), sid).session;
      HandleRequest(Run(s1, steps), AuthorizationReq, sid').session.state == 5
  {
    var s1 := HandleRequest(s, PaymentServiceSelectionReq(false, services), sid).session;
    SelectionResets(s, services, sid);
    NothingAuthorizes(s1, steps);
  }

  lemma SelectionResets(s: Session, services: seq<int>, sid: int)
    ensures !HandleRequest(s, PaymentServiceSelectionReq(false, services), sid).session.station.authFinished
  {
  }
}
