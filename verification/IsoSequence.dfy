/**
 * What every run of the ISO 15118-2 server keeps when it closes the connection on failed responses:
 * no current without preparation since the last parameter discovery, and a fresh cable check after
 * every renegotiation.
 */
module IsoSequence {
  import opened IsoSpec
  import opened V2gTypes
  import opened Wrappers

  /** A request that was answered, and not with a failure, while the session goes on. */
  predicate Accepted(e: Entry) {
    e.Handled? && !Terminating(e.event) && !Failed(e.code)
  }

  /** The parameters of the session are being discovered: whatever was prepared before counts no more. */
  predicate Discovers(e: Entry) {
    Accepted(e) && e.request.ChargeParameterReq?
  }

  predicate Discovered(e: Entry) {
    Discovers(e) && e.station.parameterFinished
  }

  /** What has to follow before energy may flow: in DC mode three things, in AC mode only the last of them. */
  predicate Prepares(dc: bool, k: nat, e: Entry) {
    Accepted(e) &&
    match (if dc then k else k + 2)
    case 0 => e.request.CableCheckReq? && e.station.isolationFinished
    case 1 => e.request.PreChargeReq?
    case 2 => e.request.PowerDeliveryReq? && e.request.progress == Start
    case _ => false
  }

  function Preparations(dc: bool): nat {
    if dc then 3 else 1
  }

  /** The first n preparations were made in order since the last discovery, which was finished. */
  predicate PreparedSince(dc: bool, h: History<Entry>, n: nat) {
    h.Then? &&
    if Discovers(h.last) then n == 0 && Discovered(h.last)
    else
      || PreparedSince(dc, h.earlier, n)
      || (n > 0 && Prepares(dc, n - 1, h.last) && PreparedSince(dc, h.earlier, n - 1))
  }

  // ---------- The invariant of an open connection ----------

  /** How many preparations lie behind a session that waits in a state, if any are claimed. */
  function Behind(dc: bool, state: nat): Option<nat> {
    if state < 7 then None
    else if dc then (if state <= 9 then Some(state - 7) else if state <= 12 then Some(3) else None)
    else if state == 7 then Some(0) else if state <= 10 then Some(1) else None
  }

  predicate PreparedFor(dc: bool, state: nat, log: History<Entry>) {
    Behind(dc, state).Some? ==> PreparedSince(dc, log, Behind(dc, state).value)
  }

  /** Since the last renegotiation, the cable check was reported finished. */
  predicate Renewed(h: History<Entry>) {
    match h
    case Empty => true
    case Then(earlier, e) =>
      if e.CableCheckReported? then e.finished || Renewed(earlier) else !e.renegotiated && Renewed(earlier)
  }

  predicate Inv(s: Session) {
    && s.setup.terminateOnFailed
    && s.state <= (if s.setup.dc then 13 else 11)
    && PreparedFor(s.setup.dc, s.state, s.log)
  }

  /** A finished cable check is never a left-over from before a renegotiation of a DC session. */
  predicate Fresh(s: Session) {
    s.setup.dc && s.station.isolationFinished ==> Renewed(s.log)
  }

  /** Energy may be asked for by two requests. */
  predicate Demands(e: Entry) {
    Accepted(e) && (e.request.CurrentDemandReq? || e.request.ChargingStatusReq?)
  }

  /** Every accepted demand was prepared, and every finished cable check was renewed. */
  predicate Sound(dc: bool, h: History<Entry>) {
    h.Then? ==>
      && Sound(dc, h.earlier)
      && (Demands(h.last) ==> PreparedSince(dc, h.earlier, Preparations(dc)))
      && (dc && Prepares(dc, 0, h.last) ==> Renewed(h.earlier))
  }

  /** A validated request was expected, and nothing outside was wrong. */
  lemma AcceptedIsExpected(s: Session, r: Request, sid: int)
    requires s.setup.terminateOnFailed && !r.CertificateUpdateReq? && !r.CertificateInstallationReq?
    requires Supported(r) && !Terminating(HandleRequest(s, r, sid).event)
    ensures MessageOf(r) in Allowed(s.setup.dc, s.state) && !s.station.emergency && !s.station.stopHlc
    ensures !r.PaymentDetailsReq? && !r.SessionStopReq?
  {
  }

  /** Neither certificate request can put a session in front of energy transfer. */
  lemma CertificatesKeepInv(s: Session, r: Request, sid: int)
    requires Inv(s) && (r.CertificateUpdateReq? || r.CertificateInstallationReq?)
    ensures !Terminating(HandleRequest(s, r, sid).event) ==> Inv(HandleRequest(s, r, sid).session)
  {
  }

  lemma EarlyRequestKeepsInv(s: Session, r: Request, sid: int)
    requires Inv(s) && s.state <= 6 && !r.CertificateUpdateReq? && !r.CertificateInstallationReq?
    requires Supported(r) && !Terminating(HandleRequest(s, r, sid).event)
    ensures Inv(HandleRequest(s, r, sid).session)
  {
    AcceptedIsExpected(s, r, sid);
  }

  lemma DcRequestKeepsInv(s: Session, r: Request, sid: int)
    requires Inv(s) && s.state >= 7 && s.setup.dc && !r.CertificateUpdateReq? && !r.CertificateInstallationReq?
    requires Supported(r) && !Terminating(HandleRequest(s, r, sid).event)
    ensures Inv(HandleRequest(s, r, sid).session)
  {
    AcceptedIsExpected(s, r, sid);
  }

  lemma AcRequestKeepsInv(s: Session, r: Request, sid: int)
    requires Inv(s) && s.state >= 7 && !s.setup.dc && !r.CertificateUpdateReq? && !r.CertificateInstallationReq?
    requires Supported(r) && !Terminating(HandleRequest(s, r, sid).event)
    ensures Inv(HandleRequest(s, r, sid).session)
  {
    AcceptedIsExpected(s, r, sid);
  }

  lemma RequestKeepsInv(s: Session, r: Request, sid: int)
    requires Inv(s) && !Terminating(HandleRequest(s, r, sid).event)
    ensures Inv(HandleRequest(s, r, sid).session)
  {
    if !Supported(r) {
    } else if r.CertificateUpdateReq? || r.CertificateInstallationReq? {
      CertificatesKeepInv(s, r, sid);
    } else if s.state <= 6 {
      EarlyRequestKeepsInv(s, r, sid);
    } else if s.setup.dc {
      DcRequestKeepsInv(s, r, sid);
    } else {
      AcRequestKeepsInv(s, r, sid);
    }
  }

  lemma RequestKeepsFresh(s: Session, r: Request, sid: int)
    requires Fresh(s)
    ensures Fresh(HandleRequest(s, r, sid).session)
  {
  }

  lemma LogGrows(s: Session, r: Request, sid: int)
    ensures var reply := HandleRequest(s, r, sid);
      if !Supported(r) then reply.session.log == s.log
      else
        && reply.session.log.Then? && reply.session.log.earlier == s.log && reply.session.log.last.Handled?
        && var e := reply.session.log.last; e.request == r && e.event == reply.event && e.station == s.station
  {
  }

  lemma DemandIsSound(s: Session, r: Request, sid: int)
    requires Inv(s) && (r.CurrentDemandReq? || r.ChargingStatusReq?) && !Terminating(HandleRequest(s, r, sid).event)
    ensures PreparedSince(s.setup.dc, s.log, Preparations(s.setup.dc))
  {
    AcceptedIsExpected(s, r, sid);
  }

  lemma RequestKeepsSound(s: Session, r: Request, sid: int)
    requires Inv(s) && Fresh(s) && Sound(s.setup.dc, s.log)
    ensures Sound(s.setup.dc, HandleRequest(s, r, sid).session.log)
  {
    LogGrows(s, r, sid);
    if (r.CurrentDemandReq? || r.ChargingStatusReq?) && !Terminating(HandleRequest(s, r, sid).event) {
      DemandIsSound(s, r, sid);
    }
  }

  lemma StepKeepsInv(s: Session, step: Step)
    requires Inv(s) && Fresh(s) && Sound(s.setup.dc, s.log) && s.open
    ensures var r := Apply(s, step);
      Sound(s.setup.dc, r.log) && r.setup == s.setup && (r.open ==> Inv(r) && Fresh(r))
  {
    match step
    case Receive(r, sid, sent) =>
      RequestKeepsSound(s, r, sid);
      RequestKeepsFresh(s, r, sid);
      SetupStays(s, r, sid);
      if !Terminating(HandleRequest(s, r, sid).event) {
        RequestKeepsInv(s, r, sid);
      }
    case _ =>
  }

  lemma SetupStays(s: Session, r: Request, sid: int)
    ensures HandleRequest(s, r, sid).session.setup == s.setup
  {
  }

  lemma {:induction false} RunKeepsInv(s: Session, steps: seq<Step>)
    requires Initial(s) && s.setup.terminateOnFailed
    ensures var r := Run(s, steps);
      Sound(s.setup.dc, r.log) && r.setup == s.setup && (r.open ==> Inv(r) && Fresh(r))
    decreases |steps|
  {
    if steps == [] {
    } else {
      RunKeepsInv(s, steps[..|steps| - 1]);
      var s1 := Run(s, steps[..|steps| - 1]);
      if s1.open {
        StepKeepsInv(s1, steps[|steps| - 1]);
      }
    }
  }

  // ---------- What this says about every run ----------

  /** A finished discovery at d, with no other between it and a later position. */
  predicate LastDiscovery(log: seq<Entry>, d: nat, before: nat)
    requires d < before <= |log|
  {
    Discovered(log[d]) && forall k :: d < k < before ==> !Discovers(log[k])
  }

  /** The first n preparations stand in order between two positions. */
  ghost predicate InOrder(dc: bool, log: seq<Entry>, n: nat, after: nat, before: nat)
    requires before <= |log|
    decreases n
  {
    n == 0 || exists i :: after < i < before && Prepares(dc, n - 1, log[i]) && InOrder(dc, log, n - 1, after, i)
  }

  ghost predicate PreparedBefore(dc: bool, log: seq<Entry>, n: nat, before: nat)
    requires before <= |log|
  {
    exists d :: 0 <= d < before && LastDiscovery(log, d, before) && InOrder(dc, log, n, d, before)
  }

  lemma {:induction false} InOrderExtends(
    dc: bool, log: seq<Entry>, longer: seq<Entry>, n: nat, after: nat, before: nat, later: nat)
    requires before <= later <= |longer| && before <= |log| <= |longer| && longer[..|log|] == log
    requires InOrder(dc, log, n, after, before)
    ensures InOrder(dc, longer, n, after, later)
    decreases n
  {
    if n == 0 {
    } else {
      var i :| after < i < before && Prepares(dc, n - 1, log[i]) && InOrder(dc, log, n - 1, after, i);
      assert longer[i] == log[i];
      InOrderExtends(dc, log, longer, n - 1, after, i, i);
    }
  }

  lemma {:induction false} PreparedSinceIsBefore(dc: bool, h: History<Entry>, n: nat)
    requires PreparedSince(dc, h, n)
    ensures PreparedBefore(dc, Items(h), n, |Items(h)|)
    decreases h
  {
    var log, before := Items(h), Items(h.earlier);
    if Discovers(h.last) {
      assert LastDiscovery(log, |before|, |log|);
    } else {
      var m := if PreparedSince(dc, h.earlier, n) then n else n - 1;
      PreparedSinceIsBefore(dc, h.earlier, m);
      var d :| 0 <= d < |before| && LastDiscovery(before, d, |before|) && InOrder(dc, before, m, d, |before|);
      assert LastDiscovery(log, d, |log|);
      InOrderExtends(dc, before, log, m, d, |before|, |before|);
      if m == n {
        InOrderExtends(dc, before, log, n, d, |before|, |log|);
      } else {
        assert Prepares(dc, n - 1, log[|before|]);
      }
    }
  }

  lemma {:induction false} PreparedStays(dc: bool, log: seq<Entry>, longer: seq<Entry>, n: nat, before: nat)
    requires before <= |log| <= |longer| && longer[..|log|] == log && PreparedBefore(dc, log, n, before)
    ensures PreparedBefore(dc, longer, n, before)
  {
    var d :| 0 <= d < before && LastDiscovery(log, d, before) && InOrder(dc, log, n, d, before);
    assert forall k :: 0 <= k < before ==> longer[k] == log[k];
    assert LastDiscovery(longer, d, before);
    InOrderExtends(dc, log, longer, n, d, before, before);
  }

  lemma {:induction false} DemandAt(dc: bool, h: History<Entry>, j: nat)
    requires Sound(dc, h) && j < |Items(h)| && Demands(Items(h)[j])
    ensures PreparedBefore(dc, Items(h), Preparations(dc), j)
  {
    var before := Items(h.earlier);
    if j == |before| {
      PreparedSinceIsBefore(dc, h.earlier, Preparations(dc));
    } else {
      DemandAt(dc, h.earlier, j);
    }
    PreparedStays(dc, before, Items(h), Preparations(dc), j);
  }

  /**
   * Renegotiation safety: in every run, an accepted request for energy has, since the last parameter
   * discovery, which was finished: in DC mode a cable check answered Finished, a precharge and a
   * PowerDelivery Start, in this order; in AC mode a PowerDelivery Start.
   */
  lemma DemandIsPrepared(s: Session, steps: seq<Step>, j: nat)
    requires Initial(s) && s.setup.terminateOnFailed && j < |Items(Run(s, steps).log)|
    requires Demands(Items(Run(s, steps).log)[j])
    ensures PreparedBefore(s.setup.dc, Items(Run(s, steps).log), Preparations(s.setup.dc), j)
  {
    RunKeepsInv(s, steps);
    DemandAt(s.setup.dc, Run(s, steps).log, j);
  }

  lemma {:induction false} RenewedAfter(h: History<Entry>, i: nat)
    requires Renewed(h) && i < |Items(h)| && Items(h)[i].Handled? && Items(h)[i].renegotiated
    ensures exists k :: i < k < |Items(h)| && Items(h)[k] == CableCheckReported(true)
  {
    var log := Items(h);
    if h.last == CableCheckReported(true) {
      assert log[|Items(h.earlier)|] == CableCheckReported(true);
    } else {
      RenewedAfter(h.earlier, i);
      var k :| i < k < |Items(h.earlier)| && Items(h.earlier)[k] == CableCheckReported(true);
      assert log[k] == CableCheckReported(true);
    }
  }

  lemma {:induction false} RenewedAt(h: History<Entry>, i: nat, j: nat)
    requires Sound(true, h) && i < j < |Items(h)|
    requires Items(h)[i].Handled? && Items(h)[i].renegotiated && Prepares(true, 0, Items(h)[j])
    ensures exists k :: i < k < j && Items(h)[k] == CableCheckReported(true)
  {
    var before := Items(h.earlier);
    if j == |before| {
      RenewedAfter(h.earlier, i);
    } else {
      RenewedAt(h.earlier, i, j);
    }
    var k :| i < k < j && before[k] == CableCheckReported(true);
    assert Items(h)[k] == CableCheckReported(true);
  }

  /** After a renegotiation, a cable check is answered Finished only once it has been reported finished anew. */
  lemma CableCheckIsRenewed(s: Session, steps: seq<Step>, i: nat, j: nat)
    requires Initial(s) && s.setup.terminateOnFailed && s.setup.dc && i < j < |Items(Run(s, steps).log)|
    requires Items(Run(s, steps).log)[i].Handled? && Items(Run(s, steps).log)[i].renegotiated
    requires Prepares(true, 0, Items(Run(s, steps).log)[j])
    ensures exists k :: i < k < j && Items(Run(s, steps).log)[k] == CableCheckReported(true)
  {
    RunKeepsInv(s, steps);
    RenewedAt(Run(s, steps).log, i, j);
  }

  /** The number of entries in the table of states of a mode. */
  function TableSize(dc: bool): nat {
    if dc then 15 else 13
  }

  lemma LookupsOfRequest(s: Session, r: Request, sid: int)
    requires Inv(s)
    ensures HandleRequest(s, r, sid).session.state < TableSize(s.setup.dc) <==>
      s.setup.dc || !(r.SessionStopReq? || r.WeldingDetectionReq?)
  {
  }

  /**
   * The table of states is looked up before a request, and again after it. In every open session, the first
   * state has an entry; the second has one unless, in AC mode, the request was to stop the session or to
   * detect welding, which lead to states of DC mode.
   */
  lemma StatesAreInTheTable(s: Session, steps: seq<Step>, r: Request, sid: int)
    requires Initial(s) && s.setup.terminateOnFailed && Run(s, steps).open
    ensures var s1 := Run(s, steps);
      && s1.state < TableSize(s1.setup.dc)
      && (HandleRequest(s1, r, sid).session.state < TableSize(s1.setup.dc) <==>
            s1.setup.dc || !(r.SessionStopReq? || r.WeldingDetectionReq?))
  {
    RunKeepsInv(s, steps);
    LookupsOfRequest(Run(s, steps), r, sid);
  }

  // ---------- Which responses say what ----------

  /** A request that no validation looks at. */
  predicate Unchecked(r: Request) {
    r.CertificateUpdateReq? || r == CertificateInstallationReq(Installed)
  }

  /** A start or a renegotiation that does not fit the last message, or an unknown progress. */
  predicate Untimely(s: Session, r: Request) {
    r.PowerDeliveryReq? &&
    match r.progress
    case Start => AfterDemand(s)
    case Renegotiate => !AfterDemand(s)
    case OtherProgress => true
    case Stop => false
  }

  /**
   * A request is answered as out of sequence if and only if it is checked, no other check takes precedence,
   * and the table of the mode does not expect it.
   */
  lemma SequenceErrorExactly(s: Session, r: Request, sid: int)
    ensures HandleRequest(s, r, sid).code == FAILED_SequenceError <==>
      && Supported(r) && !Unchecked(r) && MessageOf(r) !in Allowed(s.setup.dc, s.state)
      && !s.station.terminated && (r.SessionSetupReq? || s.sessionId == sid)
      && !Untimely(s, r) && r != SessionStopReq(true)
  {
  }

  // ---------- Where a failed response leaves the session open ----------

  /** An otherwise valid PowerDelivery: expected, in the right session, undisturbed and in order itself. */
  predicate PowerDeliveryFine(s: Session, r: Request, sid: int) {
    && r.PowerDeliveryReq? && s.sessionId == sid && PowerDelivery in Allowed(s.setup.dc, s.state)
    && !s.station.stopHlc && !s.station.emergency && r.tuple in s.setup.tuples
    && (s.setup.dc && r.progress == Start ==> s.station.chargeReady)
    && (!s.setup.dc && r.progress == Start ==> s.station.contactorClosed || !r.contactorTimeout)
  }

  /**
   * A response that says failed ends the session, with exactly one exception: an otherwise valid
   * PowerDelivery that starts after energy has flown, or renegotiates before, only fails.
   */
  lemma FailedYetOpenExactly(s: Session, r: Request, sid: int)
    requires s.setup.terminateOnFailed
    ensures var reply := HandleRequest(s, r, sid);
      (Failed(reply.code) && !Terminating(reply.event)) <==>
        PowerDeliveryFine(s, r, sid) && !s.station.terminated && r.progress != OtherProgress && Untimely(s, r)
  {
  }

  // A run in which a response fails and the session goes on.

  /** The steps of an AC session that renegotiates before any energy has flown. */
  function Script(k: nat): Step {
    match k
    case 0 => Receive(SessionSetupReq(7), 7, true)
    case 1 => Receive(ServiceDiscoveryReq, 7, true)
    case 2 => Receive(PaymentServiceSelectionReq(false, [SERVICE_ID_CHARGING]), 7, true)
    case 3 => Report(READY_STATION)
    case 4 => Receive(AuthorizationReq, 7, true)
    case 5 => Receive(ChargeParameterReq(0, false, false), 7, true)
    case _ => Receive(PowerDeliveryReq(Renegotiate, 1, false), 7, true)
  }

  function Scripted(k: nat): seq<Step> {
    if k == 0 then [] else Scripted(k - 1) + [Script(k - 1)]
  }

  const READY_STATION := Station(true, true, true, true, Valid, true, true, true, false, false, false, false)
  const AC_SETUP := Setup(false, true, false, true, {}, {0}, {1})

  ghost function NewSession(): (s: Session)
    ensures Initial(s) && s.setup.terminateOnFailed
  {
    Session(0, Unknown, Unknown, false, 0, AC_SETUP, READY_STATION, true, Empty)
  }

  /** Where the session stands before the k-th step of the script, and its last message there. */
  function StageOf(k: nat): (nat, Message) {
    match k
    case 0 => (0, Unknown)
    case 1 => (1, SessionSetup)
    case 2 => (2, ServiceDiscovery)
    case 3 => (5, PaymentServiceSelection)
    case 4 => (5, PaymentServiceSelection)
    case 5 => (6, Authorization)
    case _ => (7, ChargeParameterDiscovery)
  }

  predicate AtStage(s: Session, k: nat) {
    && s.open && s.setup == AC_SETUP && (s.state, s.last) == StageOf(k)
    && s.station == (if k == 3 then READY_STATION.(authFinished := false) else READY_STATION)
    && s.sessionId == (if k == 0 then 0 else 7)
  }

  lemma EarlyScriptStep(s: Session, k: nat)
    requires k < 3 && AtStage(s, k)
    ensures AtStage(Apply(s, Script(k)), k + 1)
  {
    if k == 2 {
      ChargingAlone();
    }
  }

  /** Selecting the charge service and nothing else is fine. */
  lemma ChargingAlone()
    ensures SelectionCode(AC_SETUP, false, [SERVICE_ID_CHARGING]) == OK
  {
    var services := [SERVICE_ID_CHARGING];
    assert services[0] == SERVICE_ID_CHARGING && OnlyOffered(AC_SETUP.services, services[..0]);
  }

  lemma LateScriptStep(s: Session, k: nat)
    requires 3 <= k < 6 && AtStage(s, k)
    ensures AtStage(Apply(s, Script(k)), k + 1)
  {
  }

  lemma {:induction false} ScriptRun(k: nat)
    requires k <= 6
    ensures AtStage(Run(NewSession(), Scripted(k)), k)
  {
    if k > 0 {
      ScriptRun(k - 1);
      ScriptStep(Run(NewSession(), Scripted(k - 1)), k - 1);
      ScriptGoesOn(NewSession(), k);
    }
  }

  lemma ScriptStep(s: Session, k: nat)
    requires k < 6 && AtStage(s, k)
    ensures AtStage(Apply(s, Script(k)), k + 1)
  {
    if k < 3 {
      EarlyScriptStep(s, k);
    } else {
      LateScriptStep(s, k);
    }
  }

  lemma ScriptGoesOn(s: Session, k: nat)
    requires k > 0
    ensures Run(s, Scripted(k)) == Apply(Run(s, Scripted(k - 1)), Script(k - 1))
  {
    assert Scripted(k)[..|Scripted(k)| - 1] == Scripted(k - 1);
  }

  lemma LastScriptStep(s: Session)
    requires AtStage(s, 6)
    ensures var r := Apply(s, Script(6)); r.open && r.log.Then? && r.log.last.Handled? && Failed(r.log.last.code)
  {
    FailedYetOpenExactly(s, PowerDeliveryReq(Renegotiate, 1, false), 7);
  }

  /** There is a run from the beginning that goes on after a failed response. */
  lemma FailedAndWentOn()
    ensures var r := Run(NewSession(), Scripted(7));
      r.open && r.log.Then? && r.log.last.Handled? && Failed(r.log.last.code)
  {
    ScriptRun(6);
    ScriptGoesOn(NewSession(), 7);
    LastScriptStep(Run(NewSession(), Scripted(6)));
  }
}
