/**
 * What the EVSEs are sent, held against the entries of the request itself: the leaf-side and root-side limits in
 * force, the conversion efficiency, the minimum of a first trade, and the phases.
 */
module EnergyGrants {
  import opened Wrappers
  import opened EnergySlot
  import opened EnergySafety
  import opened EnergyConservation
  import opened EnergyImport
  import opened EnergyProgress
  import opened EnergyTermination
  import opened EnergySchedule
  import opened EnergyMarket
  import opened EnergyPurchase
  import opened EnergyManager
  import EnergyFairness

  // ---------- The limits of the entry in force ----------

  /** An amount on the root side respects a limit on the leaf side, where a share k arrives, and one beside it. */
  ghost predicate SidesKept(leaf: Option<real>, root: Option<real>, k: real, x: real) {
    leaf.Some? ==> x * k <= leaf.value && (root.Some? ==> x <= root.value)
  }

  ghost predicate EntryKept(e: Entry, a: real, w: real) {
    var k := e.efficiency.ValueOr(1.0);
    SidesKept(e.toLeaves.maxA, e.toRoot.maxA, k, a) && SidesKept(e.toLeaves.maxW, e.toRoot.maxW, k, w)
  }

  /** Amperes and watts respect the entry in force at t; nothing flows if there is no schedule. */
  ghost predicate ScheduleKept(schedule: Option<seq<Entry>>, t: int, a: real, w: real) {
    if schedule.None? then a <= 0.0 && w <= 0.0
    else forall j: nat :: InForce(schedule.value, t, j) ==> EntryKept(schedule.value[j], a, w)
  }

  lemma TighterKeeps(m: Option<real>, leaf: Option<real>, root: Option<real>, k: real, x: real)
    requires Tighter(m, leaf, root, k) && k > 0.0 && (m.Some? ==> x <= m.value)
    ensures SidesKept(leaf, root, k, x)
  {
    if m.Some? {
      MulMonotone(x, m.value, k);
    }
  }

  lemma LimitsKeepSchedule(schedule: Option<seq<Entry>>, l: Limits, t: int, a: real, w: real)
    requires ValidSchedule(schedule) && SortedSchedule(schedule) && l == ScheduledLimits(schedule, t)
    requires (l.maxA.Some? ==> a <= l.maxA.value) && (l.maxW.Some? ==> w <= l.maxW.value)
    ensures ScheduleKept(schedule, t, a, w)
  {
    if schedule.Some? {
      forall j: nat | InForce(schedule.value, t, j)
        ensures EntryKept(schedule.value[j], a, w)
      {
        LimitsOfEntry(schedule.value, t, j);
        var e := schedule.value[j];
        TighterKeeps(l.maxA, e.toLeaves.maxA, e.toRoot.maxA, e.efficiency.ValueOr(1.0), a);
        TighterKeeps(l.maxW, e.toLeaves.maxW, e.toRoot.maxW, e.efficiency.ValueOr(1.0), w);
      }
    }
  }

  /** What is granted below a market place respects both schedules of its request at t. */
  ghost predicate RequestKept(enforced: seq<EnforcedLimits>, evses: seq<Market>, m: Market, t: int, g: nat)
    requires |enforced| == |evses| && forall c :: 0 <= c < |evses| ==> Rooted(evses[c])
    requires forall b :: 0 <= b < |enforced| ==> g < |enforced[b].schedule|
  {
    var a := GrantedBelow(Ampere, enforced, evses, m, g, |evses|);
    var w := GrantedBelow(WattUnit, enforced, evses, m, g, |evses|);
    && ScheduleKept(m.request.imports, t, a, w)
    && ScheduleKept(m.request.exports, t, Towards(Export, a), Towards(Export, w))
  }

  lemma ImportsKept(m: Market, t: int, a: real, w: real)
    requires ValidSchedule(m.request.imports) && SortedSchedule(m.request.imports)
    requires var imp := ScheduledLimits(m.request.imports, t);
      Within(imp.maxA, None, a) && Within(imp.maxW, None, w)
    ensures ScheduleKept(m.request.imports, t, a, w)
  {
    LimitsKeepSchedule(m.request.imports, ScheduledLimits(m.request.imports, t), t, a, w);
  }

  lemma ExportsKept(m: Market, t: int, a: real, w: real)
    requires ValidSchedule(m.request.exports) && SortedSchedule(m.request.exports)
    requires var exp := ScheduledLimits(m.request.exports, t);
      Within(None, exp.maxA, a) && Within(None, exp.maxW, w)
    ensures ScheduleKept(m.request.exports, t, Towards(Export, a), Towards(Export, w))
  {
    LimitsKeepSchedule(m.request.exports, ScheduledLimits(m.request.exports, t), t, Towards(Export, a),
                       Towards(Export, w));
  }

  lemma KeptIsKept(enforced: seq<EnforcedLimits>, evses: seq<Market>, m: Market, t: int, g: nat)
    requires ValidSchedule(m.request.imports) && ValidSchedule(m.request.exports)
    requires SortedSchedule(m.request.imports) && SortedSchedule(m.request.exports)
    requires |enforced| == |evses| && forall c :: 0 <= c < |evses| ==> Rooted(evses[c])
    requires forall b :: 0 <= b < |enforced| ==> g < |enforced[b].schedule|
    requires GrantKept(enforced, evses, m, t, g)
    ensures RequestKept(enforced, evses, m, t, g)
  {
    var a := GrantedBelow(Ampere, enforced, evses, m, g, |evses|);
    var w := GrantedBelow(WattUnit, enforced, evses, m, g, |evses|);
    ImportsKept(m, t, a, w);
    ExportsKept(m, t, a, w);
  }

  /**
   * End to end: at every instant the grid covers, what the EVSEs below a node with sorted schedules are sent
   * together respects the entries in force there: times the conversion efficiency it is at most the leaf-side
   * limit, and it is at most a root-side limit beside that. Without a schedule nothing is sent in its direction.
   */
  lemma EntriesGranted(
    request: Request, nodes: set<Market>, evses: seq<Market>, params: Params, grid: seq<int>,
    enforced: seq<EnforcedLimits>, r: nat, m: Market, t: int, g: nat)
    requires MarketOf(request, nodes, evses) && ValidParams(params) && GridFor(grid, request)
    requires AllSent(enforced, evses, Outcome(request, nodes, evses, params, grid, r))
    requires m in nodes && SortedSchedule(m.request.imports) && SortedSchedule(m.request.exports)
    requires Covering(grid, t, g)
    ensures |evses| == |enforced| && forall b :: 0 <= b < |enforced| ==> g < |enforced[b].schedule|
    ensures RequestKept(enforced, evses, m, t, g)
  {
    assert forall b :: 0 <= b < |enforced| ==>
      Sends(enforced[b], evses[b], Outcome(request, nodes, evses, params, grid, r));
    GrantedWithinRequest(request, nodes, evses, params, grid, enforced, r, m, t, g);
    KeptIsKept(enforced, evses, m, t, g);
  }

  // ---------- What one EVSE is sent ----------

  lemma {:induction false} MarkedOne(xs: seq<real>, marks: seq<bool>, k: nat, b: nat)
    requires k <= |xs| == |marks| && forall c :: 0 <= c < |xs| ==> (marks[c] <==> c == b)
    ensures Marked(xs, marks, k) == if b < k then xs[b] else 0.0
  {
    if k > 0 {
      MarkedOne(xs, marks, k - 1, b);
    }
  }

  /** A node that serves one broker alone has sold what that broker has traded. */
  lemma AloneHolds<N>(u: Unit, net: Net<N>, bs: seq<nat>, b: nat)
    requires ValidNet(net) && Schedulable(net, bs) && b < |net.paths| && EnergyFairness.Alone(net, b)
    ensures Amount(Run(net, Initial(net), bs).sold[Own(net, b)], u) == Traded(u, net, Initial(net), bs, b)
  {
    Conservation(u, net, bs, Own(net, b));
    MarkedOne(AllTraded(u, net, Initial(net), bs), Through(net, Own(net, b)), |net.paths|, b);
  }

  /** After any number of rounds, a node that serves one broker alone has sold the watts of its amperes. */
  lemma HeldWatts<N>(net: Net<N>, b: nat, n: int, r: nat)
    requires ValidNet(net) && b < |net.paths| && EnergyFairness.Alone(net, b) && Draws(net, net.paths[b], Import, n)
    requires Draws(net, net.paths[b], Export, n) || ImportOnly(net)
    ensures DrawnOn(Rounds(net, Initial(net), r).sold[Own(net, b)], n, net.params.volt)
  {
    var bs := TurnsOfRounds(net, r);
    RoundsAreRuns(net, r);
    TradedWatts(net, bs, b, n);
    AloneHolds(Ampere, net, bs, b);
    AloneHolds(WattUnit, net, bs, b);
  }

  /** Where amperes and watts are limited, an EVSE is sent for every slot the watts that its current draws. */
  lemma SentWatts(
    request: Request, nodes: set<Market>, evses: seq<Market>, params: Params, grid: seq<int>,
    enforced: seq<EnforcedLimits>, r: nat, g: nat, b: nat, n: int)
    requires MarketOf(request, nodes, evses) && ValidParams(params) && g < |grid| && Unnested(request)
    requires AllSent(enforced, evses, Outcome(request, nodes, evses, params, grid, r)) && b < |evses|
    requires var net := NetOf(nodes, evses, params, grid, g);
      && ValidNet(net) && Draws(net, Path(evses[b]), Import, n)
      && (Draws(net, Path(evses[b]), Export, n) || ImportOnly(net))
    ensures |enforced[b].schedule| == |grid|
    ensures Drawn(Watt(enforced[b].schedule[g]), Amp(enforced[b].schedule[g]), n, params.volt)
  {
    var net := NetOf(nodes, evses, params, grid, g);
    EvseAlone(request, nodes, evses, params, grid, g, b);
    HeldWatts(net, b, n, r);
    SentIsHeld(request, nodes, evses, params, grid, enforced, g, r, b);
    assert DrawnOn(enforced[b].schedule[g], n, params.volt);
  }

  lemma HeldMinimum<N>(net: Net<N>, b: nat, x: N, r: nat)
    requires ValidNet(net) && ImportOnly(net) && b < |net.paths| && EnergyFairness.Alone(net, b)
    requires x in net.paths[b] && ImportOffer(net, Initial(net), b).maxA.Some?
    requires x in net.imp && net.imp[x].minA.Some? && net.imp[x].minA.value > 0.0
    ensures var y := Amp(Rounds(net, Initial(net), r).sold[Own(net, b)]); y == 0.0 || y >= net.imp[x].minA.value
  {
    RoundsAreRuns(net, r);
    EnergyFairness.NothingOrMinimum(net, TurnsOfRounds(net, r), Own(net, b), x);
  }

  /** An EVSE is sent nothing, or at least the minimum in force at any node of its path. */
  lemma SentNothingOrMinimum(
    request: Request, nodes: set<Market>, evses: seq<Market>, params: Params, grid: seq<int>,
    enforced: seq<EnforcedLimits>, r: nat, g: nat, b: nat, x: Market, j: nat)
    requires MarketOf(request, nodes, evses) && ValidParams(params) && g < |grid| && Unnested(request)
    requires AllSent(enforced, evses, Outcome(request, nodes, evses, params, grid, r)) && b < |evses|
    requires var net := NetOf(nodes, evses, params, grid, g);
      ValidNet(net) && ImportOnly(net) && ImportOffer(net, Initial(net), b).maxA.Some?
    requires x in Path(evses[b]) && SortedSchedule(x.request.imports) && x.request.imports.Some?
    requires InForce(x.request.imports.value, grid[g], j)
    requires var m := x.request.imports.value[j].toRoot.minA; m.Some? && m.value > 0.0
    ensures |enforced[b].schedule| == |grid|
    ensures var y := Amp(enforced[b].schedule[g]); y == 0.0 || y >= x.request.imports.value[j].toRoot.minA.value
  {
    var net := NetOf(nodes, evses, params, grid, g);
    EvseAlone(request, nodes, evses, params, grid, g, b);
    assert OnNet(net, net.paths[b]);
    LimitsOfEntry(x.request.imports.value, grid[g], j);
    HeldMinimum(net, b, x, r);
    SentIsHeld(request, nodes, evses, params, grid, enforced, g, r, b);
  }

  /** After the rounds, an EVSE is sent a number, if only zero, in every unit in which its import is limited. */
  lemma SentIsSet(
    request: Request, nodes: set<Market>, evses: seq<Market>, params: Params, grid: seq<int>,
    enforced: seq<EnforcedLimits>, r: nat, settled: bool, g: nat, b: nat, u: Unit)
    requires MarketOf(request, nodes, evses) && ValidParams(params) && g < |grid| && b < |evses|
    requires AllSent(enforced, evses, Outcome(request, nodes, evses, params, grid, r))
    requires var nets := NetsOf(nodes, evses, params, grid); AllValid(nets) && Ended(nets, r, settled)
    requires LimitedIn(NetOf(nodes, evses, params, grid, g), Path(evses[b]), Import, u)
    ensures |enforced[b].schedule| == |grid| && IsSet(enforced[b].schedule[g], u)
  {
    var net := NetOf(nodes, evses, params, grid, g);
    assert NetsOf(nodes, evses, params, grid)[g] == net;
    RoundsSet(net, r, b, u);
    SentIsHeld(request, nodes, evses, params, grid, enforced, g, r, b);
  }
}
