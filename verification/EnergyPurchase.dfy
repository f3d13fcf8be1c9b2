/**
 * Offers and purchases, told from the limits of the nodes alone: an offer is the least that a node of the path has
 * left, a purchase is the largest current that is wanted and fits, and it draws that current on every phase.
 */
module EnergyPurchase {
  import opened Wrappers
  import opened EnergySlot
  import opened EnergySafety
  import opened EnergyConservation
  import opened EnergyImport
  import opened EnergyProgress
  import opened EnergyAlternation

  function LimitOf(l: Limits, u: Unit): Option<real> {
    if u.Ampere? then l.maxA else l.maxW
  }

  // ---------- What a path offers ----------

  /** What is left of a limit: what was sold is gone, but what was sold the other way does not come on top. */
  ghost predicate IsLeft(limit: Option<real>, sold: real, x: real) {
    limit.Some? && x == if sold > 0.0 then limit.value - sold else limit.value
  }

  ghost predicate LeavesOn<N>(net: Net<N>, sold: map<N, Sold>, path: seq<N>, dir: Direction, u: Unit, i: nat, x: real) {
    && i < |path| && path[i] in net.imp && path[i] in net.exp && path[i] in sold
    && IsLeft(LimitOf(LimitsIn(net, path[i], dir), u), Towards(dir, Amount(sold[path[i]], u)), x)
  }

  ghost predicate LimitedIn<N>(net: Net<N>, path: seq<N>, dir: Direction, u: Unit) {
    exists i :: 0 <= i < |path| && path[i] in net.imp && path[i] in net.exp
                && LimitOf(LimitsIn(net, path[i], dir), u).Some?
  }

  /** An offer is limited if some node is, and then to the least that a node has left. */
  lemma OfferIsLeast<N>(net: Net<N>, sold: map<N, Sold>, path: seq<N>, dir: Direction, u: Unit)
    requires forall j :: 0 <= j < |path| ==> path[j] in net.imp && path[j] in net.exp && path[j] in sold
    ensures var o := LimitOf(OfferOn(net, sold, path, dir), u);
      && (o.Some? <==> LimitedIn(net, path, dir, u))
      && (o.Some? ==> exists i :: LeavesOn(net, sold, path, dir, u, i, o.value))
      && (o.Some? ==> forall i, x :: LeavesOn(net, sold, path, dir, u, i, x) ==> o.value <= x)
  {
    var o := LimitOf(OfferOn(net, sold, path, dir), u);
    forall i: nat, x | LeavesOn(net, sold, path, dir, u, i, x)
      ensures o.Some? && o.value <= x
    {
      OfferBelow(net, sold, path, dir, i);
    }
    if i :| 0 <= i < |path| && LimitOf(LimitsIn(net, path[i], dir), u).Some? {
      OfferBelow(net, sold, path, dir, i);
    }
    if o.Some? {
      var i := OfferAttained(net, sold, path, dir, u);
      assert LeavesOn(net, sold, path, dir, u, i, o.value);
    }
  }

  lemma OfferAttained<N>(net: Net<N>, sold: map<N, Sold>, path: seq<N>, dir: Direction, u: Unit) returns (i: nat)
    requires forall j :: 0 <= j < |path| ==> path[j] in net.imp && path[j] in net.exp && path[j] in sold
    requires LimitOf(OfferOn(net, sold, path, dir), u).Some?
    ensures i < |path|
    ensures LimitOf(OfferOn(net, sold, path, dir), u) == LimitOf(LeftAt(net, sold, path[i], dir), u)
  {
    if u.Ampere? {
      i := OfferAttainedA(net, sold, path, dir);
    } else {
      i := OfferAttainedW(net, sold, path, dir);
    }
  }

  ghost predicate MinimumOn<N>(net: Net<N>, path: seq<N>, dir: Direction, i: nat, x: real) {
    && i < |path| && path[i] in net.imp && path[i] in net.exp
    && LimitsIn(net, path[i], dir).minA == Some(x)
  }

  /** An offer's minimum is the greatest that is set on the path. */
  lemma {:induction false} OfferedMinimum<N>(net: Net<N>, sold: map<N, Sold>, path: seq<N>, dir: Direction)
    requires forall j :: 0 <= j < |path| ==> path[j] in net.imp && path[j] in net.exp && path[j] in sold
    ensures var m := OfferOn(net, sold, path, dir).minA;
      && (m.Some? ==> exists i :: MinimumOn(net, path, dir, i, m.value))
      && (forall i, x :: MinimumOn(net, path, dir, i, x) ==> m.Some? && x <= m.value)
  {
    if path != [] {
      var past, m := path[..|path| - 1], OfferOn(net, sold, path, dir).minA;
      OfferedMinimum(net, sold, past, dir);
      forall i: nat, x | MinimumOn(net, path, dir, i, x)
        ensures m.Some? && x <= m.value
      {
        assert i < |past| ==> MinimumOn(net, past, dir, i, x);
      }
      if m.Some? && !MinimumOn(net, path, dir, |path| - 1, m.value) {
        var i :| MinimumOn(net, past, dir, i, m.value);
        assert MinimumOn(net, path, dir, i, m.value);
      }
    }
  }

  // ---------- The number of phases ----------

  ghost predicate PhasesOn<N>(net: Net<N>, path: seq<N>, dir: Direction, i: nat, n: int) {
    && i < |path| && path[i] in net.imp && path[i] in net.exp
    && LimitsIn(net, path[i], dir).maxPhases == Some(n)
  }

  /** The phases of a path are the fewest that a node allows, and one if no node says anything. */
  ghost predicate PhaseCount<N>(net: Net<N>, path: seq<N>, dir: Direction, n: int) {
    && (forall i, k :: PhasesOn(net, path, dir, i, k) ==> n <= k)
    && ((exists i :: PhasesOn(net, path, dir, i, n)) || (n == 1 && !exists i, k :: PhasesOn(net, path, dir, i, k)))
  }

  lemma {:induction false} FewestPhases<N>(net: Net<N>, sold: map<N, Sold>, path: seq<N>, dir: Direction)
    requires forall j :: 0 <= j < |path| ==> path[j] in net.imp && path[j] in net.exp && path[j] in sold
    ensures var m := OfferOn(net, sold, path, dir).maxPhases;
      && (m.Some? ==> exists i :: PhasesOn(net, path, dir, i, m.value))
      && (forall i, k :: PhasesOn(net, path, dir, i, k) ==> m.Some? && m.value <= k)
  {
    if path != [] {
      var past, m := path[..|path| - 1], OfferOn(net, sold, path, dir).maxPhases;
      FewestPhases(net, sold, past, dir);
      forall i: nat, k | PhasesOn(net, path, dir, i, k)
        ensures m.Some? && m.value <= k
      {
        assert i < |past| ==> PhasesOn(net, past, dir, i, k);
      }
      if m.Some? && !PhasesOn(net, path, dir, |path| - 1, m.value) {
        var i :| PhasesOn(net, past, dir, i, m.value);
        assert PhasesOn(net, path, dir, i, m.value);
      }
    }
  }

  /** The phases a broker reckons with are those of its path. */
  lemma PhasesOffered<N>(net: Net<N>, sold: map<N, Sold>, path: seq<N>, dir: Direction, n: int)
    requires forall j :: 0 <= j < |path| ==> path[j] in net.imp && path[j] in net.exp && path[j] in sold
    ensures PhaseCount(net, path, dir, n) <==> n == OfferOn(net, sold, path, dir).maxPhases.ValueOr(1)
  {
    FewestPhases(net, sold, path, dir);
  }

  // ---------- What a purchase draws ----------

  /** A broker's path limits amperes and watts in a direction, and has n phases. */
  ghost predicate Draws<N>(net: Net<N>, path: seq<N>, dir: Direction, n: int) {
    LimitedIn(net, path, dir, Ampere) && LimitedIn(net, path, dir, WattUnit) && PhaseCount(net, path, dir, n)
  }

  lemma BuySideDraws(l: Limits, first: bool, p: Params, dir: Direction, idle: Sold)
    requires WattsPerAmpere(l, p) > 0.0 && l.maxA.Some? && l.maxW.Some? && Amp(idle) == 0.0 && Watt(idle) == 0.0
    ensures DrawnOn(BuySide(l, first, p, dir, idle).sold, l.maxPhases.ValueOr(1), p.volt)
  {
    var t, n := BuySide(l, first, p, dir, idle), l.maxPhases.ValueOr(1) as real;
    if t.bought {
      var x := Towards(dir, Amp(t.sold));
      Product(x, n, p.volt);
      Product(-x, n, p.volt);
      assert Watt(t.sold) == Towards(dir, x * (n * p.volt));
    }
  }

  lemma OfferDraws<N>(net: Net<N>, s: Slot<N>, b: nat, dir: Direction, n: int)
    requires ValidNet(net) && Shaped(net, s) && b < |net.paths| && Draws(net, net.paths[b], dir, n)
    ensures var o := Offer(net, s, b, dir); o.maxA.Some? && o.maxW.Some? && o.maxPhases.ValueOr(1) == n
  {
    var path := net.paths[b];
    assert OnNet(net, path);
    OfferIsLeast(net, s.sold, path, dir, Ampere);
    OfferIsLeast(net, s.sold, path, dir, WattUnit);
    PhasesOffered(net, s.sold, path, dir, n);
  }

  lemma DecideDraws(imp: Limits, exp: Limits, first: bool, p: Params, n: int)
    requires WattsPerAmpere(imp, p) > 0.0 && WattsPerAmpere(exp, p) > 0.0
    requires var o := if Open(imp) then imp else exp; o.maxA.Some? && o.maxW.Some? && o.maxPhases.ValueOr(1) == n
    ensures DrawnOn(Decide(imp, exp, first, p).sold, n, p.volt)
  {
    if Open(imp) {
      BuySideDraws(imp, first, p, Import, Idle(imp));
    } else if Open(exp) {
      BuySideDraws(exp, first, p, Export, Idle(imp));
    }
  }

  /** Where amperes and watts are limited, a decision is booked in watts as its current on every phase. */
  lemma WattsDrawn<N>(net: Net<N>, s: Slot<N>, b: nat, n: int)
    requires ValidNet(net) && Shaped(net, s) && b < |net.paths|
    requires Draws(net, net.paths[b], Side(net, s, b), n)
    ensures Drawn(Watt(Decision(net, s, b).sold), Amp(Decision(net, s, b).sold), n, net.params.volt)
  {
    var imp, exp := Offer(net, s, b, Import), Offer(net, s, b, Export);
    OfferDraws(net, s, b, Side(net, s, b), n);
    PhasesOnPath(net, s.sold, net.paths[b], Import);
    PhasesOnPath(net, s.sold, net.paths[b], Export);
    DecideDraws(imp, exp, s.first[b], net.params, n);
    assert DrawnOn(Decision(net, s, b).sold, n, net.params.volt);
  }

  lemma DrawnTogether(w: real, a: real, x: Sold, w': real, a': real, n: int, volt: real)
    requires Drawn(w, a, n, volt) && DrawnOn(x, n, volt) && w' == w + Watt(x) && a' == a + Amp(x)
    ensures Drawn(w', a', n, volt)
  {
  }

  lemma TurnWatts<N>(net: Net<N>, s: Slot<N>, b: nat, n: int)
    requires ValidNet(net) && Shaped(net, s) && b < |net.paths| && Draws(net, net.paths[b], Import, n)
    requires Draws(net, net.paths[b], Export, n) || Importing(net, s)
    ensures DrawnOn(Decision(net, s, b).sold, n, net.params.volt)
  {
    if Side(net, s, b).Import? || Draws(net, net.paths[b], Export, n) {
      WattsDrawn(net, s, b, n);
    } else {
      ImportDecision(net, s, b);
    }
  }

  lemma NothingDrawn(n: int, volt: real)
    ensures Drawn(0.0, 0.0, n, volt)
  {
  }

  lemma RunWatts<N>(net: Net<N>, bs: seq<nat>, b: nat, n: int)
    requires ValidNet(net) && Schedulable(net, bs) && b < |net.paths| && Draws(net, net.paths[b], Import, n)
    requires Draws(net, net.paths[b], Export, n) || ImportOnly(net)
    ensures DrawnOn(Decision(net, Run(net, Initial(net), bs), b).sold, n, net.params.volt)
  {
    if ImportOnly(net) {
      ImportInitially(net);
      ImportRun(net, Initial(net), bs);
    }
    TurnWatts(net, Run(net, Initial(net), bs), b, n);
  }

  /** All that a broker trades in a run draws its watts. */
  ghost predicate TradedDrawn<N>(net: Net<N>, bs: seq<nat>, b: nat, n: int)
    requires ValidNet(net) && Schedulable(net, bs)
  {
    Drawn(Traded(WattUnit, net, Initial(net), bs, b), Traded(Ampere, net, Initial(net), bs, b), n, net.params.volt)
  }

  lemma LastBooked<N>(net: Net<N>, bs: seq<nat>, b: nat, x: Sold)
    requires ValidNet(net) && Schedulable(net, bs) && b < |net.paths| && bs != [] && bs[|bs| - 1] == b
    requires x == Decision(net, Run(net, Initial(net), bs[..|bs| - 1]), b).sold
    ensures Traded(WattUnit, net, Initial(net), bs, b) ==
      Traded(WattUnit, net, Initial(net), bs[..|bs| - 1], b) + Watt(x)
    ensures Traded(Ampere, net, Initial(net), bs, b) == Traded(Ampere, net, Initial(net), bs[..|bs| - 1], b) + Amp(x)
  {
  }

  lemma TradedGrowsBy<N>(net: Net<N>, bs: seq<nat>, b: nat, n: int)
    requires ValidNet(net) && Schedulable(net, bs) && b < |net.paths| && bs != []
    requires TradedDrawn(net, bs[..|bs| - 1], b, n)
    requires bs[|bs| - 1] == b ==>
      DrawnOn(Decision(net, Run(net, Initial(net), bs[..|bs| - 1]), b).sold, n, net.params.volt)
    ensures TradedDrawn(net, bs, b, n)
  {
    var past, s := bs[..|bs| - 1], Initial(net);
    var x := Decision(net, Run(net, s, past), bs[|bs| - 1]).sold;
    if bs[|bs| - 1] == b {
      LastBooked(net, bs, b, x);
      DrawnTogether(Traded(WattUnit, net, s, past, b), Traded(Ampere, net, s, past, b), x,
                    Traded(WattUnit, net, s, bs, b), Traded(Ampere, net, s, bs, b), n, net.params.volt);
    }
  }

  /** Whatever a broker trades, it has traded that many watts: its amperes times phases times voltage. */
  lemma {:induction false} TradedWatts<N>(net: Net<N>, bs: seq<nat>, b: nat, n: int)
    requires ValidNet(net) && Schedulable(net, bs) && b < |net.paths|
    requires Draws(net, net.paths[b], Import, n)
    requires Draws(net, net.paths[b], Export, n) || ImportOnly(net)
    ensures TradedDrawn(net, bs, b, n)
    decreases |bs|
  {
    if bs == [] {
      NothingDrawn(n, net.params.volt);
    } else {
      TradedWatts(net, bs[..|bs| - 1], b, n);
      RunWatts(net, bs[..|bs| - 1], b, n);
      TradedGrowsBy(net, bs, b, n);
    }
  }

  // ---------- How much is bought ----------

  /** The current a broker wants: the minimum of its offer at first, a slice otherwise. */
  ghost function Wanted(l: Limits, first: bool, p: Params): real {
    if first && l.minA.Some? && l.minA.value > 0.0 then l.minA.value else p.sliceA
  }

  /** A current and the watts it draws are within an offer. */
  ghost predicate InOffer(l: Limits, x: real, n: int, volt: real) {
    && (l.maxA.Some? ==> x <= l.maxA.value)
    && (l.maxW.Some? ==> x * n as real * volt <= l.maxW.value)
  }

  /** The whole of an offer is taken, in amperes or in watts. */
  ghost predicate TakesAll(l: Limits, x: real, n: int, volt: real) {
    (l.maxA.Some? && l.maxA.value == x) || (l.maxW.Some? && l.maxW.value == x * n as real * volt)
  }

  /** A current is bought in full; less only if it is no minimum, and then all there is. */
  ghost predicate GreatestThatFits(l: Limits, first: bool, p: Params, n: int, x: real) {
    && 0.0 < x <= Wanted(l, first, p) && InOffer(l, x, n, p.volt)
    && (x == Wanted(l, first, p) || (!MinimumFirst(l, first) && TakesAll(l, x, n, p.volt)))
  }

  lemma AmperesAreGreatest(l: Limits, ampere: real, allowLess: bool, p: Params)
    requires l.maxA.Some? && WattsPerAmpere(l, p) > 0.0 && ampere > 0.0 && Open(l)
    requires NonNegative(l.maxA) && NonNegative(l.maxW)
    ensures var x, n := AmperesBought(l, ampere, allowLess, p), l.maxPhases.ValueOr(1);
      x.Some? ==> && 0.0 < x.value <= ampere && InOffer(l, x.value, n, p.volt)
                  && (x.value == ampere || (allowLess && TakesAll(l, x.value, n, p.volt)))
  {
    var x, k := AmperesBought(l, ampere, allowLess, p), WattsPerAmpere(l, p);
    AmperesPositive(l, ampere, allowLess, p);
    AmperesFit(l, ampere, allowLess, p);
    if x.Some? {
      Product(x.value, l.maxPhases.ValueOr(1) as real, p.volt);
      assert l.maxW.Some? ==> x.value * k <= l.maxW.value;
      if l.maxA.value >= ampere && (l.maxW.Some? ==> l.maxW.value >= ampere * k) {
        assert x.value == ampere;
      } else if l.maxW.Some? && l.maxW.value < l.maxA.value * k {
        assert x.value == l.maxW.value / k && x.value * k == l.maxW.value;
      } else {
        assert x.value == l.maxA.value;
      }
    }
  }

  lemma SideIsGreatest(l: Limits, first: bool, p: Params, dir: Direction, idle: Sold)
    requires ValidParams(p) && WattsPerAmpere(l, p) > 0.0 && Open(l) && NonNegative(l.maxA) && NonNegative(l.maxW)
    requires l.maxA.Some? && BuySide(l, first, p, dir, idle).bought
    ensures var x := BuySide(l, first, p, dir, idle).sold;
      GreatestThatFits(l, first, p, l.maxPhases.ValueOr(1), Towards(dir, Amp(x)))
  {
    if MinimumFirst(l, first) {
      AmperesAreGreatest(l, l.minA.value, false, p);
    } else {
      AmperesAreGreatest(l, p.sliceA, true, p);
    }
  }

  /** A purchase out of an offer in amperes: the current wanted, or else the greatest that fits. */
  lemma AmperePurchase<N>(net: Net<N>, s: Slot<N>, b: nat, n: int)
    requires ValidNet(net) && Shaped(net, s) && WithinLimits(net, s) && b < |net.paths| && Decision(net, s, b).bought
    requires PhaseCount(net, net.paths[b], Side(net, s, b), n) && Offer(net, s, b, Side(net, s, b)).maxA.Some?
    ensures var dir := Side(net, s, b);
      GreatestThatFits(Offer(net, s, b, dir), s.first[b], net.params, n, Towards(dir, Amp(Decision(net, s, b).sold)))
  {
    var dir := Side(net, s, b);
    assert OnNet(net, net.paths[b]);
    OfferNonNegative(net, s, b, dir);
    DecisionBought(net, s, b);
    PhasesOnPath(net, s.sold, net.paths[b], dir);
    PhasesOffered(net, s.sold, net.paths[b], dir, n);
    SideIsGreatest(Offer(net, s, b, dir), s.first[b], net.params, dir, Idle(Offer(net, s, b, Import)));
  }

  /** A purchase out of an offer in watts alone: a slice of watts or all there is, booked as if it were amperes. */
  lemma WattPurchase<N>(net: Net<N>, s: Slot<N>, b: nat)
    requires ValidNet(net) && Shaped(net, s) && WithinLimits(net, s) && b < |net.paths| && Decision(net, s, b).bought
    requires Offer(net, s, b, Side(net, s, b)).maxA.None?
    ensures var dir := Side(net, s, b);
      var x, left := Towards(dir, Amp(Decision(net, s, b).sold)), Offer(net, s, b, dir).maxW;
      && left.Some? && 0.0 < x <= left.value && x <= net.params.sliceW && (x == left.value || x == net.params.sliceW)
      && Watt(Decision(net, s, b).sold) == 0.0
  {
    var dir := Side(net, s, b);
    DecisionBought(net, s, b);
    PhasesOnPath(net, s.sold, net.paths[b], dir);
    WattsOrAll(Offer(net, s, b, dir), s.first[b], net.params, dir, Idle(Offer(net, s, b, Import)));
  }

  lemma WattsOrAll(l: Limits, first: bool, p: Params, dir: Direction, idle: Sold)
    requires WattsPerAmpere(l, p) > 0.0 && l.maxA.None? && BuySide(l, first, p, dir, idle).bought
    ensures var x := Towards(dir, Amp(BuySide(l, first, p, dir, idle).sold));
      l.maxW.Some? && x <= l.maxW.value && x <= p.sliceW && (x == l.maxW.value || x == p.sliceW)
  {
  }

  lemma ClosedBy<N>(net: Net<N>, s: Slot<N>, b: nat) returns (i: nat, u: Unit)
    requires ValidNet(net) && Shaped(net, s) && b < |net.paths| && !Open(Offer(net, s, b, Import))
    ensures LeavesOn(net, s.sold, net.paths[b], Import, u, i, 0.0)
  {
    assert OnNet(net, net.paths[b]);
    u := if Offer(net, s, b, Import).maxA == Some(0.0) then Ampere else WattUnit;
    i := OfferAttained(net, s.sold, net.paths[b], Import, u);
  }

  lemma Closes<N>(net: Net<N>, s: Slot<N>, b: nat, i: nat, u: Unit)
    requires ValidNet(net) && Shaped(net, s) && WithinLimits(net, s) && b < |net.paths|
    requires LeavesOn(net, s.sold, net.paths[b], Import, u, i, 0.0)
    ensures !Open(Offer(net, s, b, Import))
  {
    assert OnNet(net, net.paths[b]);
    OfferNonNegative(net, s, b, Import);
    OfferBelow(net, s.sold, net.paths[b], Import, i);
  }

  lemma OpenExactly<N>(net: Net<N>, s: Slot<N>, b: nat)
    requires ValidNet(net) && Shaped(net, s) && WithinLimits(net, s) && b < |net.paths|
    ensures Open(Offer(net, s, b, Import)) <==> !exists i, u :: LeavesOn(net, s.sold, net.paths[b], Import, u, i, 0.0)
  {
    if !Open(Offer(net, s, b, Import)) {
      var i, u := ClosedBy(net, s, b);
    }
    if i, u :| LeavesOn(net, s.sold, net.paths[b], Import, u, i, 0.0) {
      Closes(net, s, b, i, u);
    }
  }

  /** A broker imports unless an import limit on its path is used up to the last bit; only then it exports. */
  lemma ImportsFirst<N>(net: Net<N>, s: Slot<N>, b: nat)
    requires ValidNet(net) && Shaped(net, s) && WithinLimits(net, s) && b < |net.paths| && Decision(net, s, b).bought
    ensures var x := Amp(Decision(net, s, b).sold);
      if exists i, u :: LeavesOn(net, s.sold, net.paths[b], Import, u, i, 0.0) then x < 0.0 else x > 0.0
  {
    DecisionBought(net, s, b);
    OpenExactly(net, s, b);
  }

  /** The first trade is over with the first purchase, and not before. */
  lemma {:induction false} FirstUntilBought<N>(net: Net<N>, bs: seq<nat>, b: nat)
    requires ValidNet(net) && Schedulable(net, bs) && b < |net.paths|
    ensures Run(net, Initial(net), bs).first[b] <==> Purchases(net, Initial(net), bs, b) == 0
    decreases |bs|
  {
    if bs != [] {
      FirstUntilBought(net, bs[..|bs| - 1], b);
    }
  }

  // ---------- Which amounts are set ----------

  predicate IsSet(x: Sold, u: Unit) {
    if u.Ampere? then x.amp.Some? else x.watt.Some?
  }

  lemma DecideSets(imp: Limits, exp: Limits, first: bool, p: Params, u: Unit)
    requires WattsPerAmpere(imp, p) > 0.0 && WattsPerAmpere(exp, p) > 0.0
    ensures var t := Decide(imp, exp, first, p);
      && (LimitOf(imp, u).Some? ==> IsSet(t.sold, u))
      && (!t.bought ==> Amount(t.sold, u) == 0.0 && (IsSet(t.sold, u) ==> LimitOf(imp, u).Some?))
  {
  }

  /**
   * A decision sets an amount in every unit in which import is limited on the path. A broker that buys nothing
   * sets zero there and nothing elsewhere.
   */
  lemma DecisionSets<N>(net: Net<N>, s: Slot<N>, b: nat, u: Unit)
    requires ValidNet(net) && Shaped(net, s) && b < |net.paths|
    ensures var t := Decision(net, s, b);
      && (LimitedIn(net, net.paths[b], Import, u) ==> IsSet(t.sold, u))
      && (!t.bought ==> Amount(t.sold, u) == 0.0 && (IsSet(t.sold, u) ==> LimitedIn(net, net.paths[b], Import, u)))
  {
    assert OnNet(net, net.paths[b]);
    PhasesOnPath(net, s.sold, net.paths[b], Import);
    PhasesOnPath(net, s.sold, net.paths[b], Export);
    OfferIsLeast(net, s.sold, net.paths[b], Import, u);
    DecideSets(Offer(net, s, b, Import), Offer(net, s, b, Export), s.first[b], net.params, u);
  }

  lemma AddedIsSet(total: Sold, x: Sold, u: Unit)
    ensures IsSet(AddSold(total, x), u) <==> IsSet(total, u) || IsSet(x, u)
  {
  }

  /** Once it was a broker's turn, every node of its path has an amount in every unit in which its import is limited. */
  lemma {:induction false} RunSets<N>(net: Net<N>, s: Slot<N>, bs: seq<nat>, b: nat, u: Unit, n: N)
    requires ValidNet(net) && Shaped(net, s) && Schedulable(net, bs) && b in bs && b < |net.paths|
    requires LimitedIn(net, net.paths[b], Import, u) && n in net.paths[b] && n in net.imp
    ensures IsSet(Run(net, s, bs).sold[n], u)
    decreases |bs|
  {
    var past, last := bs[..|bs| - 1], bs[|bs| - 1];
    var m := Run(net, s, past);
    AddedIsSet(m.sold[n], Decision(net, m, last).sold, u);
    if last == b {
      DecisionSets(net, m, b, u);
    } else {
      assert bs == past + [last];
      RunSets(net, s, past, b, u, n);
    }
  }

  /** So it is after any number of complete rounds, but none. */
  lemma RoundsSet<N>(net: Net<N>, r: nat, b: nat, u: Unit)
    requires ValidNet(net) && r > 0 && b < |net.paths| && LimitedIn(net, net.paths[b], Import, u)
    ensures IsSet(Rounds(net, Initial(net), r).sold[Own(net, b)], u)
  {
    var before := Rounds(net, Initial(net), r - 1);
    assert Everybody(net)[b] == b;
    RunSets(net, before, Everybody(net), b, u, Own(net, b));
  }
}
