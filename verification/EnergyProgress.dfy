/**
 * Progress and maximality of the trading loop: how often a broker can still buy, when
 * a broker stays quiet, and what a quiet market has left unsold.
 */
module EnergyProgress {
  import opened Wrappers
  import opened EnergySlot
  import opened EnergySafety
  import opened EnergyImport

  // ---------- When a broker trades ----------

  /** The offer of the direction a broker looks at. */
  ghost function ActiveOffer<N>(net: Net<N>, s: Slot<N>, b: nat): Limits
    requires ValidNet(net) && Shaped(net, s) && b < |net.paths|
  {
    if Open(Offer(net, s, b, Import)) then Offer(net, s, b, Import) else Offer(net, s, b, Export)
  }

  /** The wanted amperes, and their watts on all phases, are both on offer. */
  ghost predicate Fits(l: Limits, ampere: real, p: Params) {
    && (l.maxA.Some? ==> ampere <= l.maxA.value)
    && (l.maxW.Some? ==> ampere * l.maxPhases.ValueOr(1) as real * p.volt <= l.maxW.value)
  }

  lemma Product(x: real, n: real, volt: real)
    ensures x * (n * volt) == x * n * volt
  {
  }

  /** Nothing can be bought of an offer: it is used up, sets no limit, or cannot give the minimum of a first trade. */
  ghost predicate Unusable(o: Limits, first: bool, p: Params) {
    || !Open(o)
    || (o.maxA.None? && o.maxW.None?)
    || (o.maxA.Some? && MinimumFirst(o, first) && !Fits(o, o.minA.value, p))
  }

  lemma BuySideQuiet(l: Limits, first: bool, p: Params, dir: Direction, idle: Sold)
    requires ValidParams(p) && WattsPerAmpere(l, p) > 0.0 && NonNegative(l.maxA) && NonNegative(l.maxW) && Open(l)
    ensures !BuySide(l, first, p, dir, idle).bought <==>
      || (l.maxA.None? && l.maxW.None?)
      || (l.maxA.Some? && MinimumFirst(l, first) && !Fits(l, l.minA.value, p))
  {
    if l.maxA.Some? && l.minA.Some? {
      Product(l.minA.value, l.maxPhases.ValueOr(1) as real, p.volt);
    }
  }

  /** Maximality of one turn: a broker stays quiet exactly when nothing usable is on offer. */
  lemma QuietExactly<N>(net: Net<N>, s: Slot<N>, b: nat)
    requires ValidNet(net) && Shaped(net, s) && WithinLimits(net, s) && b < |net.paths|
    ensures !Decision(net, s, b).bought <==> Unusable(ActiveOffer(net, s, b), s.first[b], net.params)
  {
    OfferNonNegative(net, s, b, Import);
    OfferNonNegative(net, s, b, Export);
    PhasesOnPath(net, s.sold, net.paths[b], Import);
    PhasesOnPath(net, s.sold, net.paths[b], Export);
    var imp, exp := Offer(net, s, b, Import), Offer(net, s, b, Export);
    var idle := Idle(imp);
    if Open(imp) {
      BuySideQuiet(imp, s.first[b], net.params, Import, idle);
    } else if Open(exp) {
      BuySideQuiet(exp, s.first[b], net.params, Export, idle);
    }
  }

  lemma ClosedAt<N>(net: Net<N>, s: Slot<N>, b: nat) returns (i: nat)
    requires Importing(net, s) && b < |net.paths| && !Open(ImportOffer(net, s, b))
    ensures i < |net.paths[b]| && SoldOut(net, s, net.paths[b][i])
  {
    assert OnNet(net, net.paths[b]);
    if ImportOffer(net, s, b).maxA == Some(0.0) {
      i := OfferAttainedA(net, s.sold, net.paths[b], Import);
    } else {
      i := OfferAttainedW(net, s.sold, net.paths[b], Import);
    }
  }

  lemma SoldOutCloses<N>(net: Net<N>, s: Slot<N>, b: nat, i: nat)
    requires Importing(net, s) && b < |net.paths| && i < |net.paths[b]| && SoldOut(net, s, net.paths[b][i])
    ensures !Open(ImportOffer(net, s, b))
  {
    assert OnNet(net, net.paths[b]);
    OfferNonNegative(net, s, b, Import);
    OfferBelow(net, s.sold, net.paths[b], Import, i);
  }

  /** In an import-only market an offer is closed exactly when a node of the path is sold out. */
  lemma ClosedExactly<N>(net: Net<N>, s: Slot<N>, b: nat)
    requires Importing(net, s) && b < |net.paths|
    ensures !Open(ImportOffer(net, s, b)) <==> exists i :: 0 <= i < |net.paths[b]| && SoldOut(net, s, net.paths[b][i])
  {
    if !Open(ImportOffer(net, s, b)) {
      var i := ClosedAt(net, s, b);
    }
    if i :| 0 <= i < |net.paths[b]| && SoldOut(net, s, net.paths[b][i]) {
      SoldOutCloses(net, s, b, i);
    }
  }

  /** A node whose import limit, in amperes or in watts, is sold to the last bit. */
  ghost predicate SoldOut<N>(net: Net<N>, s: Slot<N>, n: N) {
    && n in net.imp && n in s.sold
    && (net.imp[n].maxA == Some(Amp(s.sold[n])) || net.imp[n].maxW == Some(Watt(s.sold[n])))
  }

  // ---------- Rounds ----------

  ghost function Everybody<N>(net: Net<N>): (bs: seq<nat>)
    ensures Schedulable(net, bs) && |bs| == |net.paths| && forall i :: 0 <= i < |bs| ==> bs[i] == i
  {
    seq(|net.paths|, i requires i >= 0 => i)
  }

  ghost function Rounds<N>(net: Net<N>, s: Slot<N>, r: nat): (s': Slot<N>)
    requires ValidNet(net) && Shaped(net, s)
    ensures Shaped(net, s')
  {
    if r == 0 then s else Run(net, Rounds(net, s, r - 1), Everybody(net))
  }

  lemma {:induction false} RunConcat<N>(net: Net<N>, s: Slot<N>, xs: seq<nat>, ys: seq<nat>)
    requires ValidNet(net) && Shaped(net, s) && Schedulable(net, xs) && Schedulable(net, ys)
    ensures Schedulable(net, xs + ys) && Run(net, s, xs + ys) == Run(net, Run(net, s, xs), ys)
    decreases |ys|
  {
    if ys == [] {
      assert xs + ys == xs;
    } else {
      var past := ys[..|ys| - 1];
      RunConcat(net, s, xs, past);
      assert (xs + ys)[..|xs + ys| - 1] == xs + past;
    }
  }

  /** The turns of r complete rounds. */
  ghost function TurnsOfRounds<N>(net: Net<N>, r: nat): (bs: seq<nat>)
    ensures Schedulable(net, bs)
  {
    if r == 0 then [] else TurnsOfRounds(net, r - 1) + Everybody(net)
  }

  lemma {:induction false} RoundsAreRuns<N>(net: Net<N>, r: nat)
    requires ValidNet(net)
    ensures Rounds(net, Initial(net), r) == Run(net, Initial(net), TurnsOfRounds(net, r))
  {
    if r > 0 {
      RoundsAreRuns(net, r - 1);
      RunConcat(net, Initial(net), TurnsOfRounds(net, r - 1), Everybody(net));
    }
  }

  /** Nobody buys during the run bs. */
  ghost predicate Quiet<N>(net: Net<N>, s: Slot<N>, bs: seq<nat>)
    requires ValidNet(net) && Shaped(net, s) && Schedulable(net, bs)
    decreases |bs|
  {
    bs == [] ||
    (Quiet(net, s, bs[..|bs| - 1]) && !Decision(net, Run(net, s, bs[..|bs| - 1]), bs[|bs| - 1]).bought)
  }

  ghost predicate SameAmounts<N>(s: Slot<N>, s': Slot<N>) {
    && s.first == s'.first && s.sold.Keys == s'.sold.Keys
    && forall n :: n in s.sold ==> Amp(s.sold[n]) == Amp(s'.sold[n]) && Watt(s.sold[n]) == Watt(s'.sold[n])
  }

  lemma {:induction false} SameOffers<N>(
    net: Net<N>, sold: map<N, Sold>, sold': map<N, Sold>, path: seq<N>, dir: Direction)
    requires forall i :: 0 <= i < |path| ==>
      path[i] in net.imp && path[i] in net.exp && path[i] in sold && path[i] in sold'
    requires forall n :: n in sold && n in sold' ==> Amp(sold[n]) == Amp(sold'[n]) && Watt(sold[n]) == Watt(sold'[n])
    ensures OfferOn(net, sold, path, dir) == OfferOn(net, sold', path, dir)
  {
    if path != [] {
      SameOffers(net, sold, sold', path[..|path| - 1], dir);
    }
  }

  lemma SameDecision<N>(net: Net<N>, s: Slot<N>, s': Slot<N>, b: nat)
    requires ValidNet(net) && Shaped(net, s) && Shaped(net, s') && SameAmounts(s, s') && b < |net.paths|
    ensures Decision(net, s, b) == Decision(net, s', b)
  {
    assert OnNet(net, net.paths[b]);
    SameOffers(net, s.sold, s'.sold, net.paths[b], Import);
    SameOffers(net, s.sold, s'.sold, net.paths[b], Export);
  }

  lemma QuietStep<N>(net: Net<N>, s: Slot<N>, b: nat)
    requires ValidNet(net) && Shaped(net, s) && b < |net.paths| && !Decision(net, s, b).bought
    ensures SameAmounts(s, Step(net, s, b))
  {
    var t := Decision(net, s, b);
    assert Amp(t.sold) == 0.0 && Watt(t.sold) == 0.0;
  }

  lemma {:induction false} QuietRun<N>(net: Net<N>, s: Slot<N>, bs: seq<nat>)
    requires ValidNet(net) && Shaped(net, s) && Schedulable(net, bs) && Quiet(net, s, bs)
    ensures SameAmounts(s, Run(net, s, bs))
    decreases |bs|
  {
    if bs != [] {
      QuietRun(net, s, bs[..|bs| - 1]);
      QuietStep(net, Run(net, s, bs[..|bs| - 1]), bs[|bs| - 1]);
    }
  }

  lemma QuietLast<N>(net: Net<N>, s: Slot<N>, past: seq<nat>, last: nat)
    requires ValidNet(net) && Shaped(net, s) && Schedulable(net, past) && Quiet(net, s, past) && last < |net.paths|
    requires !Decision(net, Run(net, s, past), last).bought
    ensures !Decision(net, s, last).bought
  {
    QuietRun(net, s, past);
    SameDecision(net, s, Run(net, s, past), last);
  }

  lemma {:induction false} QuietBroker<N>(net: Net<N>, s: Slot<N>, bs: seq<nat>, i: nat)
    requires ValidNet(net) && Shaped(net, s) && Schedulable(net, bs) && Quiet(net, s, bs) && i < |bs|
    ensures !Decision(net, s, bs[i]).bought
    decreases |bs|
  {
    var past, last := bs[..|bs| - 1], bs[|bs| - 1];
    if i < |past| {
      QuietBroker(net, s, past, i);
      assert past[i] == bs[i];
    } else {
      assert bs[i] == last;
      QuietLast(net, s, past, last);
    }
  }

  /** Maximality: after a round without a trade, no broker has anything usable on offer. */
  lemma QuietRoundIsFinal<N>(net: Net<N>, s: Slot<N>, b: nat)
    requires ValidNet(net) && Shaped(net, s) && WithinLimits(net, s) && b < |net.paths|
    requires Quiet(net, s, Everybody(net))
    ensures var s' := Run(net, s, Everybody(net)); Unusable(ActiveOffer(net, s', b), s'.first[b], net.params)
  {
    var s' := Run(net, s, Everybody(net));
    QuietRun(net, s, Everybody(net));
    QuietBroker(net, s, Everybody(net), b);
    SameDecision(net, s, s', b);
    QuietExactly(net, s', b);
  }

  // ---------- How often a broker can still buy ----------

  /** Full slices left in the offer, one purchase of leftovers, one of the first-trade minimum. */
  ghost function Budget<N>(net: Net<N>, s: Slot<N>, b: nat): int
    requires ValidNet(net) && Shaped(net, s) && b < |net.paths|
  {
    BudgetOf(ImportOffer(net, s, b), s.first[b], net.params)
  }

  ghost function BudgetOf(o: Limits, first: bool, p: Params): int
    requires ValidParams(p)
  {
    if !Open(o) || o.maxA.None? then 0
    else (o.maxA.value / p.sliceA).Floor + 1 + if first then 1 else 0
  }

  lemma SlicesMonotone(a: real, b: real, slice: real)
    requires a <= b && slice > 0.0
    ensures (a / slice).Floor <= (b / slice).Floor
  {
    assert a / slice <= b / slice;
  }

  lemma DivideBack(y: real, x: real, k: real)
    requires k > 0.0 && y == x * k
    ensures y / k == x
  {
  }

  lemma OneSliceLess(a: real, b: real, slice: real)
    requires a <= b - slice && slice > 0.0
    ensures (a / slice).Floor <= (b / slice).Floor - 1
  {
    assert (b / slice - 1.0) * slice == b - slice;
    DivideBack(b - slice, b / slice - 1.0, slice);
    assert (b / slice - 1.0).Floor == (b / slice).Floor - 1;
    SlicesMonotone(a, b - slice, slice);
  }

  lemma BudgetNonNegative<N>(net: Net<N>, s: Slot<N>, b: nat)
    requires Importing(net, s) && b < |net.paths|
    ensures Budget(net, s, b) >= 0
    ensures Open(ImportOffer(net, s, b)) && ImportOffer(net, s, b).maxA.Some? ==>
              Budget(net, s, b) >= 1 + if s.first[b] then 1 else 0
  {
    ImportDecision(net, s, b);
    var o := ImportOffer(net, s, b);
    if o.maxA.Some? {
      SlicesMonotone(0.0, o.maxA.value, net.params.sliceA);
      assert 0.0 / net.params.sliceA == 0.0;
    }
  }

  /** A smaller offer and a flag that was not set anew give no larger budget. */
  lemma BudgetShrinks(o': Limits, o: Limits, first': bool, first: bool, p: Params)
    requires ValidParams(p) && Shrunk(o', o) && (first' ==> first)
    requires NonNegative(o'.maxA) && NonNegative(o'.maxW) && NonNegative(o.maxA)
    ensures BudgetOf(o', first', p) <= BudgetOf(o, first, p)
  {
    if Open(o') && o'.maxA.Some? {
      SlicesMonotone(o'.maxA.value, o.maxA.value, p.sliceA);
    } else if o.maxA.Some? {
      SlicesMonotone(0.0, o.maxA.value, p.sliceA);
      assert 0.0 / p.sliceA == 0.0;
    }
  }

  lemma FirstIsNotSetAnew<N>(net: Net<N>, s: Slot<N>, b: nat, c: nat)
    requires ValidNet(net) && Shaped(net, s) && b < |net.paths| && c < |net.paths|
    ensures Step(net, s, b).first[c] ==> s.first[c]
  {
  }

  /** Nobody's turn gives anybody a larger budget. */
  lemma BudgetNeverGrows<N>(net: Net<N>, s: Slot<N>, b: nat, c: nat)
    requires Importing(net, s) && b < |net.paths| && c < |net.paths|
    ensures Budget(net, Step(net, s, b), c) <= Budget(net, s, c)
  {
    var s' := Step(net, s, b);
    ImportStep(net, s, b);
    StepShrinksOffers(net, s, b, c);
    OfferNonNegative(net, s, c, Import);
    OfferNonNegative(net, s', c, Import);
    FirstIsNotSetAnew(net, s, b, c);
    BudgetShrinks(ImportOffer(net, s', c), ImportOffer(net, s, c), s'.first[c], s.first[c], net.params);
  }

  lemma LeftoversExhaust(l: Limits, p: Params, idle: Sold)
    requires l.maxA.Some? && WattsPerAmpere(l, p) > 0.0
    ensures var t := BuySide(l, false, p, Import, idle);
      t.bought ==> Amp(t.sold) == p.sliceA || Amp(t.sold) == l.maxA.value
                   || (l.maxW.Some? && Watt(t.sold) == l.maxW.value)
  {
    if l.maxW.Some? {
      assert (l.maxW.value / WattsPerAmpere(l, p)) * WattsPerAmpere(l, p) == l.maxW.value;
    }
  }

  /** What a purchase in an ampere-limited slot was: a full slice, the minimum, or all the rest. */
  lemma KindOfPurchase<N>(net: Net<N>, s: Slot<N>, b: nat)
    requires Importing(net, s) && b < |net.paths|
    requires ImportOffer(net, s, b).maxA.Some? && Decision(net, s, b).bought
    ensures var x := Decision(net, s, b).sold;
      var o' := ImportOffer(net, Step(net, s, b), b);
      Amp(x) == net.params.sliceA || s.first[b] || !Open(o')
  {
    ImportDecision(net, s, b);
    StepDropsOwnOffer(net, s, b);
    var o := ImportOffer(net, s, b);
    LeftoversExhaust(o, net.params, Idle(o));
  }

  /** Every purchase in an ampere-limited slot costs its buyer at least one unit of budget. */
  lemma BudgetSpent<N>(net: Net<N>, s: Slot<N>, b: nat)
    requires Importing(net, s) && b < |net.paths|
    requires ImportOffer(net, s, b).maxA.Some? && Decision(net, s, b).bought
    ensures Budget(net, Step(net, s, b), b) <= Budget(net, s, b) - 1
  {
    ImportStep(net, s, b);
    ImportDecision(net, s, b);
    BudgetNonNegative(net, s, b);
    BudgetNeverGrows(net, s, b, b);
    KindOfPurchase(net, s, b);
    StepDropsOwnOffer(net, s, b);
    var o, o', x := ImportOffer(net, s, b), ImportOffer(net, Step(net, s, b), b), Decision(net, s, b).sold;
    if Open(o') {
      if Amp(x) == net.params.sliceA {
        OneSliceLess(o'.maxA.value, o.maxA.value, net.params.sliceA);
      } else {
        SlicesMonotone(o'.maxA.value, o.maxA.value, net.params.sliceA);
      }
    }
  }

  /** How often broker b buys during the run bs. */
  ghost function Purchases<N>(net: Net<N>, s: Slot<N>, bs: seq<nat>, b: nat): nat
    requires ValidNet(net) && Shaped(net, s) && Schedulable(net, bs)
    decreases |bs|
  {
    if bs == [] then 0
    else
      var past, last := bs[..|bs| - 1], bs[|bs| - 1];
      Purchases(net, s, past, b) + if last == b && Decision(net, Run(net, s, past), b).bought then 1 else 0
  }

  lemma {:induction false} PurchasesWithinBudget<N>(net: Net<N>, s: Slot<N>, bs: seq<nat>, b: nat)
    requires Importing(net, s) && Schedulable(net, bs) && b < |net.paths| && ImportOffer(net, s, b).maxA.Some?
    ensures Purchases(net, s, bs, b) + Budget(net, Run(net, s, bs), b) <= Budget(net, s, b)
    ensures ImportOffer(net, Run(net, s, bs), b).maxA.Some?
    decreases |bs|
  {
    if bs != [] {
      var past, last := bs[..|bs| - 1], bs[|bs| - 1];
      PurchasesWithinBudget(net, s, past, b);
      ImportRun(net, s, past);
      var m := Run(net, s, past);
      BudgetNeverGrows(net, m, last, b);
      StepShrinksOffers(net, m, last, b);
      if last == b && Decision(net, m, b).bought {
        BudgetSpent(net, m, b);
      }
    }
  }

  /** An EVSE buys at most floor(limit / slice) + 2 times in an ampere-limited slot. */
  lemma BoundedPurchases<N>(net: Net<N>, bs: seq<nat>, b: nat)
    requires ValidNet(net) && ImportOnly(net) && Schedulable(net, bs) && b < |net.paths|
    requires ImportOffer(net, Initial(net), b).maxA.Some?
    ensures var limit := ImportOffer(net, Initial(net), b).maxA.value;
      Purchases(net, Initial(net), bs, b) <= (limit / net.params.sliceA).Floor + 2
  {
    ImportInitially(net);
    PurchasesWithinBudget(net, Initial(net), bs, b);
    ImportRun(net, Initial(net), bs);
    BudgetNonNegative(net, Run(net, Initial(net), bs), b);
    ImportDecision(net, Initial(net), b);
    var o := ImportOffer(net, Initial(net), b);
    SlicesMonotone(0.0, o.maxA.value, net.params.sliceA);
    assert 0.0 / net.params.sliceA == 0.0;
  }
}
