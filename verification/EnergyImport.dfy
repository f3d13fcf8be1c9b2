/**
 * The import-only market: every broker has a node on its path whose export is shut. Offers
 * then only shrink, and a purchase takes exactly its amount off the buyer's own offer.
 */
module EnergyImport {
  import opened Wrappers
  import opened EnergySlot
  import opened EnergySafety

  predicate Shut(l: Limits) {
    l.maxA == Some(0.0) || l.maxW == Some(0.0)
  }

  ghost predicate ImportOnly<N>(net: Net<N>)
    requires ValidNet(net)
  {
    forall b :: 0 <= b < |net.paths| ==> HasShut(net, net.paths[b])
  }

  ghost predicate HasShut<N>(net: Net<N>, path: seq<N>) {
    exists i :: 0 <= i < |path| && path[i] in net.exp && Shut(net.exp[path[i]])
  }

  ghost predicate AllImported<N>(sold: map<N, Sold>) {
    forall n :: n in sold ==> Amp(sold[n]) >= 0.0 && Watt(sold[n]) >= 0.0
  }

  /** Reachable shape of an import-only slot. */
  ghost predicate Importing<N>(net: Net<N>, s: Slot<N>) {
    ValidNet(net) && Shaped(net, s) && ImportOnly(net) && WithinLimits(net, s) && AllImported(s.sold)
  }

  lemma ShutStaysShut(l: Limits, sold: Sold)
    requires Shut(l) && Amp(sold) >= 0.0 && Watt(sold) >= 0.0
    ensures Shut(Available(l, sold, Export))
  {
  }

  /** An offer along a node that has nothing left is closed. */
  lemma ShutCloses<N>(net: Net<N>, s: Slot<N>, b: nat, i: nat)
    requires Importing(net, s) && b < |net.paths| && i < |net.paths[b]|
    requires net.paths[b][i] in net.imp && net.paths[b][i] in net.exp
    requires Shut(LeftAt(net, s.sold, net.paths[b][i], Export))
    ensures !Open(Offer(net, s, b, Export))
  {
    assert OnNet(net, net.paths[b]);
    OfferBelow(net, s.sold, net.paths[b], Export, i);
    OfferNonNegative(net, s, b, Export);
  }

  /** Nobody can export. */
  lemma ExportClosed<N>(net: Net<N>, s: Slot<N>, b: nat)
    requires Importing(net, s) && b < |net.paths|
    ensures !Open(Offer(net, s, b, Export))
  {
    assert OnNet(net, net.paths[b]) && HasShut(net, net.paths[b]);
    var path := net.paths[b];
    var i :| 0 <= i < |path| && path[i] in net.exp && Shut(net.exp[path[i]]);
    ShutStaysShut(net.exp[path[i]], s.sold[path[i]]);
    ShutCloses(net, s, b, i);
  }

  ghost function ImportOffer<N>(net: Net<N>, s: Slot<N>, b: nat): Limits
    requires ValidNet(net) && Shaped(net, s) && b < |net.paths|
  {
    Offer(net, s, b, Import)
  }

  /** The decision on an import offer when exporting is out of the question. */
  function ImportTrade(o: Limits, first: bool, p: Params): Trade
    requires WattsPerAmpere(o, p) > 0.0
  {
    if Open(o) then BuySide(o, first, p, Import, Idle(o)) else Trade(Idle(o), false)
  }

  /** What a broker of an import-only market decides, and that its offer covers it. */
  lemma ImportDecision<N>(net: Net<N>, s: Slot<N>, b: nat)
    requires Importing(net, s) && b < |net.paths|
    ensures NonNegative(ImportOffer(net, s, b).maxA) && NonNegative(ImportOffer(net, s, b).maxW)
    ensures WattsPerAmpere(ImportOffer(net, s, b), net.params) > 0.0
    ensures Covers(ImportOffer(net, s, b), Import, Decision(net, s, b).sold)
    ensures Decision(net, s, b) == ImportTrade(ImportOffer(net, s, b), s.first[b], net.params)
  {
    var o := ImportOffer(net, s, b);
    OfferNonNegative(net, s, b, Import);
    PhasesOnPath(net, s.sold, net.paths[b], Import);
    PhasesOnPath(net, s.sold, net.paths[b], Export);
    ExportClosed(net, s, b);
    BuySideCovered(o, s.first[b], net.params, Import, Idle(o));
  }

  lemma ImportStep<N>(net: Net<N>, s: Slot<N>, b: nat)
    requires Importing(net, s) && b < |net.paths|
    ensures Importing(net, Step(net, s, b))
  {
    ImportDecision(net, s, b);
    StepWithinLimits(net, s, b);
  }

  lemma {:induction false} ImportRun<N>(net: Net<N>, s: Slot<N>, bs: seq<nat>)
    requires Importing(net, s) && Schedulable(net, bs)
    ensures Importing(net, Run(net, s, bs))
    decreases |bs|
  {
    if bs != [] {
      ImportRun(net, s, bs[..|bs| - 1]);
      ImportStep(net, Run(net, s, bs[..|bs| - 1]), bs[|bs| - 1]);
    }
  }

  lemma ImportInitially<N>(net: Net<N>)
    requires ValidNet(net) && ImportOnly(net)
    ensures Importing(net, Initial(net))
  {
  }

  // ---------- Offers shrink ----------

  ghost predicate LessLeft(a: Option<real>, b: Option<real>) {
    a.Some? == b.Some? && (a.Some? ==> a.value <= b.value)
  }

  /** Offer a is offer b with no limit raised, set or unset. */
  ghost predicate Shrunk(a: Limits, b: Limits) {
    LessLeft(a.maxA, b.maxA) && LessLeft(a.maxW, b.maxW) && a.minA == b.minA && a.maxPhases == b.maxPhases
  }

  ghost predicate SoldMore<N>(sold: map<N, Sold>, sold': map<N, Sold>) {
    && sold.Keys == sold'.Keys
    && forall n :: n in sold ==> Amp(sold[n]) <= Amp(sold'[n]) && Watt(sold[n]) <= Watt(sold'[n])
  }

  lemma {:induction false} OfferShrinks<N>(net: Net<N>, sold: map<N, Sold>, sold': map<N, Sold>, path: seq<N>)
    requires SoldMore(sold, sold')
    requires forall i :: 0 <= i < |path| ==> path[i] in net.imp && path[i] in net.exp && path[i] in sold
    ensures Shrunk(OfferOn(net, sold', path, Import), OfferOn(net, sold, path, Import))
  {
    if path != [] {
      OfferShrinks(net, sold, sold', path[..|path| - 1]);
    }
  }

  function Less(a: Option<real>, x: real): Option<real> {
    if a.Some? then Some(a.value - x) else None
  }

  function Lower(l: Limits, x: Sold): Limits {
    l.(maxA := Less(l.maxA, Amp(x)), maxW := Less(l.maxW, Watt(x)))
  }

  lemma LeftDrops(l: Limits, sold: Sold, x: Sold)
    requires Amp(sold) >= 0.0 && Watt(sold) >= 0.0 && Amp(x) >= 0.0 && Watt(x) >= 0.0
    ensures Available(l, AddSold(sold, x), Import) == Lower(Available(l, sold, Import), x)
  {
  }

  lemma NarrowDrops(a: Limits, b: Limits, x: Sold)
    ensures Narrow(Lower(a, x), Lower(b, x)) == Lower(Narrow(a, b), x)
  {
  }

  /** A purchase takes exactly its amount off every offer along nodes it is booked on. */
  lemma {:induction false} OfferDrops<N>(net: Net<N>, sold: map<N, Sold>, path: seq<N>, booked: seq<N>, x: Sold)
    requires forall i :: 0 <= i < |path| ==> path[i] in net.imp && path[i] in net.exp && path[i] in sold
    requires forall i :: 0 <= i < |path| ==> path[i] in booked
    requires AllImported(sold) && Amp(x) >= 0.0 && Watt(x) >= 0.0
    ensures var o, o' := OfferOn(net, sold, path, Import), OfferOn(net, Book(sold, booked, x), path, Import);
      o' == Lower(o, x)
  {
    if path != [] {
      OfferDrops(net, sold, path[..|path| - 1], booked, x);
      var n := path[|path| - 1];
      LeftDrops(net.imp[n], sold[n], x);
      NarrowDrops(OfferOn(net, sold, path[..|path| - 1], Import), LeftAt(net, sold, n, Import), x);
    }
  }

  lemma StepSellsMore<N>(net: Net<N>, s: Slot<N>, b: nat)
    requires Importing(net, s) && b < |net.paths|
    ensures SoldMore(s.sold, Step(net, s, b).sold)
  {
    ImportDecision(net, s, b);
  }

  lemma {:induction false} RunSellsMore<N>(net: Net<N>, s: Slot<N>, bs: seq<nat>)
    requires Importing(net, s) && Schedulable(net, bs)
    ensures SoldMore(s.sold, Run(net, s, bs).sold)
    decreases |bs|
  {
    if bs != [] {
      RunSellsMore(net, s, bs[..|bs| - 1]);
      ImportRun(net, s, bs[..|bs| - 1]);
      StepSellsMore(net, Run(net, s, bs[..|bs| - 1]), bs[|bs| - 1]);
    }
  }

  /** After broker b's turn, no offer to anybody has grown. */
  lemma StepShrinksOffers<N>(net: Net<N>, s: Slot<N>, b: nat, c: nat)
    requires Importing(net, s) && b < |net.paths| && c < |net.paths|
    ensures Shrunk(ImportOffer(net, Step(net, s, b), c), ImportOffer(net, s, c))
  {
    assert OnNet(net, net.paths[c]);
    StepSellsMore(net, s, b);
    OfferShrinks(net, s.sold, Step(net, s, b).sold, net.paths[c]);
  }

  /** After its own turn, a broker's offer is lower by exactly what it bought. */
  lemma StepDropsOwnOffer<N>(net: Net<N>, s: Slot<N>, b: nat)
    requires Importing(net, s) && b < |net.paths|
    ensures var o, o', x := ImportOffer(net, s, b), ImportOffer(net, Step(net, s, b), b), Decision(net, s, b).sold;
      o' == Lower(o, x)
  {
    assert OnNet(net, net.paths[b]);
    ImportDecision(net, s, b);
    OfferDrops(net, s.sold, net.paths[b], net.paths[b], Decision(net, s, b).sold);
  }
}
