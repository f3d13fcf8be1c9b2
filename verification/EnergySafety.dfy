/**
 * No over-allocation: whatever the brokers do, in whatever order, what is sold at a node
 * stays between minus its export limit and its import limit, in amperes and in watts.
 */
module EnergySafety {
  import opened Wrappers
  import opened EnergySlot

  ghost predicate Within(imp: Option<real>, exp: Option<real>, x: real) {
    (imp.Some? ==> x <= imp.value) && (exp.Some? ==> -exp.value <= x)
  }

  ghost predicate WithinLimits<N>(net: Net<N>, s: Slot<N>)
    requires ValidNet(net) && Shaped(net, s)
  {
    forall n :: n in net.imp ==>
      && Within(net.imp[n].maxA, net.exp[n].maxA, Amp(s.sold[n]))
      && Within(net.imp[n].maxW, net.exp[n].maxW, Watt(s.sold[n]))
  }

  /** What node n has left in a direction. */
  ghost function LeftAt<N>(net: Net<N>, sold: map<N, Sold>, n: N, dir: Direction): Limits
    requires n in net.imp && n in net.exp && n in sold
  {
    Available(if dir.Import? then net.imp[n] else net.exp[n], sold[n], dir)
  }

  ghost predicate AtMost(a: Option<real>, b: Option<real>) {
    b.Some? ==> a.Some? && a.value <= b.value
  }

  /** An offer never exceeds what any node of the path has left. */
  lemma {:induction false} OfferBelow<N>(net: Net<N>, sold: map<N, Sold>, path: seq<N>, dir: Direction, i: nat)
    requires forall j :: 0 <= j < |path| ==> path[j] in net.imp && path[j] in net.exp && path[j] in sold
    requires i < |path|
    ensures AtMost(OfferOn(net, sold, path, dir).maxA, LeftAt(net, sold, path[i], dir).maxA)
    ensures AtMost(OfferOn(net, sold, path, dir).maxW, LeftAt(net, sold, path[i], dir).maxW)
  {
    if i < |path| - 1 {
      OfferBelow(net, sold, path[..|path| - 1], dir, i);
    }
  }

  /** Every limit of an offer is what some node of the path has left, exactly. */
  lemma {:induction false} OfferAttainedA<N>(net: Net<N>, sold: map<N, Sold>, path: seq<N>, dir: Direction)
    returns (i: nat)
    requires forall j :: 0 <= j < |path| ==> path[j] in net.imp && path[j] in net.exp && path[j] in sold
    requires OfferOn(net, sold, path, dir).maxA.Some?
    ensures i < |path| && OfferOn(net, sold, path, dir).maxA == LeftAt(net, sold, path[i], dir).maxA
  {
    i := |path| - 1;
    if OfferOn(net, sold, path, dir).maxA != LeftAt(net, sold, path[i], dir).maxA {
      i := OfferAttainedA(net, sold, path[..|path| - 1], dir);
    }
  }

  lemma {:induction false} OfferAttainedW<N>(net: Net<N>, sold: map<N, Sold>, path: seq<N>, dir: Direction)
    returns (i: nat)
    requires forall j :: 0 <= j < |path| ==> path[j] in net.imp && path[j] in net.exp && path[j] in sold
    requires OfferOn(net, sold, path, dir).maxW.Some?
    ensures i < |path| && OfferOn(net, sold, path, dir).maxW == LeftAt(net, sold, path[i], dir).maxW
  {
    i := |path| - 1;
    if OfferOn(net, sold, path, dir).maxW != LeftAt(net, sold, path[i], dir).maxW {
      i := OfferAttainedW(net, sold, path[..|path| - 1], dir);
    }
  }

  /** Within limits, an offer is never negative. */
  lemma OfferNonNegativeOn<N>(net: Net<N>, s: Slot<N>, path: seq<N>, dir: Direction)
    requires ValidNet(net) && Shaped(net, s) && WithinLimits(net, s)
    requires forall j :: 0 <= j < |path| ==> path[j] in net.imp
    ensures NonNegative(OfferOn(net, s.sold, path, dir).maxA) && NonNegative(OfferOn(net, s.sold, path, dir).maxW)
  {
    var o := OfferOn(net, s.sold, path, dir);
    if o.maxA.Some? {
      var i := OfferAttainedA(net, s.sold, path, dir);
    }
    if o.maxW.Some? {
      var i := OfferAttainedW(net, s.sold, path, dir);
    }
  }

  lemma OfferNonNegative<N>(net: Net<N>, s: Slot<N>, b: nat, dir: Direction)
    requires ValidNet(net) && Shaped(net, s) && WithinLimits(net, s) && b < |net.paths|
    ensures NonNegative(Offer(net, s, b, dir).maxA) && NonNegative(Offer(net, s, b, dir).maxW)
  {
    assert OnNet(net, net.paths[b]);
    OfferNonNegativeOn(net, s, net.paths[b], dir);
  }

  /** A purchase x, in a direction, that an offer covers. */
  ghost predicate Covers(l: Limits, dir: Direction, x: Sold) {
    && Towards(dir, Amp(x)) >= 0.0 && Towards(dir, Watt(x)) >= 0.0
    && (l.maxA.Some? ==> Towards(dir, Amp(x)) <= l.maxA.value)
    && (l.maxW.Some? ==> Towards(dir, Watt(x)) <= l.maxW.value)
  }

  lemma MulMonotone(x: real, y: real, k: real)
    requires x <= y && k >= 0.0
    ensures x * k <= y * k
  {
  }

  /** Amperes bought never exceed the ampere limit, nor their watts the watt limit. */
  lemma AmperesFit(l: Limits, ampere: real, allowLess: bool, p: Params)
    requires l.maxA.Some? && WattsPerAmpere(l, p) > 0.0 && ampere > 0.0
    requires NonNegative(l.maxA) && NonNegative(l.maxW)
    ensures var x := AmperesBought(l, ampere, allowLess, p);
      x.Some? ==> 0.0 <= x.value <= l.maxA.value && x.value <= ampere
                  && (l.maxW.Some? ==> 0.0 <= x.value * WattsPerAmpere(l, p) <= l.maxW.value)
  {
    var k := WattsPerAmpere(l, p);
    var x := AmperesBought(l, ampere, allowLess, p);
    if x.Some? && l.maxW.Some? {
      if l.maxW.value < ampere * k && l.maxW.value < l.maxA.value * k {
        assert x.value * k == l.maxW.value;
      }
      MulMonotone(0.0, x.value, k);
    }
  }

  lemma BuySideCovered(l: Limits, first: bool, p: Params, dir: Direction, idle: Sold)
    requires ValidParams(p) && WattsPerAmpere(l, p) > 0.0
    requires NonNegative(l.maxA) && NonNegative(l.maxW)
    requires Amp(idle) == 0.0 && Watt(idle) == 0.0
    ensures Covers(l, dir, BuySide(l, first, p, dir, idle).sold)
  {
    if l.maxA.Some? {
      var x := if MinimumFirst(l, first) then AmperesBought(l, l.minA.value, false, p)
               else AmperesBought(l, p.sliceA, true, p);
      if MinimumFirst(l, first) {
        AmperesFit(l, l.minA.value, false, p);
      } else {
        AmperesFit(l, p.sliceA, true, p);
      }
      var t := BuySide(l, first, p, dir, idle);
      assert x.None? ==> t.sold == idle;
      assert x.Some? ==> Amp(t.sold) == Towards(dir, x.value);
    }
  }

  /** Booking a covered purchase keeps a node within its limits. */
  lemma NodeStaysWithin(imp: Limits, exp: Limits, sold: Sold, dir: Direction, offer: Limits, x: Sold)
    requires Within(imp.maxA, exp.maxA, Amp(sold)) && Within(imp.maxW, exp.maxW, Watt(sold))
    requires var left := Available(if dir.Import? then imp else exp, sold, dir);
      AtMost(offer.maxA, left.maxA) && AtMost(offer.maxW, left.maxW)
    requires Covers(offer, dir, x)
    ensures Within(imp.maxA, exp.maxA, Amp(AddSold(sold, x)))
    ensures Within(imp.maxW, exp.maxW, Watt(AddSold(sold, x)))
  {
  }

  lemma StepWithinLimits<N>(net: Net<N>, s: Slot<N>, b: nat)
    requires ValidNet(net) && Shaped(net, s) && b < |net.paths|
    requires WithinLimits(net, s)
    ensures WithinLimits(net, Step(net, s, b))
  {
    var imp, exp := Offer(net, s, b, Import), Offer(net, s, b, Export);
    OfferNonNegative(net, s, b, Import);
    OfferNonNegative(net, s, b, Export);
    PhasesOnPath(net, s.sold, net.paths[b], Import);
    PhasesOnPath(net, s.sold, net.paths[b], Export);
    var t := Decision(net, s, b);
    var idle := Idle(imp);
    BuySideCovered(imp, s.first[b], net.params, Import, idle);
    BuySideCovered(exp, s.first[b], net.params, Export, idle);
    var dir := if Open(imp) then Import else Export;
    assert Covers(if dir.Import? then imp else exp, dir, t.sold);
    forall n | n in net.imp
      ensures Within(net.imp[n].maxA, net.exp[n].maxA, Amp(Step(net, s, b).sold[n]))
      ensures Within(net.imp[n].maxW, net.exp[n].maxW, Watt(Step(net, s, b).sold[n]))
    {
      if n in net.paths[b] {
        var i :| 0 <= i < |net.paths[b]| && net.paths[b][i] == n;
        OfferBelow(net, s.sold, net.paths[b], dir, i);
        NodeStaysWithin(net.imp[n], net.exp[n], s.sold[n], dir, if dir.Import? then imp else exp, t.sold);
      }
    }
  }

  /** No over-allocation, after any sequence of turns by any brokers. */
  lemma {:induction false} NoOverAllocation<N>(net: Net<N>, bs: seq<nat>)
    requires ValidNet(net) && Schedulable(net, bs)
    ensures WithinLimits(net, Run(net, Initial(net), bs))
    decreases |bs|
  {
    if bs != [] {
      NoOverAllocation(net, bs[..|bs| - 1]);
      StepWithinLimits(net, Run(net, Initial(net), bs[..|bs| - 1]), bs[|bs| - 1]);
    }
  }
}
