/**
 * Markets in which energy may flow both ways. Once import is used up a broker exports, which makes room for
 * import: where nothing forbids either, whoever has bought can buy again, and the rounds never end by themselves.
 * Where one direction is shut everywhere, they do.
 */
module EnergyAlternation {
  import opened Wrappers
  import opened EnergySlot
  import opened EnergySafety
  import opened EnergyImport
  import opened EnergyProgress
  import opened EnergyTermination

  function Opposite(dir: Direction): Direction {
    if dir.Import? then Export else Import
  }

  ghost function LimitsIn<N>(net: Net<N>, n: N, dir: Direction): Limits
    requires n in net.imp && n in net.exp
  {
    if dir.Import? then net.imp[n] else net.exp[n]
  }

  /** What broker b is offered before anything is sold. */
  ghost function FirstOffer<N>(net: Net<N>, b: nat, dir: Direction): Limits
    requires ValidNet(net) && b < |net.paths|
  {
    Offer(net, Initial(net), b, dir)
  }

  // ---------- Brokers that may trade both ways ----------

  predicate NoZero(l: Limits) {
    (l.maxA.Some? ==> l.maxA.value > 0.0) && (l.maxW.Some? ==> l.maxW.value > 0.0)
  }

  ghost predicate NowhereZero<N>(net: Net<N>, path: seq<N>) {
    forall i :: 0 <= i < |path| ==>
      path[i] in net.imp && path[i] in net.exp && NoZero(net.imp[path[i]]) && NoZero(net.exp[path[i]])
  }

  /** Amperes that are bought on one side are booked in every unit in which the other side is limited, if at all. */
  predicate Answers(side: Limits, other: Limits) {
    side.maxA.Some? ==>
      (other.maxA.Some? || other.maxW.Some?) && (other.maxW.Some? ==> side.maxW.Some?)
  }

  /** No limit on broker b's path is zero, and both sides are limited in units that answer each other. */
  ghost predicate TwoWay<N>(net: Net<N>, b: nat)
    requires ValidNet(net) && b < |net.paths|
  {
    && NowhereZero(net, net.paths[b])
    && forall dir :: Answers(FirstOffer(net, b, dir), FirstOffer(net, b, Opposite(dir)))
  }

  ghost predicate AllTwoWay<N>(net: Net<N>)
    requires ValidNet(net)
  {
    forall b :: 0 <= b < |net.paths| ==> TwoWay(net, b)
  }

  /** Whether a limit is set at all does not change. */
  lemma {:induction false} SetAlike<N>(
    net: Net<N>, sold: map<N, Sold>, sold': map<N, Sold>, path: seq<N>, dir: Direction)
    requires forall i :: 0 <= i < |path| ==>
      path[i] in net.imp && path[i] in net.exp && path[i] in sold && path[i] in sold'
    ensures var o, o' := OfferOn(net, sold, path, dir), OfferOn(net, sold', path, dir);
      (o.maxA.Some? <==> o'.maxA.Some?) && (o.maxW.Some? <==> o'.maxW.Some?)
  {
    if path != [] {
      SetAlike(net, sold, sold', path[..|path| - 1], dir);
    }
  }

  /** Without a limit on the offer there is none on the path. */
  lemma {:induction false} SetOnPath<N>(net: Net<N>, sold: map<N, Sold>, path: seq<N>, dir: Direction, i: nat)
    requires forall j :: 0 <= j < |path| ==> path[j] in net.imp && path[j] in net.exp && path[j] in sold
    requires i < |path|
    ensures LimitsIn(net, path[i], dir).maxW.Some? ==> OfferOn(net, sold, path, dir).maxW.Some?
  {
    if i < |path| - 1 {
      SetOnPath(net, sold, path[..|path| - 1], dir, i);
    }
  }

  // ---------- Whoever has bought can buy again ----------

  /** The direction in which a broker buys. */
  ghost function Side<N>(net: Net<N>, s: Slot<N>, b: nat): Direction
    requires ValidNet(net) && Shaped(net, s) && b < |net.paths|
  {
    if Open(Offer(net, s, b, Import)) then Import else Export
  }

  /** A purchase is positive in amperes, and in watts exactly if both units are limited. */
  ghost predicate BoughtOn(l: Limits, dir: Direction, x: Sold) {
    && Open(l) && (l.maxA.Some? || l.maxW.Some?) && Towards(dir, Amp(x)) > 0.0
    && if l.maxA.Some? && l.maxW.Some? then Towards(dir, Watt(x)) > 0.0 else Watt(x) == 0.0
  }

  lemma AmperesPositive(l: Limits, ampere: real, allowLess: bool, p: Params)
    requires l.maxA.Some? && WattsPerAmpere(l, p) > 0.0 && ampere > 0.0 && Open(l)
    requires NonNegative(l.maxA) && NonNegative(l.maxW)
    ensures var x := AmperesBought(l, ampere, allowLess, p);
      x.Some? ==> x.value > 0.0 && InWatts(x.value, WattsPerAmpere(l, p)) > 0.0
  {
    var k := WattsPerAmpere(l, p);
    var x := AmperesBought(l, ampere, allowLess, p);
    if x.Some? {
      if l.maxW.Some? && x.value == InAmperes(l.maxW.value, k) {
        assert x.value * k == l.maxW.value;
      }
      assert x.value > 0.0;
    }
  }

  lemma SideBought(l: Limits, first: bool, p: Params, dir: Direction, idle: Sold)
    requires ValidParams(p) && WattsPerAmpere(l, p) > 0.0 && Open(l) && NonNegative(l.maxA) && NonNegative(l.maxW)
    requires Amp(idle) == 0.0 && Watt(idle) == 0.0 && BuySide(l, first, p, dir, idle).bought
    ensures BoughtOn(l, dir, BuySide(l, first, p, dir, idle).sold)
  {
    if l.maxA.Some? {
      if MinimumFirst(l, first) {
        AmperesPositive(l, l.minA.value, false, p);
      } else {
        AmperesPositive(l, p.sliceA, true, p);
      }
    }
  }

  lemma DecisionBought<N>(net: Net<N>, s: Slot<N>, b: nat)
    requires ValidNet(net) && Shaped(net, s) && WithinLimits(net, s) && b < |net.paths| && Decision(net, s, b).bought
    ensures BoughtOn(Offer(net, s, b, Side(net, s, b)), Side(net, s, b), Decision(net, s, b).sold)
    ensures Side(net, s, b).Export? ==> !Open(Offer(net, s, b, Import))
  {
    var imp, exp := Offer(net, s, b, Import), Offer(net, s, b, Export);
    OfferNonNegative(net, s, b, Import);
    OfferNonNegative(net, s, b, Export);
    PhasesOnPath(net, s.sold, net.paths[b], Import);
    PhasesOnPath(net, s.sold, net.paths[b], Export);
    if Open(imp) {
      SideBought(imp, s.first[b], net.params, Import, Idle(imp));
    } else {
      SideBought(exp, s.first[b], net.params, Export, Idle(imp));
    }
  }

  /** What is booked against a direction leaves room in it. */
  lemma RoomMade(limit: Option<real>, sold: real, x: real)
    requires limit.Some? ==> limit.value > 0.0 && sold <= limit.value
    requires x > 0.0
    ensures Left(limit, sold - x) != Some(0.0)
  {
  }

  lemma NodeHasRoom(imp: Limits, exp: Limits, sold: Sold, dir: Direction, x: Sold)
    requires Within(imp.maxA, exp.maxA, Amp(sold)) && Within(imp.maxW, exp.maxW, Watt(sold))
    requires NoZero(imp) && NoZero(exp) && Towards(dir, Amp(x)) > 0.0
    requires (if dir.Import? then exp else imp).maxW.Some? ==> Towards(dir, Watt(x)) > 0.0
    ensures var left := Available(if dir.Import? then exp else imp, AddSold(sold, x), Opposite(dir));
      left.maxA != Some(0.0) && left.maxW != Some(0.0)
  {
    var l := if dir.Import? then exp else imp;
    RoomMade(l.maxA, Towards(Opposite(dir), Amp(sold)), Towards(dir, Amp(x)));
    if l.maxW.Some? {
      RoomMade(l.maxW, Towards(Opposite(dir), Watt(sold)), Towards(dir, Watt(x)));
    }
  }

  lemma NodeBooked<N>(net: Net<N>, s: Slot<N>, b: nat, i: nat)
    requires ValidNet(net) && Shaped(net, s) && b < |net.paths| && i < |net.paths[b]|
    ensures net.paths[b][i] in s.sold
    ensures Step(net, s, b).sold[net.paths[b][i]] == AddSold(s.sold[net.paths[b][i]], Decision(net, s, b).sold)
  {
    assert OnNet(net, net.paths[b]);
  }

  /** After a purchase of amperes, no node of the path has used up the other direction. */
  lemma PathHasRoom<N>(net: Net<N>, s: Slot<N>, b: nat, i: nat)
    requires ValidNet(net) && Shaped(net, s) && WithinLimits(net, s) && b < |net.paths| && TwoWay(net, b)
    requires Decision(net, s, b).bought && Offer(net, s, b, Side(net, s, b)).maxA.Some? && i < |net.paths[b]|
    requires net.paths[b][i] in net.imp && net.paths[b][i] in net.exp
    ensures var s' := Step(net, s, b);
      var left := LeftAt(net, s'.sold, net.paths[b][i], Opposite(Side(net, s, b)));
      left.maxA != Some(0.0) && left.maxW != Some(0.0)
  {
    var path, dir := net.paths[b], Side(net, s, b);
    var n := path[i];
    DecisionBought(net, s, b);
    NodeBooked(net, s, b, i);
    assert OnNet(net, path) && NowhereZero(net, path);
    assert Answers(FirstOffer(net, b, dir), FirstOffer(net, b, Opposite(dir)));
    SetAlike(net, Initial(net).sold, s.sold, path, dir);
    SetOnPath(net, Initial(net).sold, path, Opposite(dir), i);
    NodeHasRoom(net.imp[n], net.exp[n], s.sold[n], dir, Decision(net, s, b).sold);
  }

  lemma OtherSideOpen<N>(net: Net<N>, s: Slot<N>, b: nat)
    requires ValidNet(net) && Shaped(net, s) && WithinLimits(net, s) && b < |net.paths| && TwoWay(net, b)
    requires Decision(net, s, b).bought && Offer(net, s, b, Side(net, s, b)).maxA.Some?
    ensures var o := Offer(net, Step(net, s, b), b, Opposite(Side(net, s, b)));
      Open(o) && (o.maxA.Some? || o.maxW.Some?)
  {
    var path, other, s' := net.paths[b], Opposite(Side(net, s, b)), Step(net, s, b);
    assert OnNet(net, path);
    assert Answers(FirstOffer(net, b, Side(net, s, b)), FirstOffer(net, b, other));
    SetAlike(net, Initial(net).sold, s.sold, path, Side(net, s, b));
    SetAlike(net, Initial(net).sold, s'.sold, path, other);
    var o := Offer(net, s', b, other);
    if o.maxA == Some(0.0) {
      var i := OfferAttainedA(net, s'.sold, path, other);
      PathHasRoom(net, s, b, i);
    }
    if o.maxW == Some(0.0) {
      var i := OfferAttainedW(net, s'.sold, path, other);
      PathHasRoom(net, s, b, i);
    }
  }

  /** Under watt limits alone nothing is booked in watts, so the side stays open. */
  lemma SameSideOpen<N>(net: Net<N>, s: Slot<N>, b: nat)
    requires ValidNet(net) && Shaped(net, s) && WithinLimits(net, s) && b < |net.paths|
    requires Decision(net, s, b).bought && Offer(net, s, b, Side(net, s, b)).maxA.None?
    ensures var o := Offer(net, Step(net, s, b), b, Side(net, s, b)); Open(o) && o.maxW.Some?
  {
    var path, dir, s' := net.paths[b], Side(net, s, b), Step(net, s, b);
    assert OnNet(net, path);
    DecisionBought(net, s, b);
    SetAlike(net, s.sold, s'.sold, path, dir);
    forall i | 0 <= i < |path|
      ensures Watt(s.sold[path[i]]) == Watt(s'.sold[path[i]])
    {
      NodeBooked(net, s, b, i);
    }
    SameWattOffer(net, s.sold, s'.sold, path, dir);
  }

  /** A broker whose first trade is over buys if import is limited and open, or closed and export limited and open. */
  lemma BuysIfOpen<N>(net: Net<N>, s: Slot<N>, b: nat)
    requires ValidNet(net) && Shaped(net, s) && WithinLimits(net, s) && b < |net.paths| && !s.first[b]
    requires var imp, exp := Offer(net, s, b, Import), Offer(net, s, b, Export);
      (imp.maxA.Some? || imp.maxW.Some?) && (Open(imp) || (Open(exp) && (exp.maxA.Some? || exp.maxW.Some?)))
    ensures Decision(net, s, b).bought
  {
    QuietExactly(net, s, b);
  }

  /** Whoever has bought can buy again, at once. */
  lemma CanBuyAgain<N>(net: Net<N>, s: Slot<N>, b: nat)
    requires ValidNet(net) && Shaped(net, s) && WithinLimits(net, s) && b < |net.paths| && TwoWay(net, b)
    requires Decision(net, s, b).bought
    ensures Decision(net, Step(net, s, b), b).bought
  {
    var s' := Step(net, s, b);
    StepWithinLimits(net, s, b);
    DecisionBought(net, s, b);
    assert OnNet(net, net.paths[b]);
    SetAlike(net, s.sold, s'.sold, net.paths[b], Import);
    if Offer(net, s, b, Side(net, s, b)).maxA.Some? {
      OtherSideOpen(net, s, b);
    } else {
      SameSideOpen(net, s, b);
    }
    BuysIfOpen(net, s', b);
  }

  // ---------- Somebody always buys, or nobody ever ----------

  /** Somebody would buy if it were asked now. */
  ghost predicate Ready<N>(net: Net<N>, s: Slot<N>)
    requires ValidNet(net) && Shaped(net, s)
  {
    exists b :: 0 <= b < |net.paths| && Decision(net, s, b).bought
  }

  lemma ReadyStep<N>(net: Net<N>, s: Slot<N>, c: nat)
    requires ValidNet(net) && Shaped(net, s) && WithinLimits(net, s) && AllTwoWay(net) && c < |net.paths|
    ensures Ready(net, Step(net, s, c)) <==> Ready(net, s)
  {
    if Decision(net, s, c).bought {
      CanBuyAgain(net, s, c);
    } else {
      QuietStep(net, s, c);
      forall b | 0 <= b < |net.paths|
        ensures Decision(net, Step(net, s, c), b).bought <==> Decision(net, s, b).bought
      {
        SameDecision(net, s, Step(net, s, c), b);
      }
    }
  }

  /**
   * Where everybody may trade both ways, in a net of any shape, with minima and with watts: after any run
   * somebody would buy if and only if somebody would have bought at first.
   */
  lemma {:induction false} SomebodyBuys<N>(net: Net<N>, bs: seq<nat>)
    requires ValidNet(net) && Schedulable(net, bs) && AllTwoWay(net)
    ensures Ready(net, Run(net, Initial(net), bs)) <==> Ready(net, Initial(net))
    decreases |bs|
  {
    if bs != [] {
      var past, last := bs[..|bs| - 1], bs[|bs| - 1];
      SomebodyBuys(net, past);
      NoOverAllocation(net, past);
      ReadyStep(net, Run(net, Initial(net), past), last);
    }
  }

  // ---------- When the rounds end ----------

  /** After some number of rounds there is one in which nobody buys. */
  ghost predicate Settles<N>(net: Net<N>)
    requires ValidNet(net)
  {
    exists r: nat :: QuietAfter(net, r)
  }

  ghost predicate QuietAfter<N>(net: Net<N>, r: nat)
    requires ValidNet(net)
  {
    Quiet(net, Rounds(net, Initial(net), r), Everybody(net))
  }

  lemma {:induction false} NobodyBuys<N>(net: Net<N>, s: Slot<N>, bs: seq<nat>)
    requires ValidNet(net) && Shaped(net, s) && Schedulable(net, bs) && !Ready(net, s)
    ensures Quiet(net, s, bs)
    decreases |bs|
  {
    if bs != [] {
      var past, last := bs[..|bs| - 1], bs[|bs| - 1];
      NobodyBuys(net, s, past);
      QuietRun(net, s, past);
      SameDecision(net, s, Run(net, s, past), last);
    }
  }

  /** A round is quiet if and only if nobody would buy before it. */
  lemma QuietUnlessReady<N>(net: Net<N>, s: Slot<N>)
    requires ValidNet(net) && Shaped(net, s)
    ensures Quiet(net, s, Everybody(net)) <==> !Ready(net, s)
  {
    if Quiet(net, s, Everybody(net)) {
      forall b | 0 <= b < |net.paths|
        ensures !Decision(net, s, b).bought
      {
        QuietBroker(net, s, Everybody(net), b);
      }
    } else if !Ready(net, s) {
      NobodyBuys(net, s, Everybody(net));
    }
  }

  /** Where everybody may trade both ways, every round is like the first: quiet if nobody buys at first, else loud. */
  lemma NoRoundIsQuiet<N>(net: Net<N>, r: nat)
    requires ValidNet(net) && AllTwoWay(net)
    ensures QuietAfter(net, r) <==> !Ready(net, Initial(net))
  {
    RoundsAreRuns(net, r);
    SomebodyBuys(net, TurnsOfRounds(net, r));
    QuietUnlessReady(net, Rounds(net, Initial(net), r));
  }

  /** So the rounds end by themselves if and only if nobody buys at first. */
  lemma SettlesExactly<N>(net: Net<N>)
    requires ValidNet(net) && AllTwoWay(net)
    ensures Settles(net) <==> forall b :: 0 <= b < |net.paths| ==> !Decision(net, Initial(net), b).bought
  {
    NoRoundIsQuiet(net, 0);
    if r: nat :| QuietAfter(net, r) {
      NoRoundIsQuiet(net, r);
    }
  }

  /** One slot of this kind keeps a whole schedule from settling. */
  lemma TwoWaySlotIsLoud<N>(nets: seq<Net<N>>, r: nat, i: nat)
    requires AllValid(nets) && i < |nets| && AllTwoWay(nets[i]) && Ready(nets[i], Initial(nets[i]))
    ensures Loud(nets, r)
  {
    NoRoundIsQuiet(nets[i], r);
    assert !QuietIn(nets, r, i);
  }

  // ---------- One direction shut ----------

  lemma ImportOnlySettles<N>(net: Net<N>)
    requires ValidNet(net) && ImportOnly(net) && AmpereLimited(net, Initial(net))
    ensures Settles(net)
  {
    var nets := [net];
    assert ImportableSlot(nets[0]);
    var r := if ScheduleBudget(nets) >= 0 then ScheduleBudget(nets) + 1 else 0;
    if forall k :: 0 <= k < r ==> Loud(nets, k) {
      LoopSettles(nets, r);
    } else {
      var k :| 0 <= k < r && !Loud(nets, k);
      assert QuietIn(nets, k, 0);
      assert QuietAfter(net, k);
    }
  }

  /** Import and export exchanged. */
  ghost function Mirror<N>(net: Net<N>): (m: Net<N>)
    requires ValidNet(net)
    ensures ValidNet(m)
  {
    var m := Net(net.exp, net.imp, net.paths, net.params);
    assert forall b :: 0 <= b < |m.paths| ==> OnNet(net, net.paths[b]) && OnNet(m, m.paths[b]);
    m
  }

  /** The same amounts, the other way. */
  ghost predicate Mirrored<N>(s: Slot<N>, t: Slot<N>) {
    && t.first == s.first && t.sold.Keys == s.sold.Keys
    && forall n :: n in s.sold ==> Amp(t.sold[n]) == -Amp(s.sold[n]) && Watt(t.sold[n]) == -Watt(s.sold[n])
  }

  lemma {:induction false} OfferMirrored<N>(net: Net<N>, s: Slot<N>, t: Slot<N>, path: seq<N>, dir: Direction)
    requires ValidNet(net) && Mirrored(s, t)
    requires forall i :: 0 <= i < |path| ==> path[i] in net.imp && path[i] in net.exp && path[i] in s.sold
    ensures OfferOn(Mirror(net), t.sold, path, Opposite(dir)) == OfferOn(net, s.sold, path, dir)
  {
    if path != [] {
      OfferMirrored(net, s, t, path[..|path| - 1], dir);
    }
  }

  lemma OffersMirrored<N>(net: Net<N>, s: Slot<N>, t: Slot<N>, b: nat, dir: Direction)
    requires ValidNet(net) && Shaped(net, s) && Shaped(Mirror(net), t) && Mirrored(s, t) && b < |net.paths|
    ensures Offer(Mirror(net), t, b, Opposite(dir)) == Offer(net, s, b, dir)
    ensures WattsPerAmpere(Offer(net, s, b, dir), net.params) > 0.0
  {
    assert OnNet(net, net.paths[b]);
    OfferMirrored(net, s, t, net.paths[b], dir);
    PhasesOnPath(net, s.sold, net.paths[b], dir);
  }

  lemma SideMirrored(l: Limits, first: bool, p: Params, idle: Sold, idle': Sold)
    requires WattsPerAmpere(l, p) > 0.0
    requires Amp(idle) == 0.0 && Watt(idle) == 0.0 && Amp(idle') == 0.0 && Watt(idle') == 0.0
    ensures var x, y := BuySide(l, first, p, Export, idle), BuySide(l, first, p, Import, idle');
      x.bought == y.bought && Amp(y.sold) == -Amp(x.sold) && Watt(y.sold) == -Watt(x.sold)
  {
  }

  /** Where import is closed, a broker decides like the mirrored one that imports. */
  lemma DecisionMirrored<N>(net: Net<N>, s: Slot<N>, t: Slot<N>, b: nat)
    requires ValidNet(net) && Shaped(net, s) && Shaped(Mirror(net), t) && Mirrored(s, t) && b < |net.paths|
    requires !Open(Offer(Mirror(net), t, b, Export))
    ensures var x, y := Decision(net, s, b), Decision(Mirror(net), t, b);
      x.bought == y.bought && Amp(y.sold) == -Amp(x.sold) && Watt(y.sold) == -Watt(x.sold)
  {
    OffersMirrored(net, s, t, b, Import);
    OffersMirrored(net, s, t, b, Export);
    SideMirrored(Offer(net, s, b, Export), s.first[b], net.params, Idle(Offer(net, s, b, Import)),
                 Idle(Offer(net, s, b, Export)));
  }

  lemma BookMirrored(total: Sold, x: Sold, total': Sold, y: Sold)
    requires Amp(total') == -Amp(total) && Watt(total') == -Watt(total)
    requires Amp(y) == -Amp(x) && Watt(y) == -Watt(x)
    ensures Amp(AddSold(total', y)) == -Amp(AddSold(total, x)) && Watt(AddSold(total', y)) == -Watt(AddSold(total, x))
  {
  }

  lemma StepMirrored<N>(net: Net<N>, s: Slot<N>, t: Slot<N>, b: nat)
    requires ValidNet(net) && Shaped(net, s) && Importing(Mirror(net), t) && Mirrored(s, t) && b < |net.paths|
    ensures Decision(net, s, b).bought == Decision(Mirror(net), t, b).bought
    ensures Mirrored(Step(net, s, b), Step(Mirror(net), t, b)) && Importing(Mirror(net), Step(Mirror(net), t, b))
  {
    ExportClosed(Mirror(net), t, b);
    ImportStep(Mirror(net), t, b);
    DecisionMirrored(net, s, t, b);
    var x, y := Decision(net, s, b).sold, Decision(Mirror(net), t, b).sold;
    forall n | n in s.sold
      ensures var s', t' := Step(net, s, b).sold[n], Step(Mirror(net), t, b).sold[n];
        Amp(t') == -Amp(s') && Watt(t') == -Watt(s')
    {
      BookMirrored(s.sold[n], x, t.sold[n], y);
    }
  }

  lemma {:induction false} RunMirrored<N>(net: Net<N>, s: Slot<N>, t: Slot<N>, bs: seq<nat>)
    requires ValidNet(net) && Shaped(net, s) && Importing(Mirror(net), t) && Mirrored(s, t) && Schedulable(net, bs)
    ensures Schedulable(Mirror(net), bs) && Quiet(net, s, bs) == Quiet(Mirror(net), t, bs)
    ensures Mirrored(Run(net, s, bs), Run(Mirror(net), t, bs)) && Importing(Mirror(net), Run(Mirror(net), t, bs))
    decreases |bs|
  {
    if bs != [] {
      var past, last := bs[..|bs| - 1], bs[|bs| - 1];
      RunMirrored(net, s, t, past);
      StepMirrored(net, Run(net, s, past), Run(Mirror(net), t, past), last);
    }
  }

  /** A slot of a market that cannot import, and its mirror image. */
  ghost predicate Images<N>(net: Net<N>, m: Net<N>, s: Slot<N>, t: Slot<N>) {
    ValidNet(net) && m == Mirror(net) && Shaped(net, s) && Importing(m, t) && Mirrored(s, t)
  }

  lemma RoundMirrored<N>(net: Net<N>, m: Net<N>, s: Slot<N>, t: Slot<N>)
    requires Images(net, m, s, t)
    ensures Quiet(net, s, Everybody(net)) == Quiet(m, t, Everybody(m))
    ensures Images(net, m, Run(net, s, Everybody(net)), Run(m, t, Everybody(m)))
  {
    assert Everybody(m) == Everybody(net);
    RunMirrored(net, s, t, Everybody(net));
  }

  lemma MirroredInitially<N>(net: Net<N>)
    requires ValidNet(net) && ImportOnly(Mirror(net))
    ensures Images(net, Mirror(net), Initial(net), Initial(Mirror(net)))
  {
    ImportInitially(Mirror(net));
  }

  lemma {:induction false} TurnsAlike<N>(net: Net<N>, m: Net<N>, r: nat)
    requires |net.paths| == |m.paths|
    ensures TurnsOfRounds(net, r) == TurnsOfRounds(m, r)
  {
    if r > 0 {
      TurnsAlike(net, m, r - 1);
      assert Everybody(net) == Everybody(m);
    }
  }

  /** A market in which import is shut everywhere settles exactly when its mirror image does. */
  lemma SettlesMirrored<N>(net: Net<N>, r: nat)
    requires ValidNet(net) && ImportOnly(Mirror(net))
    ensures QuietAfter(net, r) <==> QuietAfter(Mirror(net), r)
  {
    var m, bs := Mirror(net), TurnsOfRounds(net, r);
    MirroredInitially(net);
    TurnsAlike(net, m, r);
    RoundsAreRuns(net, r);
    RoundsAreRuns(m, r);
    RunMirrored(net, Initial(net), Initial(m), bs);
    RoundMirrored(net, m, Run(net, Initial(net), bs), Run(m, Initial(m), bs));
  }

  /** Everybody's import is shut, and what is exported is limited in amperes: the rounds end. */
  lemma ExportOnlySettles<N>(net: Net<N>)
    requires ValidNet(net) && ImportOnly(Mirror(net))
    requires forall b :: 0 <= b < |net.paths| ==> FirstOffer(net, b, Export).maxA.Some?
    ensures Settles(net)
  {
    var m := Mirror(net);
    forall b | 0 <= b < |m.paths|
      ensures ImportOffer(m, Initial(m), b).maxA.Some?
    {
      assert OnNet(net, net.paths[b]) && FirstOffer(net, b, Export).maxA.Some?;
      OfferMirrored(net, Initial(net), Initial(m), net.paths[b], Export);
    }
    ImportOnlySettles(m);
    var r: nat :| QuietAfter(m, r);
    SettlesMirrored(net, r);
  }

  // ---------- A single EVSE ----------

  /** Both sides are limited in amperes, and in watts both or neither. */
  ghost predicate LimitedAlike<N>(net: Net<N>, b: nat)
    requires ValidNet(net) && b < |net.paths|
  {
    var imp, exp := FirstOffer(net, b, Import), FirstOffer(net, b, Export);
    imp.maxA.Some? && exp.maxA.Some? && (imp.maxW.Some? <==> exp.maxW.Some?)
  }

  lemma AllLeftAtFirst(l: Limits, sold: Sold, dir: Direction)
    requires sold == NothingSold
    ensures Available(l, sold, dir) == l
  {
  }

  lemma ZeroCloses(o: Limits, l: Limits)
    requires AtMost(o.maxA, l.maxA) && AtMost(o.maxW, l.maxW) && Shut(l) && NonNegative(o.maxA) && NonNegative(o.maxW)
    ensures !Open(o)
  {
  }

  lemma ZeroFromPath<N>(net: Net<N>, b: nat, dir: Direction, i: nat)
    requires ValidNet(net) && b < |net.paths| && i < |net.paths[b]|
    requires OnNet(net, net.paths[b]) && Shut(LimitsIn(net, net.paths[b][i], dir))
    ensures !Open(FirstOffer(net, b, dir))
  {
    var n := net.paths[b][i];
    NoOverAllocation(net, []);
    OfferNonNegative(net, Initial(net), b, dir);
    OfferBelow(net, Initial(net).sold, net.paths[b], dir, i);
    AllLeftAtFirst(LimitsIn(net, n, dir), Initial(net).sold[n], dir);
    ZeroCloses(FirstOffer(net, b, dir), LimitsIn(net, n, dir));
  }

  lemma ZeroToPath<N>(net: Net<N>, b: nat, dir: Direction) returns (i: nat)
    requires ValidNet(net) && b < |net.paths| && !Open(FirstOffer(net, b, dir))
    ensures OnNet(net, net.paths[b]) && i < |net.paths[b]| && Shut(LimitsIn(net, net.paths[b][i], dir))
  {
    var path, sold := net.paths[b], Initial(net).sold;
    assert OnNet(net, path);
    if FirstOffer(net, b, dir).maxA == Some(0.0) {
      i := OfferAttainedA(net, sold, path, dir);
    } else {
      i := OfferAttainedW(net, sold, path, dir);
    }
  }

  lemma OpenIsTwoWay<N>(net: Net<N>, b: nat)
    requires ValidNet(net) && b < |net.paths| && LimitedAlike(net, b)
    requires Open(FirstOffer(net, b, Import)) && Open(FirstOffer(net, b, Export))
    ensures TwoWay(net, b)
  {
    assert OnNet(net, net.paths[b]);
    forall i | 0 <= i < |net.paths[b]|
      ensures NoZero(net.imp[net.paths[b][i]]) && NoZero(net.exp[net.paths[b][i]])
    {
      if Shut(LimitsIn(net, net.paths[b][i], Import)) {
        ZeroFromPath(net, b, Import, i);
      }
      if Shut(LimitsIn(net, net.paths[b][i], Export)) {
        ZeroFromPath(net, b, Export, i);
      }
    }
    forall dir
      ensures Answers(FirstOffer(net, b, dir), FirstOffer(net, b, Opposite(dir)))
    {
    }
  }

  lemma ExportShut<N>(net: Net<N>)
    requires ValidNet(net) && |net.paths| == 1 && LimitedAlike(net, 0) && !Open(FirstOffer(net, 0, Export))
    ensures ImportOnly(net) && AmpereLimited(net, Initial(net))
  {
    var i := ZeroToPath(net, 0, Export);
    assert HasShut(net, net.paths[0]);
    assert ImportOffer(net, Initial(net), 0) == FirstOffer(net, 0, Import);
  }

  lemma ImportShut<N>(net: Net<N>)
    requires ValidNet(net) && |net.paths| == 1 && !Open(FirstOffer(net, 0, Import))
    ensures ImportOnly(Mirror(net))
  {
    var i := ZeroToPath(net, 0, Import);
    assert HasShut(Mirror(net), Mirror(net).paths[0]);
  }

  /**
   * With a single EVSE that is limited alike on both sides, with or without watts and minima, the rounds end by
   * themselves if and only if import or export is shut from the beginning, or it does not even buy at first.
   */
  lemma OneEvseSettlesExactly<N>(net: Net<N>)
    requires ValidNet(net) && |net.paths| == 1 && LimitedAlike(net, 0)
    ensures Settles(net) <==>
      || !Open(FirstOffer(net, 0, Import)) || !Open(FirstOffer(net, 0, Export))
      || !Decision(net, Initial(net), 0).bought
  {
    if !Open(FirstOffer(net, 0, Export)) {
      ExportShut(net);
      ImportOnlySettles(net);
    } else if !Open(FirstOffer(net, 0, Import)) {
      ImportShut(net);
      ExportOnlySettles(net);
    } else {
      OpenIsTwoWay(net, 0);
      SettlesExactly(net);
    }
  }

  // ---------- Markets that never settle ----------

  lemma OfferOfOne<N>(net: Net<N>, sold: map<N, Sold>, path: seq<N>, dir: Direction)
    requires |path| == 1 && path[0] in net.imp && path[0] in net.exp && path[0] in sold
    ensures OfferOn(net, sold, path, dir) == Narrow(Unlimited, LeftAt(net, sold, path[0], dir))
  {
    assert path[..0] == [];
  }

  ghost function OneNodeNet(imp: Limits, exp: Limits): (net: Net<bool>)
    requires ValidLimits(imp) && ValidLimits(exp)
    ensures ValidNet(net)
  {
    Net(map[true := imp], map[true := exp], [[true]], Params(230.0, 1.0, 1000.0))
  }

  /** One EVSE that may import and export 16 A buys for ever. */
  lemma BothWaysNeverSettles()
    ensures !Settles(OneNodeNet(Unlimited.(maxA := Some(16.0)), Unlimited.(maxA := Some(16.0))))
  {
    var net := OneNodeNet(Unlimited.(maxA := Some(16.0)), Unlimited.(maxA := Some(16.0)));
    OfferOfOne(net, Initial(net).sold, net.paths[0], Import);
    OfferOfOne(net, Initial(net).sold, net.paths[0], Export);
    OneEvseSettlesExactly(net);
  }

  /** Where one broker is under watt limits alone and is offered any, no round is quiet. */
  lemma WattOnlyIsLoud<N>(net: Net<N>, b: nat)
    requires ValidNet(net) && b < |net.paths| && UnderWattsOnly(net, b) && Decision(net, Initial(net), b).bought
    ensures !Settles(net)
  {
    WattOnlyNeverSettles(net, [], b);
    forall r: nat
      ensures !QuietAfter(net, r)
    {
      RoundsAreRuns(net, r);
      WattOnlyNeverSettles(net, TurnsOfRounds(net, r), b);
      QuietUnlessReady(net, Rounds(net, Initial(net), r));
    }
  }

  /** One EVSE that may import 1000 W, without a limit in amperes, buys for ever, too. */
  lemma WattsNeverSettle()
    ensures !Settles(OneNodeNet(Unlimited.(maxW := Some(1000.0)), Unlimited.(maxW := Some(0.0))))
  {
    var net := OneNodeNet(Unlimited.(maxW := Some(1000.0)), Unlimited.(maxW := Some(0.0)));
    OfferOfOne(net, Initial(net).sold, net.paths[0], Import);
    OfferOfOne(net, Initial(net).sold, net.paths[0], Export);
    assert UnderWattsOnly(net, 0);
    WattOnlyIsLoud(net, 0);
  }

  // ---------- Sides that are not limited alike ----------

  /** One EVSE that may import 2 A and 1 W, and export 1 A without a limit in watts. */
  ghost predicate OneSided<N>(net: Net<N>) {
    && ValidNet(net) && |net.paths| == 1 && |net.paths[0]| == 1 && net.params == Params(1.0, 1.0, 1.0)
    && net.imp[net.paths[0][0]] == Limits(Some(2.0), Some(1.0), None, None)
    && net.exp[net.paths[0][0]] == Limits(Some(1.0), None, None, None)
  }

  ghost function OneSidedNet(): (net: Net<bool>)
    ensures OneSided(net)
  {
    Net(map[true := Limits(Some(2.0), Some(1.0), None, None)], map[true := Limits(Some(1.0), None, None, None)],
        [[true]], Params(1.0, 1.0, 1.0))
  }

  /** What the EVSE has bought before its k-th turn: 1 A with its watt, then back, then out. */
  function HeldAmperes(k: nat): real {
    if k == 0 then 0.0 else if k == 1 then 1.0 else if k == 2 then 0.0 else -1.0
  }

  ghost predicate Holds<N>(net: Net<N>, s: Slot<N>, k: nat)
    requires OneSided(net)
  {
    Shaped(net, s) && net.paths[0][0] in s.sold && HeldBefore(s.sold[net.paths[0][0]], k)
  }

  predicate HeldBefore(sold: Sold, k: nat) {
    Amp(sold) == HeldAmperes(k) && Watt(sold) == if k == 0 then 0.0 else 1.0
  }

  function OfferedImport(k: nat): Limits {
    Limits(Some(if k == 1 then 1.0 else 2.0), Some(if k == 0 then 1.0 else 0.0), None, None)
  }

  function OfferedExport(k: nat): Limits {
    Limits(Some(if k < 3 then 1.0 else 0.0), None, None, None)
  }

  lemma OneSidedOffers<N>(net: Net<N>, s: Slot<N>, k: nat)
    requires OneSided(net) && Holds(net, s, k) && k <= 3
    ensures Offer(net, s, 0, Import) == OfferedImport(k) && Offer(net, s, 0, Export) == OfferedExport(k)
  {
    OfferOfOne(net, s.sold, net.paths[0], Import);
    OfferOfOne(net, s.sold, net.paths[0], Export);
  }

  lemma OneSidedDecision(k: nat, first: bool)
    requires k <= 3
    ensures WattsPerAmpere(OfferedImport(k), Params(1.0, 1.0, 1.0)) == 1.0
    ensures WattsPerAmpere(OfferedExport(k), Params(1.0, 1.0, 1.0)) == 1.0
    ensures var t := Decide(OfferedImport(k), OfferedExport(k), first, Params(1.0, 1.0, 1.0));
      && (t.bought <==> k < 3)
      && (k < 3 ==> Amp(t.sold) == HeldAmperes(k + 1) - HeldAmperes(k) && Watt(t.sold) == if k == 0 then 1.0 else 0.0)
  {
  }

  lemma OneSidedBooks(total: Sold, x: Sold, k: nat)
    requires k < 3 && HeldBefore(total, k)
    requires Amp(x) == HeldAmperes(k + 1) - HeldAmperes(k) && Watt(x) == if k == 0 then 1.0 else 0.0
    ensures HeldBefore(AddSold(total, x), k + 1)
  {
  }

  lemma OneSidedTurn<N>(net: Net<N>, s: Slot<N>, k: nat)
    requires OneSided(net) && Holds(net, s, k) && k <= 3
    ensures Decision(net, s, 0).bought <==> k < 3
    ensures k < 3 ==> Holds(net, Step(net, s, 0), k + 1)
  {
    OneSidedOffers(net, s, k);
    OneSidedDecision(k, s.first[0]);
    NodeBooked(net, s, 0, 0);
    if k < 3 {
      OneSidedBooks(s.sold[net.paths[0][0]], Decision(net, s, 0).sold, k);
    }
  }

  lemma RunOfOne<N>(net: Net<N>, s: Slot<N>)
    requires ValidNet(net) && Shaped(net, s) && |net.paths| == 1
    ensures Run(net, s, Everybody(net)) == Step(net, s, 0)
    ensures Quiet(net, s, Everybody(net)) <==> !Decision(net, s, 0).bought
  {
    var bs := Everybody(net);
    assert bs[..|bs| - 1] == [] && bs[|bs| - 1] == 0;
  }

  lemma OneSidedRound<N>(net: Net<N>, s: Slot<N>, k: nat)
    requires OneSided(net) && Holds(net, s, k) && k <= 3
    ensures Quiet(net, s, Everybody(net)) <==> k == 3
    ensures k < 3 ==> Holds(net, Run(net, s, Everybody(net)), k + 1)
  {
    OneSidedTurn(net, s, k);
    RunOfOne(net, s);
  }

  lemma OneSidedStart<N>(net: Net<N>)
    requires OneSided(net)
    ensures Holds(net, Initial(net), 0)
  {
    assert OnNet(net, net.paths[0]);
  }

  lemma OneSidedNext<N>(net: Net<N>, start: Slot<N>, s: Slot<N>, next: Slot<N>, k: nat)
    requires OneSided(net) && Shaped(net, start) && k < 3 && Holds(net, s, k)
    requires s == Rounds(net, start, k) && next == Rounds(net, start, k + 1)
    ensures Holds(net, next, k + 1)
  {
    OneSidedRound(net, s, k);
  }

  lemma {:induction false} OneSidedRounds<N>(net: Net<N>, start: Slot<N>, k: nat)
    requires OneSided(net) && k <= 3 && Holds(net, start, 0)
    ensures Holds(net, Rounds(net, start, k), k)
  {
    if k > 0 {
      OneSidedRounds(net, start, k - 1);
      OneSidedNext(net, start, Rounds(net, start, k - 1), Rounds(net, start, k), k - 1);
    }
  }

  lemma OneSidedIsOpen<N>(net: Net<N>)
    requires OneSided(net)
    ensures NowhereZero(net, net.paths[0])
  {
    assert OnNet(net, net.paths[0]);
  }

  /** Nothing is shut, and it buys in the first three rounds, but not in the fourth: in the end it is stuck. */
  lemma OneSidedSettles<N>(net: Net<N>, k: nat)
    requires OneSided(net) && k <= 3
    ensures QuietAfter(net, k) <==> k == 3
  {
    OneSidedStart(net);
    OneSidedRounds(net, Initial(net), k);
    OneSidedRound(net, Rounds(net, Initial(net), k), k);
  }

  /** So the rounds end in a market in which nothing is shut and somebody buys at first. */
  lemma OneSidedRoundsEnd()
    ensures var net := OneSidedNet();
      Settles(net) && Ready(net, Initial(net)) && NowhereZero(net, net.paths[0])
  {
    var net := OneSidedNet();
    OneSidedIsOpen(net);
    OneSidedSettles(net, 0);
    OneSidedSettles(net, 3);
    QuietUnlessReady(net, Initial(net));
  }
}
