/**
 * Fairness between siblings, and the all-or-minimum law, of the import-only market.
 */
module EnergyFairness {
  import opened Wrappers
  import opened EnergySlot
  import opened EnergySafety
  import opened EnergyImport
  import opened EnergyProgress
  import opened EnergyConservation

  // ---------- Two siblings in one round ----------

  ghost function Shared<N>(net: Net<N>, b: nat): seq<N>
    requires ValidNet(net) && b < |net.paths|
  {
    assert OnNet(net, net.paths[b]);
    net.paths[b][..|net.paths[b]| - 1]
  }

  /** No other broker trades through b's own node. */
  ghost predicate Alone<N>(net: Net<N>, b: nat)
    requires ValidNet(net) && b < |net.paths|
  {
    forall c :: 0 <= c < |net.paths| && c != b ==> Own(net, b) !in net.paths[c]
  }

  /** Two EVSEs under one node, with equal limits. */
  ghost predicate Siblings<N>(net: Net<N>, b: nat, c: nat)
    requires ValidNet(net) && b < |net.paths| && c < |net.paths|
  {
    && b != c && Alone(net, b) && Alone(net, c)
    && Shared(net, b) == Shared(net, c)
    && net.imp[Own(net, b)] == net.imp[Own(net, c)]
  }

  ghost function SharedOffer<N>(net: Net<N>, s: Slot<N>, b: nat): Limits
    requires ValidNet(net) && Shaped(net, s) && b < |net.paths|
  {
    assert OnNet(net, net.paths[b]);
    OfferOn(net, s.sold, Shared(net, b), Import)
  }

  /** What the broker's own node has left. */
  ghost function OwnOffer<N>(net: Net<N>, s: Slot<N>, b: nat): Limits
    requires ValidNet(net) && Shaped(net, s) && b < |net.paths|
  {
    Available(net.imp[Own(net, b)], s.sold[Own(net, b)], Import)
  }

  ghost predicate SameBought<N>(net: Net<N>, s: Slot<N>, b: nat, c: nat)
    requires ValidNet(net) && Shaped(net, s) && b < |net.paths| && c < |net.paths|
  {
    && Amp(s.sold[Own(net, b)]) == Amp(s.sold[Own(net, c)])
    && Watt(s.sold[Own(net, b)]) == Watt(s.sold[Own(net, c)])
  }

  /** The inductive fact: equal, or at most a slice apart with the shared path exhausted. */
  ghost predicate Even<N>(net: Net<N>, s: Slot<N>, b: nat, c: nat)
    requires ValidNet(net) && Shaped(net, s) && b < |net.paths| && c < |net.paths|
  {
    || SameBought(net, s, b, c)
    || (!Open(SharedOffer(net, s, b)) &&
        Abs(Amp(s.sold[Own(net, b)]) - Amp(s.sold[Own(net, c)])) <= net.params.sliceA)
  }

  /** What a broker with no minimum buys from an offer, at k watts per ampere. */
  ghost predicate GreedyOrIdle(o: Limits, x: Sold, slice: real, k: real) {
    && (Open(o) ==> Greedy(o, x, slice))
    && (!Open(o) ==> Amp(x) == 0.0)
    && Watt(x) == if o.maxW.Some? then Amp(x) * k else 0.0
  }

  /** With no minimum to buy first, the broker takes as much as slice, amperes and watts allow. */
  lemma TradesGreedily(o: Limits, first: bool, p: Params)
    requires ValidParams(p) && WattsPerAmpere(o, p) > 0.0 && NonNegative(o.maxA) && NonNegative(o.maxW)
    requires o.maxA.Some? && !MinimumFirst(o, true)
    ensures GreedyOrIdle(o, ImportTrade(o, first, p).sold, p.sliceA, WattsPerAmpere(o, p))
  {
    if Open(o) {
      AmperesFit(o, p.sliceA, true, p);
      LeftoversExhaust(o, p, Idle(o));
      BuySideQuiet(o, first, p, Import, Idle(o));
    }
  }

  /** Equal own nodes, a shared part that has not grown in between: who comes second gets no more. */
  lemma SecondGetsNoMore(shared: Limits, shared': Limits, own: Limits, x: Sold, y: Sold, slice: real, k: real)
    requires Shrunk(shared', shared) && Narrow(shared, own).maxA.Some? && k > 0.0 && slice > 0.0
    requires NonNegative(shared'.maxA) && NonNegative(shared'.maxW)
    requires NonNegative(own.maxA) && NonNegative(own.maxW)
    requires GreedyOrIdle(Narrow(shared, own), x, slice, k) && GreedyOrIdle(Narrow(shared', own), y, slice, k)
    ensures 0.0 <= Amp(y) <= Amp(x) <= slice
    ensures (Amp(x) == Amp(y) && Watt(x) == Watt(y)) || !Open(Lower(shared', y))
  {
    var o, o' := Narrow(shared, own), Narrow(shared', own);
    assert Shrunk(o', o);
    CompareWatts(x, y, o.maxW.Some?, k);
    if Open(o) && Open(o') {
      SecondIsLimited(shared, shared', own, x, y, slice);
    } else if Open(o) {
      assert !Open(shared');
      assert Amp(y) == 0.0 && Watt(y) == 0.0;
    }
  }

  lemma CompareWatts(x: Sold, y: Sold, limited: bool, k: real)
    requires k > 0.0
    requires Watt(x) == (if limited then Amp(x) * k else 0.0) && Watt(y) == (if limited then Amp(y) * k else 0.0)
    ensures Amp(x) < Amp(y) ==> Watt(x) < Watt(y) || !limited
    ensures Amp(y) < Amp(x) ==> Watt(y) < Watt(x) || !limited
    ensures Amp(x) == Amp(y) ==> Watt(x) == Watt(y)
  {
    if limited {
      MoreAmperesMoreWatts(Amp(x), Amp(y), Watt(x), Watt(y), k);
      MoreAmperesMoreWatts(Amp(y), Amp(x), Watt(y), Watt(x), k);
    }
  }

  /** Two greedy purchases from offers that differ in their shared part only. */
  lemma SecondIsLimited(shared: Limits, shared': Limits, own: Limits, x: Sold, y: Sold, slice: real)
    requires Shrunk(shared', shared) && Narrow(shared, own).maxA.Some?
    requires Greedy(Narrow(shared, own), x, slice) && Greedy(Narrow(shared', own), y, slice)
    requires Amp(x) < Amp(y) ==> Watt(x) < Watt(y) || Narrow(shared, own).maxW.None?
    requires Amp(y) < Amp(x) ==> Watt(y) < Watt(x) || Narrow(shared, own).maxW.None?
    ensures Amp(y) <= Amp(x)
    ensures Amp(x) == Amp(y) || !Open(Lower(shared', y))
  {
    var o, o' := Narrow(shared, own), Narrow(shared', own);
    assert Shrunk(o', o);
    if Amp(y) < Amp(x) {
      if Amp(y) == o'.maxA.value {
        assert shared'.maxA == o'.maxA;
      } else {
        assert own.maxW.Some? ==> o.maxW.value <= own.maxW.value;
        assert shared'.maxW == o'.maxW;
      }
    }
  }

  lemma MoreAmperesMoreWatts(x: real, y: real, wx: real, wy: real, k: real)
    requires k > 0.0 && wx == x * k && wy == y * k
    ensures x < y <==> wx < wy
  {
    assert wy - wx == (y - x) * k;
  }

  /** As much as the slice, the amperes and the watts on offer allow. */
  ghost predicate Greedy(o: Limits, x: Sold, slice: real) {
    && o.maxA.Some?
    && 0.0 <= Amp(x) <= slice && Amp(x) <= o.maxA.value
    && (o.maxW.Some? ==> Watt(x) <= o.maxW.value)
    && (Amp(x) == slice || Amp(x) == o.maxA.value || (o.maxW.Some? && Watt(x) == o.maxW.value))
  }

  // ---------- Whole rounds ----------

  lemma OfferSplits<N>(net: Net<N>, s: Slot<N>, b: nat)
    requires ValidNet(net) && Shaped(net, s) && b < |net.paths|
    ensures ImportOffer(net, s, b) == Narrow(SharedOffer(net, s, b), OwnOffer(net, s, b))
  {
    assert OnNet(net, net.paths[b]);
  }

  /** Turns of others leave a lone broker's own node alone, and can only shrink what it shares. */
  lemma {:induction false} TurnsOfOthers<N>(net: Net<N>, s: Slot<N>, bs: seq<nat>, b: nat)
    requires Importing(net, s) && Schedulable(net, bs) && b < |net.paths| && Alone(net, b) && b !in bs
    ensures Run(net, s, bs).sold[Own(net, b)] == s.sold[Own(net, b)]
    ensures Shrunk(SharedOffer(net, Run(net, s, bs), b), SharedOffer(net, s, b))
    decreases |bs|
  {
    if bs != [] {
      var past, last := bs[..|bs| - 1], bs[|bs| - 1];
      TurnsOfOthers(net, s, past, b);
      assert last in bs && Own(net, b) !in net.paths[last];
    }
    assert OnNet(net, net.paths[b]);
    RunSellsMore(net, s, bs);
    OfferShrinks(net, s.sold, Run(net, s, bs).sold, Shared(net, b));
  }

  /** The slot is ampere-limited for b, and b need not buy a minimum first. */
  ghost predicate Plain<N>(net: Net<N>, s: Slot<N>, b: nat)
    requires ValidNet(net) && Shaped(net, s) && b < |net.paths|
  {
    ImportOffer(net, s, b).maxA.Some? && !MinimumFirst(ImportOffer(net, s, b), true)
  }

  lemma PlainStaysPlain<N>(net: Net<N>, s: Slot<N>, bs: seq<nat>, b: nat)
    requires Importing(net, s) && Schedulable(net, bs) && b < |net.paths| && Plain(net, s, b)
    ensures Plain(net, Run(net, s, bs), b)
  {
    assert OnNet(net, net.paths[b]);
    RunSellsMore(net, s, bs);
    OfferShrinks(net, s.sold, Run(net, s, bs).sold, net.paths[b]);
  }

  /** A broker's own turn adds its purchase to its own node and takes it off the shared path. */
  lemma OwnBooked<N>(net: Net<N>, s: Slot<N>, b: nat)
    requires Importing(net, s) && b < |net.paths|
    ensures var x, s' := Decision(net, s, b).sold, Step(net, s, b);
      && Amp(s'.sold[Own(net, b)]) == Amp(s.sold[Own(net, b)]) + Amp(x)
      && Watt(s'.sold[Own(net, b)]) == Watt(s.sold[Own(net, b)]) + Watt(x)
      && SharedOffer(net, s', b) == Lower(SharedOffer(net, s, b), x)
      && Amp(x) >= 0.0 && Watt(x) >= 0.0
  {
    assert OnNet(net, net.paths[b]);
    ImportDecision(net, s, b);
    OfferDrops(net, s.sold, Shared(net, b), net.paths[b], Decision(net, s, b).sold);
  }

  lemma OwnGreedy<N>(net: Net<N>, s: Slot<N>, b: nat)
    requires Importing(net, s) && b < |net.paths| && Plain(net, s, b)
    ensures GreedyOrIdle(Narrow(SharedOffer(net, s, b), OwnOffer(net, s, b)), Decision(net, s, b).sold,
                         net.params.sliceA, WattsPerAmpere(ImportOffer(net, s, b), net.params))
  {
    ImportDecision(net, s, b);
    OfferSplits(net, s, b);
    TradesGreedily(ImportOffer(net, s, b), s.first[b], net.params);
  }

  lemma OffersNonNegative<N>(net: Net<N>, s: Slot<N>, b: nat)
    requires Importing(net, s) && b < |net.paths|
    ensures NonNegative(SharedOffer(net, s, b).maxA) && NonNegative(SharedOffer(net, s, b).maxW)
    ensures NonNegative(OwnOffer(net, s, b).maxA) && NonNegative(OwnOffer(net, s, b).maxW)
  {
    assert OnNet(net, net.paths[b]);
    OfferNonNegativeOn(net, s, Shared(net, b), Import);
  }

  /** State t, before c's turn, is what state s, before b's turn, became by b's turn and turns of others. */
  ghost predicate OthersBetween<N>(net: Net<N>, s: Slot<N>, t: Slot<N>, b: nat, c: nat)
    requires Importing(net, s) && Importing(net, t) && b < |net.paths| && c < |net.paths|
  {
    && t.sold[Own(net, b)] == Step(net, s, b).sold[Own(net, b)]
    && t.sold[Own(net, c)] == s.sold[Own(net, c)]
    && Shrunk(SharedOffer(net, t, b), SharedOffer(net, Step(net, s, b), b))
  }

  lemma SharedIsShared<N>(net: Net<N>, s: Slot<N>, b: nat, c: nat)
    requires ValidNet(net) && Shaped(net, s) && b < |net.paths| && c < |net.paths| && Shared(net, b) == Shared(net, c)
    ensures SharedOffer(net, s, b) == SharedOffer(net, s, c)
  {
  }

  lemma ShrunkFromLower(a: Limits, b: Limits, x: Sold)
    requires Shrunk(a, Lower(b, x)) && Amp(x) >= 0.0 && Watt(x) >= 0.0
    ensures Shrunk(a, b)
  {
  }

  lemma SameSurroundings<N>(net: Net<N>, s: Slot<N>, t: Slot<N>, b: nat, c: nat)
    requires Importing(net, s) && Importing(net, t) && b < |net.paths| && c < |net.paths| && Siblings(net, b, c)
    requires OthersBetween(net, s, t, b, c) && SameBought(net, s, b, c)
    ensures OwnOffer(net, t, c) == OwnOffer(net, s, b)
    ensures Shrunk(SharedOffer(net, t, c), SharedOffer(net, s, b))
  {
    OwnBooked(net, s, b);
    SharedIsShared(net, t, b, c);
    ShrunkFromLower(SharedOffer(net, t, b), SharedOffer(net, s, b), Decision(net, s, b).sold);
  }

  lemma SamePhases(a: Limits, a': Limits, own: Limits, p: Params)
    requires Shrunk(a', a)
    ensures WattsPerAmpere(Narrow(a', own), p) == WattsPerAmpere(Narrow(a, own), p)
  {
  }

  /** From equal: the second sibling buys no more than the first, and less only by exhausting the shared path. */
  lemma SecondTurn<N>(net: Net<N>, s: Slot<N>, t: Slot<N>, b: nat, c: nat)
    requires Importing(net, s) && Importing(net, t) && b < |net.paths| && c < |net.paths| && Siblings(net, b, c)
    requires Plain(net, s, b) && Plain(net, t, c) && OthersBetween(net, s, t, b, c) && SameBought(net, s, b, c)
    ensures var x, y := Decision(net, s, b).sold, Decision(net, t, c).sold;
      && 0.0 <= Amp(y) <= Amp(x) <= net.params.sliceA
      && ((Amp(x) == Amp(y) && Watt(x) == Watt(y)) || !Open(SharedOffer(net, Step(net, t, c), c)))
  {
    OwnGreedy(net, s, b);
    OwnGreedy(net, t, c);
    OwnBooked(net, t, c);
    OffersNonNegative(net, t, c);
    SameSurroundings(net, s, t, b, c);
    OfferSplits(net, s, b);
    OfferSplits(net, t, c);
    ImportDecision(net, s, b);
    SamePhases(SharedOffer(net, s, b), SharedOffer(net, t, c), OwnOffer(net, s, b), net.params);
    SecondGetsNoMore(SharedOffer(net, s, b), SharedOffer(net, t, c), OwnOffer(net, s, b),
                     Decision(net, s, b).sold, Decision(net, t, c).sold,
                     net.params.sliceA, WattsPerAmpere(ImportOffer(net, s, b), net.params));
  }

  /** From equal, both turns of a round: equal again, or the shared path is exhausted. */
  lemma EqualPair<N>(net: Net<N>, s: Slot<N>, t: Slot<N>, b: nat, c: nat)
    requires Importing(net, s) && Importing(net, t) && b < |net.paths| && c < |net.paths| && Siblings(net, b, c)
    requires Plain(net, s, b) && Plain(net, t, c) && OthersBetween(net, s, t, b, c) && SameBought(net, s, b, c)
    ensures Even(net, Step(net, t, c), b, c)
  {
    SecondTurn(net, s, t, b, c);
    OwnBooked(net, s, b);
    OwnBooked(net, t, c);
    SharedIsShared(net, Step(net, t, c), b, c);
    OthersTurn(net, t, c, b);
  }

  /** Once the shared path is exhausted nobody below it buys, so the difference stays. */
  lemma ExhaustedStaysEven<N>(net: Net<N>, s: Slot<N>, bs: seq<nat>, b: nat, c: nat)
    requires Importing(net, s) && Schedulable(net, bs) && b < |net.paths| && c < |net.paths| && Siblings(net, b, c)
    requires !Open(SharedOffer(net, s, b)) && Even(net, s, b, c)
    ensures !Open(SharedOffer(net, Run(net, s, bs), b)) && Even(net, Run(net, s, bs), b, c)
    decreases |bs|
  {
    if bs != [] {
      var past, last := bs[..|bs| - 1], bs[|bs| - 1];
      ExhaustedStaysEven(net, s, past, b, c);
      ImportRun(net, s, past);
      ExhaustedTurn(net, Run(net, s, past), last, b, c);
    }
  }

  lemma ClosedStaysClosed(o: Limits, o': Limits)
    requires !Open(o) && Shrunk(o', o) && NonNegative(o'.maxA) && NonNegative(o'.maxW)
    ensures !Open(o')
  {
  }

  lemma ExhaustedShared<N>(net: Net<N>, s: Slot<N>, d: nat, b: nat)
    requires Importing(net, s) && d < |net.paths| && b < |net.paths| && !Open(SharedOffer(net, s, b))
    ensures !Open(SharedOffer(net, Step(net, s, d), b))
  {
    ImportStep(net, s, d);
    assert OnNet(net, net.paths[b]);
    StepSellsMore(net, s, d);
    OfferShrinks(net, s.sold, Step(net, s, d).sold, Shared(net, b));
    OffersNonNegative(net, Step(net, s, d), b);
    ClosedStaysClosed(SharedOffer(net, s, b), SharedOffer(net, Step(net, s, d), b));
  }

  lemma OthersTurn<N>(net: Net<N>, s: Slot<N>, d: nat, b: nat)
    requires ValidNet(net) && Shaped(net, s) && d < |net.paths| && b < |net.paths| && Alone(net, b) && d != b
    ensures Step(net, s, d).sold[Own(net, b)] == s.sold[Own(net, b)]
  {
    assert Own(net, b) !in net.paths[d];
  }

  lemma ExhaustedAmount<N>(net: Net<N>, s: Slot<N>, d: nat, b: nat)
    requires Importing(net, s) && d < |net.paths| && b < |net.paths| && Alone(net, b) && !Open(SharedOffer(net, s, b))
    ensures Amp(Step(net, s, d).sold[Own(net, b)]) == Amp(s.sold[Own(net, b)])
    ensures Watt(Step(net, s, d).sold[Own(net, b)]) == Watt(s.sold[Own(net, b)])
  {
    if d == b {
      ClosedBuysNothing(net, s, d);
      OwnBooked(net, s, b);
    } else {
      OthersTurn(net, s, d, b);
    }
  }

  lemma ExhaustedTurn<N>(net: Net<N>, s: Slot<N>, d: nat, b: nat, c: nat)
    requires Importing(net, s) && d < |net.paths| && b < |net.paths| && c < |net.paths| && Siblings(net, b, c)
    requires !Open(SharedOffer(net, s, b)) && Even(net, s, b, c)
    ensures !Open(SharedOffer(net, Step(net, s, d), b)) && Even(net, Step(net, s, d), b, c)
  {
    SharedIsShared(net, s, b, c);
    ExhaustedShared(net, s, d, b);
    ExhaustedAmount(net, s, d, b);
    ExhaustedAmount(net, s, d, c);
  }

  lemma ClosedBuysNothing<N>(net: Net<N>, s: Slot<N>, d: nat)
    requires Importing(net, s) && d < |net.paths| && !Open(SharedOffer(net, s, d))
    ensures Amp(Decision(net, s, d).sold) == 0.0 && Watt(Decision(net, s, d).sold) == 0.0
  {
    OffersNonNegative(net, s, d);
    OfferSplits(net, s, d);
    ImportDecision(net, s, d);
    assert !Open(ImportOffer(net, s, d));
  }

  /** The turns of all brokers from position i up to position j of a round. */
  ghost function Turns<N>(net: Net<N>, i: nat, j: nat): (bs: seq<nat>)
    requires i <= j <= |net.paths|
    ensures Schedulable(net, bs) && |bs| == j - i && forall k :: 0 <= k < |bs| ==> bs[k] == i + k
  {
    Everybody(net)[i..j]
  }

  /** The slot in the middle of a round, before the turn of broker k. */
  ghost function Before<N>(net: Net<N>, s: Slot<N>, k: nat): (s': Slot<N>)
    requires ValidNet(net) && Shaped(net, s) && k <= |net.paths|
    ensures Shaped(net, s')
  {
    Run(net, s, Turns(net, 0, k))
  }

  lemma OneMore<N>(net: Net<N>, s: Slot<N>, b: nat)
    requires ValidNet(net) && Shaped(net, s) && b < |net.paths|
    ensures Before(net, s, b + 1) == Step(net, Before(net, s, b), b)
  {
    var bs := Turns(net, 0, b + 1);
    assert bs[..|bs| - 1] == Turns(net, 0, b) && bs[|bs| - 1] == b;
  }

  lemma TurnsSplit<N>(net: Net<N>, i: nat, j: nat)
    requires i <= j <= |net.paths|
    ensures Turns(net, 0, i) + Turns(net, i, j) == Turns(net, 0, j)
  {
  }

  lemma Passing<N>(net: Net<N>, s: Slot<N>, i: nat, j: nat)
    requires ValidNet(net) && Shaped(net, s) && i <= j <= |net.paths|
    ensures Before(net, s, j) == Run(net, Before(net, s, i), Turns(net, i, j))
  {
    RunConcat(net, s, Turns(net, 0, i), Turns(net, i, j));
    TurnsSplit(net, i, j);
  }

  /** From before b's turn to before j's: b's turn, then those in between. */
  lemma Onwards<N>(net: Net<N>, s: Slot<N>, b: nat, j: nat)
    requires ValidNet(net) && Shaped(net, s) && b < j <= |net.paths|
    ensures Before(net, s, j) == Run(net, Step(net, Before(net, s, b), b), Turns(net, b + 1, j))
  {
    OneMore(net, s, b);
    Passing(net, s, b + 1, j);
  }

  lemma SameAfterOthers<N>(net: Net<N>, s: Slot<N>, bs: seq<nat>, b: nat, c: nat)
    requires Importing(net, s) && Schedulable(net, bs) && b < |net.paths| && c < |net.paths| && Siblings(net, b, c)
    requires b !in bs && c !in bs && Even(net, s, b, c)
    ensures Even(net, Run(net, s, bs), b, c)
    ensures SameBought(net, s, b, c) ==> SameBought(net, Run(net, s, bs), b, c)
  {
    TurnsOfOthers(net, s, bs, b);
    TurnsOfOthers(net, s, bs, c);
    if !SameBought(net, s, b, c) {
      ExhaustedStaysEven(net, s, bs, b, c);
    }
  }

  /** From equal, through the first sibling's turn and the turns up to and including the second's. */
  lemma EqualStretch<N>(net: Net<N>, s: Slot<N>, b: nat, c: nat)
    requires Importing(net, s) && b < c < |net.paths| && Siblings(net, b, c)
    requires Plain(net, s, b) && Plain(net, s, c) && SameBought(net, s, b, c)
    ensures var t := Run(net, Step(net, s, b), Turns(net, b + 1, c));
      Importing(net, Step(net, t, c)) && Even(net, Step(net, t, c), b, c)
  {
    var t := Run(net, Step(net, s, b), Turns(net, b + 1, c));
    StretchStaysPlain(net, s, b, c);
    StretchBetween(net, s, t, b, c);
    ImportStep(net, t, c);
    EqualPair(net, s, t, b, c);
  }

  /** After the first sibling's turn, only others have their turns before the second's. */
  lemma StretchBetween<N>(net: Net<N>, s: Slot<N>, t: Slot<N>, b: nat, c: nat)
    requires Importing(net, s) && Importing(net, t) && b < c < |net.paths| && Siblings(net, b, c)
    requires t == Run(net, Step(net, s, b), Turns(net, b + 1, c))
    ensures OthersBetween(net, s, t, b, c)
  {
    var bs := Turns(net, b + 1, c);
    var m := Step(net, s, b);
    ImportStep(net, s, b);
    TurnsOfOthers(net, m, bs, b);
    TurnsOfOthers(net, m, bs, c);
    OthersTurn(net, s, b, c);
  }

  lemma StretchStaysPlain<N>(net: Net<N>, s: Slot<N>, b: nat, c: nat)
    requires Importing(net, s) && b < c < |net.paths| && Plain(net, s, c)
    ensures var t := Run(net, Step(net, s, b), Turns(net, b + 1, c)); Importing(net, t) && Plain(net, t, c)
  {
    var bs := Turns(net, b + 1, c);
    var m := Step(net, s, b);
    ImportStep(net, s, b);
    ImportRun(net, m, bs);
    assert Run(net, s, [b]) == m;
    PlainStaysPlain(net, s, [b], c);
    PlainStaysPlain(net, m, bs, c);
  }

  lemma ExhaustedStretch<N>(net: Net<N>, s: Slot<N>, b: nat, c: nat)
    requires Importing(net, s) && b < c < |net.paths| && Siblings(net, b, c)
    requires !Open(SharedOffer(net, s, b)) && Even(net, s, b, c)
    ensures var t := Run(net, Step(net, s, b), Turns(net, b + 1, c));
      Importing(net, Step(net, t, c)) && Even(net, Step(net, t, c), b, c)
  {
    var m := Step(net, s, b);
    var t := Run(net, m, Turns(net, b + 1, c));
    ImportStep(net, s, b);
    ExhaustedTurn(net, s, b, b, c);
    ImportRun(net, m, Turns(net, b + 1, c));
    ExhaustedStaysEven(net, m, Turns(net, b + 1, c), b, c);
    ImportStep(net, t, c);
    ExhaustedTurn(net, t, c, b, c);
  }

  /** Up to and including the second sibling's turn. */
  lemma EvenAfterBoth<N>(net: Net<N>, s: Slot<N>, b: nat, c: nat)
    requires Importing(net, s) && b < c < |net.paths| && Siblings(net, b, c)
    requires Plain(net, s, b) && Plain(net, s, c) && Even(net, s, b, c)
    ensures var t := Step(net, Before(net, s, c), c); Importing(net, t) && Even(net, t, b, c)
  {
    var bs := Turns(net, 0, b);
    var s1 := Run(net, s, bs);
    ImportRun(net, s, bs);
    SameAfterOthers(net, s, bs, b, c);
    PlainStaysPlain(net, s, bs, b);
    PlainStaysPlain(net, s, bs, c);
    Onwards(net, s, b, c);
    if SameBought(net, s1, b, c) {
      EqualStretch(net, s1, b, c);
    } else {
      ExhaustedStretch(net, s1, b, c);
    }
  }

  lemma RoundKeepsEven<N>(net: Net<N>, s: Slot<N>, b: nat, c: nat)
    requires Importing(net, s) && b < c < |net.paths| && Siblings(net, b, c)
    requires Plain(net, s, b) && Plain(net, s, c) && Even(net, s, b, c)
    ensures Even(net, Run(net, s, Everybody(net)), b, c)
  {
    EvenAfterBoth(net, s, b, c);
    Onwards(net, s, c, |net.paths|);
    SameAfterOthers(net, Step(net, Before(net, s, c), c), Turns(net, c + 1, |net.paths|), b, c);
    assert Turns(net, 0, |net.paths|) == Everybody(net);
  }

  lemma {:induction false} RoundsKeepEven<N>(net: Net<N>, b: nat, c: nat, r: nat)
    requires ValidNet(net) && ImportOnly(net) && b < c < |net.paths| && Siblings(net, b, c)
    requires Plain(net, Initial(net), b) && Plain(net, Initial(net), c)
    ensures var s := Rounds(net, Initial(net), r);
      Importing(net, s) && Plain(net, s, b) && Plain(net, s, c) && Even(net, s, b, c)
  {
    if r == 0 {
      ImportInitially(net);
    } else {
      RoundsKeepEven(net, b, c, r - 1);
      var s := Rounds(net, Initial(net), r - 1);
      ImportRun(net, s, Everybody(net));
      PlainStaysPlain(net, s, Everybody(net), b);
      PlainStaysPlain(net, s, Everybody(net), c);
      RoundKeepsEven(net, s, b, c);
    }
  }

  /** Within one slice of each other, and apart only if what they share is exhausted. */
  ghost predicate Fair<N>(net: Net<N>, s: Slot<N>, b: nat, c: nat)
    requires ValidNet(net) && Shaped(net, s) && b < |net.paths| && c < |net.paths|
  {
    var x, y := Amp(s.sold[Own(net, b)]), Amp(s.sold[Own(net, c)]);
    Abs(x - y) <= net.params.sliceA && (x != y ==> !Open(SharedOffer(net, s, b)))
  }

  lemma EvenIsFair<N>(net: Net<N>, s: Slot<N>, b: nat, c: nat)
    requires ValidNet(net) && Shaped(net, s) && b < |net.paths| && c < |net.paths| && Siblings(net, b, c)
    requires Even(net, s, b, c)
    ensures Fair(net, s, b, c) && Fair(net, s, c, b)
  {
    SharedIsShared(net, s, b, c);
  }

  /**
   * Fairness: two EVSEs under one node with equal limits and no minimum current are, after
   * every complete round, within one slice of each other, and apart only if what they share
   * is exhausted.
   */
  lemma Fairness<N>(net: Net<N>, b: nat, c: nat, r: nat)
    requires ValidNet(net) && ImportOnly(net) && b < |net.paths| && c < |net.paths| && Siblings(net, b, c)
    requires Plain(net, Initial(net), b) && Plain(net, Initial(net), c)
    ensures Fair(net, Rounds(net, Initial(net), r), b, c)
  {
    var first, second := if b < c then b else c, if b < c then c else b;
    RoundsKeepEven(net, first, second, r);
    EvenIsFair(net, Rounds(net, Initial(net), r), first, second);
  }

  /** Two amounts are within one slice of each other. */
  predicate Near(x: Sold, y: Sold, slice: real) {
    Abs(Amp(x) - Amp(y)) <= slice
  }

  lemma FairIsNear<N>(net: Net<N>, s: Slot<N>, b: nat, c: nat)
    requires ValidNet(net) && Shaped(net, s) && b < |net.paths| && c < |net.paths| && Fair(net, s, b, c)
    ensures Near(s.sold[Own(net, b)], s.sold[Own(net, c)], net.params.sliceA)
  {
  }

  lemma FairAmounts<N>(net: Net<N>, b: nat, c: nat, r: nat)
    requires ValidNet(net) && ImportOnly(net) && b < |net.paths| && c < |net.paths| && Siblings(net, b, c)
    requires Plain(net, Initial(net), b) && Plain(net, Initial(net), c)
    ensures var s := Rounds(net, Initial(net), r);
      Near(s.sold[Own(net, b)], s.sold[Own(net, c)], net.params.sliceA)
  {
    Fairness(net, b, c, r);
    FairIsNear(net, Rounds(net, Initial(net), r), b, c);
  }

  // ---------- All or minimum ----------

  /** The first-trade minimum of an offer is the largest minimum along the path. */
  lemma {:induction false} MinimumIsLargest<N>(net: Net<N>, sold: map<N, Sold>, path: seq<N>, i: nat)
    requires forall j :: 0 <= j < |path| ==> path[j] in net.imp && path[j] in net.exp && path[j] in sold
    requires i < |path| && net.imp[path[i]].minA.Some?
    ensures var m := OfferOn(net, sold, path, Import).minA; m.Some? && m.value >= net.imp[path[i]].minA.value
  {
    if i < |path| - 1 {
      MinimumIsLargest(net, sold, path[..|path| - 1], i);
    }
  }

  /** What a broker has traded so far: nothing before its first purchase, then at least its minimum. */
  ghost predicate AllOrMinimum<N>(net: Net<N>, bs: seq<nat>, b: nat)
    requires ValidNet(net) && Schedulable(net, bs) && b < |net.paths|
  {
    var x, m := Traded(Ampere, net, Initial(net), bs, b), ImportOffer(net, Initial(net), b).minA;
    if Run(net, Initial(net), bs).first[b] then x == 0.0 else m.Some? ==> x >= m.value
  }

  lemma MinimumBoughtFirst(o: Limits, p: Params)
    requires WattsPerAmpere(o, p) > 0.0 && o.maxA.Some? && MinimumFirst(o, true)
    ensures var t := ImportTrade(o, true, p); Amp(t.sold) == if t.bought then o.minA.value else 0.0
  {
  }

  lemma {:induction false} MinimumRun<N>(net: Net<N>, bs: seq<nat>, b: nat)
    requires ValidNet(net) && ImportOnly(net) && Schedulable(net, bs) && b < |net.paths|
    requires ImportOffer(net, Initial(net), b).maxA.Some? && MinimumFirst(ImportOffer(net, Initial(net), b), true)
    ensures var s := Run(net, Initial(net), bs);
      && Importing(net, s) && AllOrMinimum(net, bs, b)
      && Shrunk(ImportOffer(net, s, b), ImportOffer(net, Initial(net), b))
    decreases |bs|
  {
    ImportInitially(net);
    if bs != [] {
      var past, last := bs[..|bs| - 1], bs[|bs| - 1];
      MinimumRun(net, past, b);
      var s := Run(net, Initial(net), past);
      ImportStep(net, s, last);
      StepShrinksOffers(net, s, last, b);
      if last == b {
        ImportDecision(net, s, b);
        MinimumBoughtFirst(ImportOffer(net, s, b), net.params);
      }
    }
  }

  /** A sum of amounts, each nothing or at least m, is nothing or at least m. */
  lemma {:induction false} MarkedMinimum(xs: seq<real>, marks: seq<bool>, k: nat, m: real)
    requires k <= |xs| == |marks| && m >= 0.0
    requires forall b :: 0 <= b < |xs| && marks[b] ==> xs[b] == 0.0 || xs[b] >= m
    ensures Marked(xs, marks, k) == 0.0 || Marked(xs, marks, k) >= m
  {
    if k > 0 {
      MarkedMinimum(xs, marks, k - 1, m);
    }
  }

  /** A broker trades nothing or at least the minimum of any node on its path. */
  lemma TradesNothingOrMinimum<N>(net: Net<N>, bs: seq<nat>, b: nat, x: N)
    requires ValidNet(net) && ImportOnly(net) && Schedulable(net, bs) && b < |net.paths| && x in net.paths[b]
    requires ImportOffer(net, Initial(net), b).maxA.Some?
    requires x in net.imp && net.imp[x].minA.Some? && net.imp[x].minA.value > 0.0
    ensures var y := Traded(Ampere, net, Initial(net), bs, b); y == 0.0 || y >= net.imp[x].minA.value
  {
    assert OnNet(net, net.paths[b]);
    var i :| 0 <= i < |net.paths[b]| && net.paths[b][i] == x;
    MinimumIsLargest(net, Initial(net).sold, net.paths[b], i);
    MinimumRun(net, bs, b);
  }

  /**
   * All or minimum: at all times a node of the tree, an EVSE's or any other, has sold either nothing or at
   * least every positive minimum that is set on it or above it, and so the largest.
   */
  lemma NothingOrMinimum<N>(net: Net<N>, bs: seq<nat>, n: N, x: N)
    requires ValidNet(net) && ImportOnly(net) && Schedulable(net, bs) && n in net.imp
    requires forall b :: 0 <= b < |net.paths| && n in net.paths[b] ==>
      x in net.paths[b] && ImportOffer(net, Initial(net), b).maxA.Some?
    requires x in net.imp && net.imp[x].minA.Some? && net.imp[x].minA.value > 0.0
    ensures var y := Amp(Run(net, Initial(net), bs).sold[n]); y == 0.0 || y >= net.imp[x].minA.value
  {
    forall b | 0 <= b < |net.paths| && n in net.paths[b]
      ensures var y := Traded(Ampere, net, Initial(net), bs, b); y == 0.0 || y >= net.imp[x].minA.value
    {
      TradesNothingOrMinimum(net, bs, b, x);
    }
    Conservation(Ampere, net, bs, n);
    MarkedMinimum(AllTraded(Ampere, net, Initial(net), bs), Through(net, n), |net.paths|, net.imp[x].minA.value);
  }
}
