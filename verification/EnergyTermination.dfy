/**
 * The trading loop settles on its own when every offer carries an ampere limit, within a
 * number of rounds known beforehand; a market with watt limits only never settles.
 */
module EnergyTermination {
  import opened Wrappers
  import opened EnergySlot
  import opened EnergySafety
  import opened EnergyImport
  import opened EnergyProgress

  ghost predicate AmpereLimited<N>(net: Net<N>, s: Slot<N>)
    requires ValidNet(net) && Shaped(net, s)
  {
    forall b :: 0 <= b < |net.paths| ==> ImportOffer(net, s, b).maxA.Some?
  }

  ghost function Sum(xs: seq<int>): int {
    if xs == [] then 0 else Sum(xs[..|xs| - 1]) + xs[|xs| - 1]
  }

  lemma {:induction false} SumNonNegative(xs: seq<int>)
    requires forall i :: 0 <= i < |xs| ==> xs[i] >= 0
    ensures Sum(xs) >= 0
  {
    if xs != [] {
      SumNonNegative(xs[..|xs| - 1]);
    }
  }

  /** No summand grows and one falls by d: the sum falls by d. */
  lemma {:induction false} SumFalls(xs: seq<int>, ys: seq<int>, k: nat, d: nat)
    requires |xs| == |ys| && k < |xs|
    requires forall i :: 0 <= i < |xs| ==> ys[i] <= xs[i] - if i == k then d else 0
    ensures Sum(ys) <= Sum(xs) - d
  {
    var last := |xs| - 1;
    if k < last {
      SumFalls(xs[..last], ys[..last], k, d);
    } else if last > 0 {
      SumFalls(xs[..last], ys[..last], 0, 0);
    }
  }

  /** The purchases each broker can still make in a slot. */
  ghost function Budgets<N>(net: Net<N>, s: Slot<N>): seq<int>
    requires ValidNet(net) && Shaped(net, s)
  {
    seq(|net.paths|, b requires 0 <= b < |net.paths| => Budget(net, s, b))
  }

  ghost function SlotBudget<N>(net: Net<N>, s: Slot<N>): int
    requires ValidNet(net) && Shaped(net, s)
  {
    Sum(Budgets(net, s))
  }

  lemma SlotBudgetNonNegative<N>(net: Net<N>, s: Slot<N>)
    requires Importing(net, s)
    ensures SlotBudget(net, s) >= 0
  {
    forall b | 0 <= b < |net.paths|
      ensures Budgets(net, s)[b] >= 0
    {
      BudgetNonNegative(net, s, b);
    }
    SumNonNegative(Budgets(net, s));
  }

  lemma TurnSpends<N>(net: Net<N>, s: Slot<N>, b: nat)
    requires Importing(net, s) && AmpereLimited(net, s) && b < |net.paths|
    ensures SlotBudget(net, Step(net, s, b)) <= SlotBudget(net, s) - if Decision(net, s, b).bought then 1 else 0
  {
    var d := if Decision(net, s, b).bought then 1 else 0;
    forall c | 0 <= c < |net.paths|
      ensures Budget(net, Step(net, s, b), c) <= Budget(net, s, c) - if c == b then d else 0
    {
      BudgetNeverGrows(net, s, b, c);
      if c == b && d == 1 {
        BudgetSpent(net, s, b);
      }
    }
    SumFalls(Budgets(net, s), Budgets(net, Step(net, s, b)), b, d);
  }

  lemma AmpereLimitedStep<N>(net: Net<N>, s: Slot<N>, b: nat)
    requires Importing(net, s) && AmpereLimited(net, s) && b < |net.paths|
    ensures AmpereLimited(net, Step(net, s, b))
  {
    forall c | 0 <= c < |net.paths|
      ensures ImportOffer(net, Step(net, s, b), c).maxA.Some?
    {
      StepShrinksOffers(net, s, b, c);
    }
  }

  lemma {:induction false} RunSpends<N>(net: Net<N>, s: Slot<N>, bs: seq<nat>)
    requires Importing(net, s) && AmpereLimited(net, s) && Schedulable(net, bs)
    ensures AmpereLimited(net, Run(net, s, bs))
    ensures SlotBudget(net, Run(net, s, bs)) <= SlotBudget(net, s) - if Quiet(net, s, bs) then 0 else 1
    decreases |bs|
  {
    if bs != [] {
      var past, last := bs[..|bs| - 1], bs[|bs| - 1];
      RunSpends(net, s, past);
      ImportRun(net, s, past);
      TurnSpends(net, Run(net, s, past), last);
      AmpereLimitedStep(net, Run(net, s, past), last);
    }
  }

  // ---------- A whole schedule: one net per time slot ----------

  ghost predicate AllValid<N>(nets: seq<Net<N>>) {
    forall j :: 0 <= j < |nets| ==> ValidNet(nets[j])
  }

  /** A slot in which energy is only imported, and offers are limited in amperes. */
  ghost predicate ImportableSlot<N>(net: Net<N>)
    requires ValidNet(net)
  {
    ImportOnly(net) && AmpereLimited(net, Initial(net))
  }

  ghost predicate Importable<N>(nets: seq<Net<N>>) {
    AllValid(nets) && forall j {:trigger ImportableSlot(nets[j])} :: 0 <= j < |nets| ==> ImportableSlot(nets[j])
  }

  ghost function After<N>(nets: seq<Net<N>>, j: nat, r: nat): (s: Slot<N>)
    requires j < |nets| && ValidNet(nets[j])
    ensures Shaped(nets[j], s)
  {
    Rounds(nets[j], Initial(nets[j]), r)
  }

  ghost predicate QuietIn<N>(nets: seq<Net<N>>, r: nat, j: nat)
    requires j < |nets| && ValidNet(nets[j])
  {
    Quiet(nets[j], After(nets, j, r), Everybody(nets[j]))
  }

  /** Round r (counting from 0) has no trade in any slot: the loop stops. */
  ghost predicate QuietRound<N>(nets: seq<Net<N>>, r: nat)
    requires AllValid(nets)
  {
    forall j :: 0 <= j < |nets| ==> QuietIn(nets, r, j)
  }

  ghost predicate Loud<N>(nets: seq<Net<N>>, r: nat)
    requires AllValid(nets)
  {
    !QuietRound(nets, r)
  }

  /** None of the first r rounds is quiet. */
  ghost predicate AllLoud<N>(nets: seq<Net<N>>, r: nat)
    requires AllValid(nets)
  {
    forall k :: 0 <= k < r ==> Loud(nets, k)
  }

  lemma {:induction false} AfterImporting<N>(nets: seq<Net<N>>, j: nat, r: nat)
    requires Importable(nets) && j < |nets|
    ensures Importing(nets[j], After(nets, j, r)) && AmpereLimited(nets[j], After(nets, j, r))
  {
    if r == 0 {
      assert ImportableSlot(nets[j]);
      ImportInitially(nets[j]);
    } else {
      AfterImporting(nets, j, r - 1);
      ImportRun(nets[j], After(nets, j, r - 1), Everybody(nets[j]));
      RunSpends(nets[j], After(nets, j, r - 1), Everybody(nets[j]));
    }
  }

  /** The purchases all brokers together can still make in each slot, after r rounds. */
  ghost function SlotBudgets<N>(nets: seq<Net<N>>, r: nat): seq<int>
    requires AllValid(nets)
  {
    seq(|nets|, j requires 0 <= j < |nets| => SlotBudget(nets[j], After(nets, j, r)))
  }

  /** A budget is spent when it falls, in total, from one round to the next. */
  ghost predicate Spent(xs: seq<int>, ys: seq<int>) {
    |xs| == |ys| && Sum(ys) <= Sum(xs) - 1
  }

  lemma {:induction false} SlotBudgetsNonNegative<N>(nets: seq<Net<N>>, r: nat)
    requires Importable(nets)
    ensures Sum(SlotBudgets(nets, r)) >= 0
  {
    forall j | 0 <= j < |nets|
      ensures SlotBudgets(nets, r)[j] >= 0
    {
      AfterImporting(nets, j, r);
      SlotBudgetNonNegative(nets[j], After(nets, j, r));
    }
    SumNonNegative(SlotBudgets(nets, r));
  }

  lemma SlotRoundSpends<N>(nets: seq<Net<N>>, r: nat, j: nat)
    requires Importable(nets) && j < |nets|
    ensures SlotBudgets(nets, r + 1)[j] <= SlotBudgets(nets, r)[j] - if QuietIn(nets, r, j) then 0 else 1
  {
    AfterImporting(nets, j, r);
    RunSpends(nets[j], After(nets, j, r), Everybody(nets[j]));
  }

  lemma RoundSpends<N>(nets: seq<Net<N>>, r: nat, loud: nat)
    requires Importable(nets) && loud < |nets| && !QuietIn(nets, r, loud)
    ensures Spent(SlotBudgets(nets, r), SlotBudgets(nets, r + 1))
  {
    var xs, ys := SlotBudgets(nets, r), SlotBudgets(nets, r + 1);
    forall j | 0 <= j < |nets|
      ensures ys[j] <= xs[j] - if j == loud then 1 else 0
    {
      SlotRoundSpends(nets, r, j);
    }
    SumFalls(xs, ys, loud, 1);
  }

  lemma LoudRoundSpends<N>(nets: seq<Net<N>>, r: nat)
    requires Importable(nets) && Loud(nets, r)
    ensures Spent(SlotBudgets(nets, r), SlotBudgets(nets, r + 1))
  {
    var loud: nat :| loud < |nets| && !QuietIn(nets, r, loud);
    RoundSpends(nets, r, loud);
  }

  /** The budgets after each of the first r rounds. */
  ghost function BudgetHistory<N>(nets: seq<Net<N>>, r: nat): (h: seq<seq<int>>)
    requires AllValid(nets)
    ensures |h| == r + 1
  {
    seq(r + 1, k requires 0 <= k => SlotBudgets(nets, k))
  }

  lemma {:induction false} Descends(h: seq<seq<int>>, i: nat)
    requires i < |h| && forall k :: 0 <= k < |h| - 1 ==> Spent(h[k], h[k + 1])
    ensures i <= Sum(h[0]) - Sum(h[i])
  {
    if i > 0 {
      Descends(h, i - 1);
      assert Spent(h[i - 1], h[i]);
    }
  }

  lemma HistoryDescends<N>(nets: seq<Net<N>>, r: nat, k: nat)
    requires Importable(nets) && AllLoud(nets, r) && k < r
    ensures Spent(BudgetHistory(nets, r)[k], BudgetHistory(nets, r)[k + 1])
  {
    LoudRoundSpends(nets, k);
  }

  /** All purchases that can ever be made in a schedule. */
  ghost function ScheduleBudget<N>(nets: seq<Net<N>>): int
    requires AllValid(nets)
  {
    Sum(SlotBudgets(nets, 0))
  }

  /**
   * Progress: if none of the first r rounds was quiet, r is at most the initial budget. So
   * without its cap on the number of rounds the loop would still stop.
   */
  lemma LoopSettles<N>(nets: seq<Net<N>>, r: nat)
    requires Importable(nets)
    requires AllLoud(nets, r)
    ensures r <= ScheduleBudget(nets)
  {
    var h := BudgetHistory(nets, r);
    forall k | 0 <= k < r
      ensures Spent(h[k], h[k + 1])
    {
      HistoryDescends(nets, r, k);
    }
    Descends(h, r);
    SlotBudgetsNonNegative(nets, r);
  }

  lemma AfterWithinLimits<N>(nets: seq<Net<N>>, j: nat, r: nat)
    requires j < |nets| && ValidNet(nets[j])
    ensures WithinLimits(nets[j], After(nets, j, r))
  {
    RoundsAreRuns(nets[j], r);
    NoOverAllocation(nets[j], TurnsOfRounds(nets[j], r));
  }

  /** After a quiet round, nobody is left an offer it could use, in any slot. */
  lemma SettledIsMaximal<N>(nets: seq<Net<N>>, r: nat, j: nat, b: nat)
    requires AllValid(nets) && r > 0 && QuietRound(nets, r - 1) && j < |nets| && b < |nets[j].paths|
    ensures var s := After(nets, j, r); Unusable(ActiveOffer(nets[j], s, b), s.first[b], nets[j].params)
  {
    var s := After(nets, j, r - 1);
    AfterWithinLimits(nets, j, r - 1);
    QuietInSlot(nets, r - 1, j, s);
    QuietRoundIsFinal(nets[j], s, b);
  }

  lemma QuietInSlot<N>(nets: seq<Net<N>>, r: nat, j: nat, s: Slot<N>)
    requires AllValid(nets) && QuietRound(nets, r) && j < |nets| && s == After(nets, j, r)
    ensures Quiet(nets[j], s, Everybody(nets[j]))
  {
    assert QuietIn(nets, r, j);
  }

  // ---------- Watt limits only ----------

  /** No node of the path has a limit in amperes. */
  ghost predicate AmpereFree<N>(net: Net<N>, path: seq<N>) {
    forall i :: 0 <= i < |path| ==>
      path[i] in net.imp && path[i] in net.exp && net.imp[path[i]].maxA.None? && net.exp[path[i]].maxA.None?
  }

  /** Nobody who trades through the node has a limit in amperes. */
  ghost predicate WattsOnly<N>(net: Net<N>, n: N) {
    forall c :: 0 <= c < |net.paths| && n in net.paths[c] ==> AmpereFree(net, net.paths[c])
  }

  lemma {:induction false} AmpereFreeOffer<N>(net: Net<N>, sold: map<N, Sold>, path: seq<N>, dir: Direction)
    requires AmpereFree(net, path) && forall i :: 0 <= i < |path| ==> path[i] in sold
    ensures OfferOn(net, sold, path, dir).maxA.None?
  {
    if path != [] {
      AmpereFreeOffer(net, sold, path[..|path| - 1], dir);
    }
  }

  /** Watts bought under watt limits alone are booked as amperes. */
  lemma NothingInWatts<N>(net: Net<N>, s: Slot<N>, b: nat)
    requires ValidNet(net) && Shaped(net, s) && b < |net.paths| && AmpereFree(net, net.paths[b])
    ensures Watt(Decision(net, s, b).sold) == 0.0
  {
    assert OnNet(net, net.paths[b]);
    AmpereFreeOffer(net, s.sold, net.paths[b], Import);
    AmpereFreeOffer(net, s.sold, net.paths[b], Export);
  }

  lemma {:induction false} WattsNeverBooked<N>(net: Net<N>, bs: seq<nat>, n: N)
    requires ValidNet(net) && Schedulable(net, bs) && n in net.imp && WattsOnly(net, n)
    ensures Watt(Run(net, Initial(net), bs).sold[n]) == 0.0
    decreases |bs|
  {
    if bs != [] {
      var past, last := bs[..|bs| - 1], bs[|bs| - 1];
      WattsNeverBooked(net, past, n);
      if n in net.paths[last] {
        NothingInWatts(net, Run(net, Initial(net), past), last);
      }
    }
  }

  lemma {:induction false} SameWattOffer<N>(
    net: Net<N>, sold: map<N, Sold>, sold': map<N, Sold>, path: seq<N>, dir: Direction)
    requires forall i :: 0 <= i < |path| ==>
      path[i] in net.imp && path[i] in net.exp && path[i] in sold && path[i] in sold'
    requires forall i :: 0 <= i < |path| && (net.imp[path[i]].maxW.Some? || net.exp[path[i]].maxW.Some?) ==>
      Watt(sold[path[i]]) == Watt(sold'[path[i]])
    ensures OfferOn(net, sold, path, dir).maxW == OfferOn(net, sold', path, dir).maxW
  {
    if path != [] {
      SameWattOffer(net, sold, sold', path[..|path| - 1], dir);
    }
  }

  /** The limits in watts on broker b's path stand where nobody has a limit in amperes, nor does b. */
  ghost predicate UnderWattsOnly<N>(net: Net<N>, b: nat)
    requires ValidNet(net) && b < |net.paths|
  {
    && OnNet(net, net.paths[b]) && AmpereFree(net, net.paths[b])
    && forall i :: 0 <= i < |net.paths[b]| ==>
         net.imp[net.paths[b][i]].maxW.Some? || net.exp[net.paths[b][i]].maxW.Some? ==> WattsOnly(net, net.paths[b][i])
  }

  lemma WattOffersStay<N>(net: Net<N>, bs: seq<nat>, b: nat, dir: Direction)
    requires ValidNet(net) && Schedulable(net, bs) && b < |net.paths| && UnderWattsOnly(net, b)
    ensures var o := Offer(net, Run(net, Initial(net), bs), b, dir);
      o.maxA.None? && o.maxW == Offer(net, Initial(net), b, dir).maxW
  {
    var path, s := net.paths[b], Run(net, Initial(net), bs);
    AmpereFreeOffer(net, s.sold, path, dir);
    forall i | 0 <= i < |path| && (net.imp[path[i]].maxW.Some? || net.exp[path[i]].maxW.Some?)
      ensures Watt(s.sold[path[i]]) == Watt(Initial(net).sold[path[i]])
    {
      WattsNeverBooked(net, bs, path[i]);
    }
    SameWattOffer(net, Initial(net).sold, s.sold, path, dir);
  }

  /**
   * Under watt limits alone a broker buys on every one of its turns, for ever, if and only if it was offered any
   * watts at first, to import or, where import is shut, to export. Then no round is quiet.
   */
  lemma WattOnlyNeverSettles<N>(net: Net<N>, bs: seq<nat>, b: nat)
    requires ValidNet(net) && Schedulable(net, bs) && b < |net.paths| && UnderWattsOnly(net, b)
    ensures var imp, exp := Offer(net, Initial(net), b, Import).maxW, Offer(net, Initial(net), b, Export).maxW;
      Decision(net, Run(net, Initial(net), bs), b).bought <==>
      if imp == Some(0.0) then exp.Some? && exp.value > 0.0 else imp.Some?
  {
    var s := Run(net, Initial(net), bs);
    NoOverAllocation(net, bs);
    WattOffersStay(net, bs, b, Import);
    WattOffersStay(net, bs, b, Export);
    OfferNonNegative(net, s, b, Export);
    QuietExactly(net, s, b);
  }
}
