/**
 * The optimizer run: a market for the request tree, a broker for every EVSE, and rounds of
 * trading until nobody wants to trade any more or the rounds are used up.
 */
module EnergyManager {
  import opened Wrappers
  import opened EnergySlot
  import opened EnergySchedule
  import opened EnergyMarket
  import opened EnergyBroker
  import opened EnergyImport
  import opened EnergyProgress
  import EnergyFairness
  import opened EnergyTermination
  import opened EnergySafety
  import opened EnergyConservation
  import EnergyAlternation

  const MAX_TRADING_ROUNDS := 100
  const VALID_FOR_INTERVALS := 10

  /** The limits sent to an EVSE. */
  datatype EnforcedLimits = EnforcedLimits(uuid: string, validUntil: int, limits: Sold, schedule: seq<Sold>)

  /** The brokers stand where the paths of every net say, and trade with its parameters. */
  ghost predicate Registered(brokers: seq<BrokerFastCharging>, nodes: set<Market>, nets: seq<Net<Market>>) {
    && (forall b :: 0 <= b < |brokers| ==>
          Rooted(brokers[b].market) && PathSet(brokers[b].market) <= nodes && ValidParams(brokers[b].params))
    && (forall i :: 0 <= i < |nets| ==> ValidNet(nets[i]) && |nets[i].paths| == |brokers|)
    && (forall i, b :: 0 <= i < |nets| && 0 <= b < |brokers| ==>
          nets[i].paths[b] == Path(brokers[b].market) && nets[i].params == brokers[b].params)
    && (forall b, c :: 0 <= b < c < |brokers| ==> brokers[b] != brokers[c])
  }

  ghost function SoldOf(slots: seq<Slot<Market>>): (sold: seq<map<Market, Sold>>)
    ensures |sold| == |slots|
  {
    seq(|slots|, i requires 0 <= i < |slots| => slots[i].sold)
  }

  /** Sold schedules and first-trade flags, as values. */
  ghost function Sales(nodes: set<Market>): map<Market, seq<Sold>>
    reads nodes`soldRoot
  {
    map m | m in nodes :: m.soldRoot
  }

  ghost function Firsts(brokers: seq<BrokerFastCharging>): seq<seq<bool>>
    reads brokers
  {
    seq(|brokers|, b requires 0 <= b < |brokers| reads brokers => brokers[b].firstTrade)
  }

  ghost predicate HasLimits(nodes: set<Market>, nets: seq<Net<Market>>) {
    && (forall m :: m in nodes ==> |m.importMax| == |m.exportMax| == |nets|)
    && (forall i :: 0 <= i < |nets| ==> nets[i].imp.Keys == nets[i].exp.Keys == nodes)
    && (forall i, m :: 0 <= i < |nets| && m in nodes ==>
          nets[i].imp[m] == m.importMax[i] && nets[i].exp[m] == m.exportMax[i])
  }

  /** The slots hold what markets and brokers hold. */
  ghost predicate Mirrors(slots: seq<Slot<Market>>, sales: map<Market, seq<Sold>>, firsts: seq<seq<bool>>) {
    && (forall m :: m in sales ==> |sales[m]| == |slots|)
    && (forall b :: 0 <= b < |firsts| ==> |firsts[b]| == |slots|)
    && (forall i :: 0 <= i < |slots| ==> slots[i].sold.Keys == sales.Keys && |slots[i].first| == |firsts|)
    && (forall i, m :: 0 <= i < |slots| && m in sales ==> slots[i].sold[m] == sales[m][i])
    && (forall i, b :: 0 <= i < |slots| && 0 <= b < |firsts| ==> slots[i].first[b] == firsts[b][i])
  }

  ghost predicate AllShaped(slots: seq<Slot<Market>>, nets: seq<Net<Market>>) {
    |slots| == |nets| && forall i :: 0 <= i < |nets| ==> ValidNet(nets[i]) && Shaped(nets[i], slots[i])
  }

  /** All slots after broker b's turn. */
  ghost function TurnOf(nets: seq<Net<Market>>, slots: seq<Slot<Market>>, b: nat): (slots': seq<Slot<Market>>)
    requires AllShaped(slots, nets) && forall i :: 0 <= i < |nets| ==> b < |nets[i].paths|
    ensures AllShaped(slots', nets) && forall i :: 0 <= i < |nets| ==> slots'[i] == Step(nets[i], slots[i], b)
  {
    seq(|nets|, i requires 0 <= i < |nets| => Step(nets[i], slots[i], b))
  }

  /** Broker b of every net stands at a market place and trades with the given parameters. */
  ghost predicate Stands(nets: seq<Net<Market>>, b: nat, market: Market, p: Params)
    requires Rooted(market)
  {
    forall i :: 0 <= i < |nets| ==>
      b < |nets[i].paths| && nets[i].paths[b] == Path(market) && nets[i].params == p
  }

  /** A broker's first-trade flags are those of the slots. */
  ghost predicate FirstFits(first: seq<bool>, slots: seq<Slot<Market>>, b: nat) {
    |first| == |slots| && forall i :: 0 <= i < |slots| ==> b < |slots[i].first| && first[i] == slots[i].first[b]
  }

  lemma DecisionMatches(imp: Limits, exp: Limits, net: Net<Market>, s: Slot<Market>, b: nat, market: Market)
    requires ValidNet(net) && Shaped(net, s) && b < |net.paths|
    requires Rooted(market) && PathSet(market) <= s.sold.Keys && net.paths[b] == Path(market)
    requires OfferIs(imp, net, s.sold, market, Import) && OfferIs(exp, net, s.sold, market, Export)
    ensures Tradable(imp, net.params) && Tradable(exp, net.params)
    ensures Decide(imp, exp, s.first[b], net.params) == Decision(net, s, b)
  {
    PathWithin(market, s.sold.Keys);
    PhasesOnPath(net, s.sold, Path(market), Import);
    PhasesOnPath(net, s.sold, Path(market), Export);
  }

  /** The offers made at broker b's market place lead to the decisions of its turn. */
  lemma OffersDecide(imports: seq<Limits>, exports: seq<Limits>, first: seq<bool>, p: Params,
                     nets: seq<Net<Market>>, slots: seq<Slot<Market>>, b: nat, market: Market)
    requires AllShaped(slots, nets) && |imports| == |exports| == |first| == |nets| && ValidParams(p) && Rooted(market)
    requires Stands(nets, b, market, p) && FirstFits(first, slots, b)
    requires forall i :: 0 <= i < |nets| ==> PathSet(market) <= slots[i].sold.Keys
    requires forall i :: 0 <= i < |nets| ==> OfferIs(imports[i], nets[i], slots[i].sold, market, Import)
    requires forall i :: 0 <= i < |nets| ==> OfferIs(exports[i], nets[i], slots[i].sold, market, Export)
    ensures CanDecide(imports, exports, first, p)
    ensures forall i :: 0 <= i < |nets| ==> Decisions(imports, exports, first, p)[i] == Decision(nets[i], slots[i], b)
  {
    forall i | 0 <= i < |nets|
      ensures Tradable(imports[i], p) && Tradable(exports[i], p)
      ensures Decide(imports[i], exports[i], first[i], p) == Decision(nets[i], slots[i], b)
    {
      DecisionMatches(imports[i], exports[i], nets[i], slots[i], b, market);
    }
  }

  /** What a market place has sold after broker b's turn. */
  lemma SoldAfterTurn(net: Net<Market>, s: Slot<Market>, b: nat, market: Market, m: Market)
    requires ValidNet(net) && Shaped(net, s) && b < |net.paths| && Rooted(market) && net.paths[b] == Path(market)
    requires m in s.sold
    ensures Step(net, s, b).sold[m] ==
      if m in PathSet(market) then AddSold(s.sold[m], Decision(net, s, b).sold) else s.sold[m]
  {
    OnPath(market, m);
  }

  /** The decisions of broker b in all slots. */
  ghost function DecisionsOf(nets: seq<Net<Market>>, slots: seq<Slot<Market>>, b: nat): (ts: seq<Trade>)
    requires AllShaped(slots, nets) && forall i :: 0 <= i < |nets| ==> b < |nets[i].paths|
    ensures |ts| == |nets| && forall i :: 0 <= i < |nets| ==> ts[i] == Decision(nets[i], slots[i], b)
  {
    seq(|nets|, i requires 0 <= i < |nets| => Decision(nets[i], slots[i], b))
  }

  ghost predicate AnyBought(ts: seq<Trade>) {
    exists i :: 0 <= i < |ts| && ts[i].bought
  }

  /** What a purchase makes of a broker's first-trade flags. */
  ghost predicate FlagsFall(first: seq<bool>, before: seq<bool>, ts: seq<Trade>) {
    |first| == |before| == |ts| && forall i :: 0 <= i < |ts| ==> first[i] == (before[i] && !ts[i].bought)
  }

  ghost predicate Sells(trading: seq<Sold>, ts: seq<Trade>) {
    |trading| == |ts| && forall i :: 0 <= i < |ts| ==> trading[i] == ts[i].sold
  }

  /** An offer at the broker's market place, then its trade. */
  method OfferAndTrade(broker: BrokerFastCharging, ghost b: nat, ghost nodes: set<Market>, ghost nets: seq<Net<Market>>,
                       ghost slots: seq<Slot<Market>>) returns (traded: bool)
    requires Rooted(broker.market) && PathSet(broker.market) <= nodes && ValidParams(broker.params)
    requires AllShaped(slots, nets) && Shows(nodes, nets, SoldOf(slots))
    requires Stands(nets, b, broker.market, broker.params) && FirstFits(broker.firstTrade, slots, b)
    modifies broker, PathSet(broker.market)`soldRoot
    ensures var ts := DecisionsOf(nets, slots, b);
      && Sells(broker.trading, ts) && FlagsFall(broker.firstTrade, old(broker.firstTrade), ts)
      && (traded <==> AnyBought(ts))
    ensures forall m :: m in nodes ==>
      m.soldRoot ==
        if m in PathSet(broker.market) then AddSchedules(old(m.soldRoot), broker.trading) else old(m.soldRoot)
  {
    var offer := new Offer(broker.market, nodes, nets, SoldOf(slots));
    OffersDecide(offer.importOffer, offer.exportOffer, broker.firstTrade, broker.params, nets, slots, b, broker.market);
    assert Decisions(offer.importOffer, offer.exportOffer, broker.firstTrade, broker.params)
        == DecisionsOf(nets, slots, b);
    traded := broker.Trade(offer, nodes);
  }

  /** The sales after a purchase is booked on the path to a market place. */
  ghost function BookedSales(sales: map<Market, seq<Sold>>, market: Market, trading: seq<Sold>): map<Market, seq<Sold>>
    requires Rooted(market)
  {
    map m | m in sales :: if m in PathSet(market) then AddSchedules(sales[m], trading) else sales[m]
  }

  /** The same, with the effect on all market places as one value. */
  method OfferAndBook(broker: BrokerFastCharging, ghost b: nat, ghost nodes: set<Market>, ghost nets: seq<Net<Market>>,
                      ghost slots: seq<Slot<Market>>) returns (traded: bool)
    requires Rooted(broker.market) && PathSet(broker.market) <= nodes && ValidParams(broker.params)
    requires AllShaped(slots, nets) && Shows(nodes, nets, SoldOf(slots))
    requires Stands(nets, b, broker.market, broker.params) && FirstFits(broker.firstTrade, slots, b)
    modifies broker, PathSet(broker.market)`soldRoot
    ensures var ts := DecisionsOf(nets, slots, b);
      && Sells(broker.trading, ts) && FlagsFall(broker.firstTrade, old(broker.firstTrade), ts)
      && (traded <==> AnyBought(ts))
    ensures Sales(nodes) == BookedSales(old(Sales(nodes)), broker.market, broker.trading)
  {
    traded := OfferAndTrade(broker, b, nodes, nets, slots);
  }

  lemma TurnBooks(nets: seq<Net<Market>>, slots: seq<Slot<Market>>, b: nat, market: Market, p: Params,
                  sales: map<Market, seq<Sold>>, trading: seq<Sold>, i: nat, m: Market)
    requires AllShaped(slots, nets) && Rooted(market) && Stands(nets, b, market, p)
    requires i < |nets| && m in sales && m in slots[i].sold && |sales[m]| == |nets|
    requires slots[i].sold[m] == sales[m][i] && Sells(trading, DecisionsOf(nets, slots, b))
    ensures TurnOf(nets, slots, b)[i].sold[m] == BookedSales(sales, market, trading)[m][i]
  {
    SoldAfterTurn(nets[i], slots[i], b, market, m);
  }

  lemma TurnMirrors(nets: seq<Net<Market>>, slots: seq<Slot<Market>>, b: nat, market: Market, p: Params,
                    sales: map<Market, seq<Sold>>, trading: seq<Sold>, firsts: seq<seq<bool>>, first: seq<bool>)
    requires AllShaped(slots, nets) && Mirrors(slots, sales, firsts) && Rooted(market) && b < |firsts|
    requires Stands(nets, b, market, p)
    requires Sells(trading, DecisionsOf(nets, slots, b)) && FlagsFall(first, firsts[b], DecisionsOf(nets, slots, b))
    ensures Mirrors(TurnOf(nets, slots, b), BookedSales(sales, market, trading), firsts[b := first])
  {
    var slots', sales' := TurnOf(nets, slots, b), BookedSales(sales, market, trading);
    forall i, m | 0 <= i < |nets| && m in sales
      ensures slots'[i].sold[m] == sales'[m][i]
    {
      TurnBooks(nets, slots, b, market, p, sales, trading, i, m);
    }
  }

  lemma MirrorsShow(nodes: set<Market>, nets: seq<Net<Market>>, slots: seq<Slot<Market>>, firsts: seq<seq<bool>>)
    requires |slots| == |nets| && HasLimits(nodes, nets) && Mirrors(slots, Sales(nodes), firsts)
    ensures Shows(nodes, nets, SoldOf(slots))
    ensures forall b :: 0 <= b < |firsts| ==> FirstFits(firsts[b], slots, b)
  {
    assert forall m :: m in nodes ==> m in Sales(nodes) && Sales(nodes)[m] == m.soldRoot;
  }

  lemma BrokerStands(brokers: seq<BrokerFastCharging>, b: nat, nodes: set<Market>, nets: seq<Net<Market>>)
    requires b < |brokers| && Registered(brokers, nodes, nets)
    ensures Rooted(brokers[b].market) && PathSet(brokers[b].market) <= nodes && ValidParams(brokers[b].params)
    ensures Stands(nets, b, brokers[b].market, brokers[b].params)
  {
  }

  /** One broker's turn. */
  method Turn(brokers: seq<BrokerFastCharging>, b: nat, ghost nodes: set<Market>, ghost nets: seq<Net<Market>>,
              ghost slots: seq<Slot<Market>>) returns (traded: bool)
    requires b < |brokers| && Registered(brokers, nodes, nets) && AllShaped(slots, nets) && HasLimits(nodes, nets)
    requires Mirrors(slots, Sales(nodes), Firsts(brokers))
    modifies brokers[b], PathSet(brokers[b].market)`soldRoot
    ensures Mirrors(TurnOf(nets, slots, b), Sales(nodes), Firsts(brokers))
    ensures traded <==> AnyBought(DecisionsOf(nets, slots, b))
  {
    ghost var sales, firsts := Sales(nodes), Firsts(brokers);
    assert firsts[b] == brokers[b].firstTrade;
    BrokerStands(brokers, b, nodes, nets);
    MirrorsShow(nodes, nets, slots, firsts);
    traded := OfferAndBook(brokers[b], b, nodes, nets, slots);
    assert Firsts(brokers) == firsts[b := brokers[b].firstTrade];
    TurnMirrors(nets, slots, b, brokers[b].market, brokers[b].params, sales, brokers[b].trading, firsts,
                brokers[b].firstTrade);
  }

  // ---------- Rounds ----------

  /** The nets of all slots know the same number of brokers. */
  ghost predicate ForBrokers(nets: seq<Net<Market>>, n: nat) {
    forall i :: 0 <= i < |nets| ==> |nets[i].paths| == n
  }

  /** All slots of a round that began with the given slots, before the turn of broker b. */
  ghost function BeforeTurn(nets: seq<Net<Market>>, start: seq<Slot<Market>>, b: nat): (now: seq<Slot<Market>>)
    requires AllShaped(start, nets) && forall i :: 0 <= i < |nets| ==> b <= |nets[i].paths|
    ensures AllShaped(now, nets)
  {
    seq(|nets|, i requires 0 <= i < |nets| => EnergyFairness.Before(nets[i], start[i], b))
  }

  /** Nobody before broker b buys in the round. */
  ghost predicate QuietUpTo(nets: seq<Net<Market>>, start: seq<Slot<Market>>, b: nat)
    requires AllShaped(start, nets) && forall i :: 0 <= i < |nets| ==> b <= |nets[i].paths|
  {
    b == 0 || (QuietUpTo(nets, start, b - 1) && !AnyBought(DecisionsOf(nets, BeforeTurn(nets, start, b - 1), b - 1)))
  }

  lemma NextTurn(nets: seq<Net<Market>>, start: seq<Slot<Market>>, b: nat)
    requires AllShaped(start, nets) && forall i :: 0 <= i < |nets| ==> b < |nets[i].paths|
    ensures TurnOf(nets, BeforeTurn(nets, start, b), b) == BeforeTurn(nets, start, b + 1)
  {
    forall i | 0 <= i < |nets|
      ensures EnergyFairness.Before(nets[i], start[i], b + 1)
        == Step(nets[i], EnergyFairness.Before(nets[i], start[i], b), b)
    {
      EnergyFairness.OneMore(nets[i], start[i], b);
    }
  }

  lemma FirstTurn(nets: seq<Net<Market>>, start: seq<Slot<Market>>)
    requires AllShaped(start, nets)
    ensures BeforeTurn(nets, start, 0) == start
  {
  }

  /** The turn of broker b in a round. */
  method TurnInRound(brokers: seq<BrokerFastCharging>, b: nat, ghost nodes: set<Market>, ghost nets: seq<Net<Market>>,
                     ghost start: seq<Slot<Market>>) returns (traded: bool)
    requires b < |brokers| && Registered(brokers, nodes, nets) && AllShaped(start, nets) && HasLimits(nodes, nets)
    requires Mirrors(BeforeTurn(nets, start, b), Sales(nodes), Firsts(brokers))
    modifies brokers, nodes`soldRoot
    ensures Mirrors(BeforeTurn(nets, start, b + 1), Sales(nodes), Firsts(brokers))
    ensures QuietUpTo(nets, start, b + 1) <==> QuietUpTo(nets, start, b) && !traded
  {
    BrokerStands(brokers, b, nodes, nets);
    NextTurn(nets, start, b);
    traded := Turn(brokers, b, nodes, nets, BeforeTurn(nets, start, b));
  }

  /** The turns of a round from broker first on, when nobody has bought before. */
  method TurnsFrom(brokers: seq<BrokerFastCharging>, first: nat, ghost nodes: set<Market>,
                   ghost nets: seq<Net<Market>>, ghost start: seq<Slot<Market>>) returns (traded: bool)
    requires first <= |brokers|
    requires Registered(brokers, nodes, nets) && AllShaped(start, nets) && HasLimits(nodes, nets)
    requires Mirrors(BeforeTurn(nets, start, first), Sales(nodes), Firsts(brokers)) && QuietUpTo(nets, start, first)
    modifies brokers, nodes`soldRoot
    ensures Mirrors(BeforeTurn(nets, start, |brokers|), Sales(nodes), Firsts(brokers))
    ensures !traded <==> QuietUpTo(nets, start, |brokers|)
  {
    traded := false;
    ghost var slots := BeforeTurn(nets, start, first);
    for b := first to |brokers|
      invariant Mirrors(slots, Sales(nodes), Firsts(brokers))
      invariant slots == BeforeTurn(nets, start, b)
      invariant !traded <==> QuietUpTo(nets, start, b)
    {
      var ok := TurnInRound(brokers, b, nodes, nets, start);
      slots := BeforeTurn(nets, start, b + 1);
      if ok {
        traded := true;
      }
    }
  }

  /** One trading round: every broker gets one turn. */
  method Round(brokers: seq<BrokerFastCharging>, ghost nodes: set<Market>, ghost nets: seq<Net<Market>>,
               ghost start: seq<Slot<Market>>) returns (traded: bool)
    requires Registered(brokers, nodes, nets) && AllShaped(start, nets) && HasLimits(nodes, nets)
    requires Mirrors(start, Sales(nodes), Firsts(brokers))
    modifies brokers, nodes`soldRoot
    ensures Mirrors(BeforeTurn(nets, start, |brokers|), Sales(nodes), Firsts(brokers))
    ensures !traded <==> QuietUpTo(nets, start, |brokers|)
  {
    FirstTurn(nets, start);
    traded := TurnsFrom(brokers, 0, nodes, nets, start);
  }

  // ---------- The run ----------

  /** All slots after r complete rounds. */
  ghost function AfterRounds(nets: seq<Net<Market>>, r: nat): (slots: seq<Slot<Market>>)
    requires forall i :: 0 <= i < |nets| ==> ValidNet(nets[i])
    ensures AllShaped(slots, nets)
  {
    seq(|nets|, i requires 0 <= i < |nets| => After(nets, i, r))
  }

  lemma RoundDone(nets: seq<Net<Market>>, r: nat, n: nat)
    requires (forall i :: 0 <= i < |nets| ==> ValidNet(nets[i])) && ForBrokers(nets, n)
    ensures BeforeTurn(nets, AfterRounds(nets, r), n) == AfterRounds(nets, r + 1)
  {
    forall i | 0 <= i < |nets|
      ensures EnergyFairness.Before(nets[i], After(nets, i, r), n) == After(nets, i, r + 1)
    {
      assert EnergyFairness.Turns(nets[i], 0, n) == Everybody(nets[i]);
    }
  }

  lemma {:induction false} QuietUpToExactly(nets: seq<Net<Market>>, start: seq<Slot<Market>>, b: nat)
    requires AllShaped(start, nets) && forall i :: 0 <= i < |nets| ==> b <= |nets[i].paths|
    ensures QuietUpTo(nets, start, b) <==>
      forall i :: 0 <= i < |nets| ==> Quiet(nets[i], start[i], EnergyFairness.Turns(nets[i], 0, b))
  {
    if b > 0 {
      QuietUpToExactly(nets, start, b - 1);
      var ts := DecisionsOf(nets, BeforeTurn(nets, start, b - 1), b - 1);
      forall i | 0 <= i < |nets|
        ensures Quiet(nets[i], start[i], EnergyFairness.Turns(nets[i], 0, b)) <==>
                Quiet(nets[i], start[i], EnergyFairness.Turns(nets[i], 0, b - 1)) && !ts[i].bought
      {
        QuietOneMore(nets[i], start[i], b - 1);
      }
    }
  }

  lemma QuietOneMore<N>(net: Net<N>, s: Slot<N>, b: nat)
    requires ValidNet(net) && Shaped(net, s) && b < |net.paths|
    ensures Quiet(net, s, EnergyFairness.Turns(net, 0, b + 1)) <==>
      Quiet(net, s, EnergyFairness.Turns(net, 0, b)) && !Decision(net, EnergyFairness.Before(net, s, b), b).bought
  {
    var bs := EnergyFairness.Turns(net, 0, b + 1);
    assert bs[..|bs| - 1] == EnergyFairness.Turns(net, 0, b) && bs[|bs| - 1] == b;
  }

  /** A round is quiet for the optimizer exactly when it is quiet in every slot. */
  lemma QuietRoundExactly(nets: seq<Net<Market>>, r: nat, n: nat)
    requires (forall i :: 0 <= i < |nets| ==> ValidNet(nets[i])) && ForBrokers(nets, n)
    ensures QuietUpTo(nets, AfterRounds(nets, r), n) <==> QuietRound(nets, r)
  {
    QuietUpToExactly(nets, AfterRounds(nets, r), n);
    forall i | 0 <= i < |nets|
      ensures Quiet(nets[i], AfterRounds(nets, r)[i], EnergyFairness.Turns(nets[i], 0, n)) <==> QuietIn(nets, r, i)
    {
      assert EnergyFairness.Turns(nets[i], 0, n) == Everybody(nets[i]);
    }
  }

  lemma {:induction false} PathInTree(root: Market, tree: set<Market>, grid: seq<int>, m: Market)
    requires BuiltBelow(root, tree, grid) && root.parent == null && m in tree
    ensures PathSet(m) <= tree
    decreases m.depth
  {
    if m != root {
      PathInTree(root, tree, grid, m.parent);
    }
  }

  ghost predicate ScheduledValid(nodes: set<Market>) {
    forall m :: m in nodes ==> ValidSchedule(m.request.imports) && ValidSchedule(m.request.exports)
  }

  /** The net of slot i: the limits of all market places, and the paths of the EVSEs. */
  ghost function NetOf(nodes: set<Market>, evses: seq<Market>, params: Params, grid: seq<int>, i: nat): Net<Market>
    requires i < |grid| && ScheduledValid(nodes)
    requires forall b :: 0 <= b < |evses| ==> Rooted(evses[b])
  {
    Net(map m | m in nodes :: ScheduledLimits(m.request.imports, grid[i]),
        map m | m in nodes :: ScheduledLimits(m.request.exports, grid[i]),
        seq(|evses|, b requires 0 <= b < |evses| => Path(evses[b])), params)
  }

  lemma NetOfValid(nodes: set<Market>, evses: seq<Market>, params: Params, grid: seq<int>, i: nat)
    requires i < |grid| && ValidParams(params) && ScheduledValid(nodes)
    requires forall b :: 0 <= b < |evses| ==> Rooted(evses[b]) && PathSet(evses[b]) <= nodes
    ensures ValidNet(NetOf(nodes, evses, params, grid, i))
  {
    var net := NetOf(nodes, evses, params, grid, i);
    forall b | 0 <= b < |net.paths|
      ensures OnNet(net, net.paths[b])
    {
      PathWithin(evses[b], nodes);
    }
  }

  ghost function NetsOf(nodes: set<Market>, evses: seq<Market>, params: Params, grid: seq<int>)
    : (nets: seq<Net<Market>>)
    requires ScheduledValid(nodes)
    requires forall b :: 0 <= b < |evses| ==> Rooted(evses[b])
    ensures |nets| == |grid| && forall i :: 0 <= i < |grid| ==> nets[i] == NetOf(nodes, evses, params, grid, i)
  {
    seq(|grid|, i requires 0 <= i < |grid| => NetOf(nodes, evses, params, grid, i))
  }

  method CreateBrokers(evses: seq<Market>, params: Params) returns (brokers: seq<BrokerFastCharging>)
    ensures |brokers| == |evses| && fresh(brokers)
    ensures forall b :: 0 <= b < |evses| ==> brokers[b].market == evses[b] && brokers[b].params == params
    ensures forall b :: 0 <= b < |evses| ==> brokers[b].firstTrade == seq(|evses[b].importMax|, _ => true)
    ensures forall b, c :: 0 <= b < c < |brokers| ==> brokers[b] != brokers[c]
  {
    brokers := [];
    for i := 0 to |evses|
      invariant |brokers| == i && fresh(brokers)
      invariant forall b :: 0 <= b < i ==> brokers[b].market == evses[b] && brokers[b].params == params
      invariant forall b :: 0 <= b < i ==> brokers[b].firstTrade == seq(|evses[b].importMax|, _ => true)
      invariant forall b, c :: 0 <= b < c < i ==> brokers[b] != brokers[c]
    {
      var broker := new BrokerFastCharging(evses[i], params);
      brokers := brokers + [broker];
    }
  }

  method NextRound(
    brokers: seq<BrokerFastCharging>, ghost nodes: set<Market>, ghost nets: seq<Net<Market>>, ghost r: nat)
    returns (traded: bool)
    requires Registered(brokers, nodes, nets) && HasLimits(nodes, nets)
    requires Mirrors(AfterRounds(nets, r), Sales(nodes), Firsts(brokers))
    modifies brokers, nodes`soldRoot
    ensures Mirrors(AfterRounds(nets, r + 1), Sales(nodes), Firsts(brokers))
    ensures traded <==> Loud(nets, r)
  {
    RoundDone(nets, r, |brokers|);
    QuietRoundExactly(nets, r, |brokers|);
    traded := Round(brokers, nodes, nets, AfterRounds(nets, r));
  }

  /** Trades until a round is quiet, for at most MAX_TRADING_ROUNDS rounds. */
  method TradeRounds(brokers: seq<BrokerFastCharging>, ghost nodes: set<Market>, ghost nets: seq<Net<Market>>)
    returns (rounds: nat, settled: bool)
    requires Registered(brokers, nodes, nets) && HasLimits(nodes, nets)
    requires Mirrors(AfterRounds(nets, 0), Sales(nodes), Firsts(brokers))
    modifies brokers, nodes`soldRoot
    ensures Mirrors(AfterRounds(nets, rounds), Sales(nodes), Firsts(brokers))
    ensures Ended(nets, rounds, settled)
  {
    var remaining := MAX_TRADING_ROUNDS;
    rounds, settled := 0, false;
    while remaining > 0
      invariant 0 <= remaining && rounds + remaining == MAX_TRADING_ROUNDS && !settled
      invariant Mirrors(AfterRounds(nets, rounds), Sales(nodes), Firsts(brokers))
      invariant AllLoud(nets, rounds)
      decreases remaining
    {
      remaining := remaining - 1;
      var traded := NextRound(brokers, nodes, nets, rounds);
      RoundEnded(nets, rounds, traded);
      rounds := rounds + 1;
      if !traded {
        settled := true;
        break;
      }
    }
  }

  lemma RoundEnded(nets: seq<Net<Market>>, rounds: nat, traded: bool)
    requires AllValid(nets) && AllLoud(nets, rounds) && rounds < MAX_TRADING_ROUNDS
    requires traded <==> Loud(nets, rounds)
    ensures if traded then AllLoud(nets, rounds + 1) else Ended(nets, rounds + 1, true)
  {
  }

  /** The loop ends with the first quiet round, or when the rounds are used up. */
  ghost predicate Ended(nets: seq<Net<Market>>, rounds: nat, settled: bool)
    requires AllValid(nets)
  {
    && rounds <= MAX_TRADING_ROUNDS
    && if settled then 0 < rounds && QuietRound(nets, rounds - 1) && AllLoud(nets, rounds - 1)
       else rounds == MAX_TRADING_ROUNDS && AllLoud(nets, rounds)
  }

  /** If the budget is below the cap, the optimizer settles: it never stops for lack of rounds. */
  lemma SettlesWithinCap(nets: seq<Net<Market>>, rounds: nat, settled: bool)
    requires Importable(nets) && Ended(nets, rounds, settled) && ScheduleBudget(nets) < 100
    ensures settled
  {
    if !settled {
      LoopSettles(nets, rounds);
    }
  }

  /** If in any slot everybody may trade both ways and anybody buys at first, the optimizer stops for lack of rounds. */
  lemma TwoWayUsesAllRounds(nets: seq<Net<Market>>, rounds: nat, settled: bool, i: nat)
    requires AllValid(nets) && Ended(nets, rounds, settled) && i < |nets|
    requires EnergyAlternation.AllTwoWay(nets[i]) && EnergyAlternation.Ready(nets[i], Initial(nets[i]))
    ensures !settled && rounds == 100
  {
    if settled {
      EnergyAlternation.TwoWaySlotIsLoud(nets, rounds - 1, i);
    }
  }

  /** If everybody may trade both ways in every slot, the optimizer settles if and only if nobody buys at first. */
  lemma TwoWaySettlesExactly(nets: seq<Net<Market>>, rounds: nat, settled: bool)
    requires AllValid(nets) && Ended(nets, rounds, settled)
    requires forall i :: 0 <= i < |nets| ==> EnergyAlternation.AllTwoWay(nets[i])
    ensures settled <==> forall i :: 0 <= i < |nets| ==> !EnergyAlternation.Ready(nets[i], Initial(nets[i]))
  {
    if i :| 0 <= i < |nets| && EnergyAlternation.Ready(nets[i], Initial(nets[i])) {
      TwoWayUsesAllRounds(nets, rounds, settled, i);
    } else {
      forall i | 0 <= i < |nets|
        ensures QuietIn(nets, 0, i)
      {
        EnergyAlternation.NoRoundIsQuiet(nets[i], 0);
      }
      assert !Loud(nets, 0);
    }
  }

  /** All EVSE market places of a freshly built tree have their whole path in the tree. */
  lemma EvsesInTree(root: Market, tree: set<Market>, grid: seq<int>, evses: seq<Market>)
    requires BuiltBelow(root, tree, grid) && root.parent == null && forall m :: m in evses ==> m in tree
    ensures ScheduledValid(tree)
    ensures forall b :: 0 <= b < |evses| ==>
      Rooted(evses[b]) && PathSet(evses[b]) <= tree && |evses[b].importMax| == |grid|
  {
    forall b | 0 <= b < |evses|
      ensures Rooted(evses[b]) && PathSet(evses[b]) <= tree && |evses[b].importMax| == |grid|
    {
      assert evses[b] in tree;
      PathInTree(root, tree, grid, evses[b]);
    }
  }

  lemma AtTheStart(
    root: Market, tree: set<Market>, grid: seq<int>, evses: seq<Market>, brokers: seq<BrokerFastCharging>,
    params: Params)
    requires BuiltBelow(root, tree, grid) && root.parent == null && forall m :: m in evses ==> m in tree
    requires ValidParams(params) && |brokers| == |evses|
    requires forall b :: 0 <= b < |evses| ==> brokers[b].market == evses[b] && brokers[b].params == params
    requires forall b :: 0 <= b < |evses| ==> brokers[b].firstTrade == seq(|evses[b].importMax|, _ => true)
    requires forall b, c :: 0 <= b < c < |brokers| ==> brokers[b] != brokers[c]
    ensures ScheduledValid(tree) && forall b :: 0 <= b < |evses| ==> Rooted(evses[b])
    ensures var nets := NetsOf(tree, evses, params, grid);
      && Registered(brokers, tree, nets) && HasLimits(tree, nets)
      && Mirrors(AfterRounds(nets, 0), Sales(tree), Firsts(brokers))
  {
    EvsesInTree(root, tree, grid, evses);
    var nets := NetsOf(tree, evses, params, grid);
    forall i | 0 <= i < |nets|
      ensures ValidNet(nets[i])
    {
      NetOfValid(tree, evses, params, grid, i);
    }
    forall i, m | 0 <= i < |nets| && m in tree
      ensures nets[i].imp[m] == m.importMax[i] && nets[i].exp[m] == m.exportMax[i]
    {
    }
    InitiallyMirrored(nets, tree, Sales(tree), Firsts(brokers));
  }

  lemma InitiallyMirrored(
    nets: seq<Net<Market>>, tree: set<Market>, sales: map<Market, seq<Sold>>, firsts: seq<seq<bool>>)
    requires forall i :: 0 <= i < |nets| ==>
      ValidNet(nets[i]) && nets[i].imp.Keys == tree && |nets[i].paths| == |firsts|
    requires sales.Keys == tree && forall m :: m in tree ==> sales[m] == seq(|nets|, _ => NothingSold)
    requires forall b :: 0 <= b < |firsts| ==> firsts[b] == seq(|nets|, _ => true)
    ensures Mirrors(AfterRounds(nets, 0), sales, firsts)
  {
    var slots := AfterRounds(nets, 0);
    forall i | 0 <= i < |nets|
      ensures slots[i] == Initial(nets[i])
    {
    }
  }

  /** What an EVSE is sent is what its market place has sold in every slot. */
  ghost predicate Sends(e: EnforcedLimits, evse: Market, slots: seq<Slot<Market>>) {
    && e.uuid == evse.request.uuid
    && |e.schedule| == |slots| > 0 && e.limits == e.schedule[0]
    && forall i :: 0 <= i < |slots| ==> evse in slots[i].sold && e.schedule[i] == slots[i].sold[evse]
  }

  /** Every EVSE is sent what it holds. */
  ghost predicate AllSent(enforced: seq<EnforcedLimits>, evses: seq<Market>, slots: seq<Slot<Market>>) {
    |enforced| == |evses| && forall b :: 0 <= b < |evses| ==> Sends(enforced[b], evses[b], slots)
  }

  /** Everything that is sent is valid for ten intervals of updating. */
  predicate AllValidUntil(enforced: seq<EnforcedLimits>, now: int, updateInterval: nat) {
    forall b :: 0 <= b < |enforced| ==> enforced[b].validUntil == now + updateInterval * 10
  }

  method Collect(brokers: seq<BrokerFastCharging>, now: int, updateInterval: nat, ghost nodes: set<Market>,
                 ghost evses: seq<Market>, ghost slots: seq<Slot<Market>>)
    returns (enforced: seq<EnforcedLimits>)
    requires |slots| > 0 && Mirrors(slots, Sales(nodes), Firsts(brokers))
    requires |brokers| == |evses|
    requires forall b :: 0 <= b < |evses| ==> brokers[b].market == evses[b] && evses[b] in nodes
    ensures AllSent(enforced, evses, slots) && AllValidUntil(enforced, now, updateInterval)
  {
    enforced := [];
    for b := 0 to |brokers|
      invariant |enforced| == b
      invariant forall c :: 0 <= c < b ==> Sends(enforced[c], brokers[c].market, slots)
      invariant AllValidUntil(enforced, now, updateInterval)
    {
      var local := brokers[b].market;
      assert local in Sales(nodes) && Sales(nodes)[local] == local.soldRoot;
      var e := EnforcedLimits(local.request.uuid, now + updateInterval * VALID_FOR_INTERVALS, local.soldRoot[0],
                              local.soldRoot);
      enforced := enforced + [e];
    }
  }

  /** The market places stand for a request and for what its parts ask for below it. */
  ghost predicate StandFor(nodes: set<Market>, request: Request) {
    forall m :: m in nodes ==> if m.parent == null then m.request == request else m.parent in nodes && HasPlace(m)
  }

  /** No part of the request is without a market place. */
  ghost predicate Complete(nodes: set<Market>, request: Request) {
    && (exists m :: m in nodes && m.request == request)
    && forall m, i :: m in nodes && 0 <= i < |m.request.children| ==> HasChild(nodes, m, i)
  }

  /** The market of a request: its nodes, and its EVSEs in order. */
  ghost predicate MarketOf(request: Request, nodes: set<Market>, evses: seq<Market>) {
    && ScheduledValid(nodes) && StandFor(nodes, request) && Complete(nodes, request)
    && Lists(evses, nodes, EvsesOf(request))
    && (forall b :: 0 <= b < |evses| ==> Rooted(evses[b]) && PathSet(evses[b]) <= nodes)
    && (forall m :: m in nodes ==> Rooted(m))
  }

  lemma EvsesAreNodes(request: Request, nodes: set<Market>, evses: seq<Market>)
    requires MarketOf(request, nodes, evses)
    ensures forall b :: 0 <= b < |evses| ==> evses[b] in nodes
  {
    assert forall b :: 0 <= b < |evses| ==> evses[b] in evses;
  }

  /** Limits addressed to the EVSEs of a request, in its order. */
  ghost predicate AllNamed(enforced: seq<EnforcedLimits>, requests: seq<Request>) {
    |enforced| == |requests| && forall b :: 0 <= b < |requests| ==> enforced[b].uuid == requests[b].uuid
  }

  lemma SentAreNamed(request: Request, nodes: set<Market>, evses: seq<Market>, enforced: seq<EnforcedLimits>,
                     slots: seq<Slot<Market>>)
    requires MarketOf(request, nodes, evses) && AllSent(enforced, evses, slots)
    ensures AllNamed(enforced, EvsesOf(request))
  {
    assert forall b :: 0 <= b < |evses| ==> Requests(evses)[b] == evses[b].request;
  }

  lemma MarketComplete(market: Market)
    requires market.ValidTree()
    ensures Complete(market.tree, market.request)
  {
    forall m, i | m in market.tree && 0 <= i < |m.request.children|
      ensures HasChild(market.tree, m, i)
    {
      ChildrenHavePlaces(market, m, i);
    }
  }

  /** A new market for a request, and a broker for each of its EVSEs. */
  method OpenMarket(request: Request, grid: seq<int>, params: Params)
    returns (brokers: seq<BrokerFastCharging>, ghost nodes: set<Market>, ghost evses: seq<Market>)
    requires ValidRequest(request) && ValidParams(params)
    ensures fresh(nodes) && fresh(brokers) && MarketOf(request, nodes, evses)
    ensures |brokers| == |evses| && forall b :: 0 <= b < |evses| ==> brokers[b].market == evses[b]
    ensures var nets := NetsOf(nodes, evses, params, grid);
      && Registered(brokers, nodes, nets) && HasLimits(nodes, nets)
      && Mirrors(AfterRounds(nets, 0), Sales(nodes), Firsts(brokers))
  {
    var market := new Market(request, grid, null);
    nodes := market.tree;
    MarketComplete(market);
    var list := market.GetListOfEvses();
    evses := list;
    brokers := CreateBrokers(list, params);
    AtTheStart(market, nodes, grid, evses, brokers, params);
    EvsesInTree(market, nodes, grid, evses);
  }

  lemma NetsValid(request: Request, nodes: set<Market>, evses: seq<Market>, params: Params, grid: seq<int>)
    requires MarketOf(request, nodes, evses) && ValidParams(params)
    ensures AllValid(NetsOf(nodes, evses, params, grid))
  {
    forall i | 0 <= i < |grid|
      ensures ValidNet(NetsOf(nodes, evses, params, grid)[i])
    {
      NetOfValid(nodes, evses, params, grid, i);
    }
  }

  /** All slots of a request's market after r rounds. */
  ghost function Outcome(request: Request, nodes: set<Market>, evses: seq<Market>, params: Params, grid: seq<int>,
                         r: nat): (slots: seq<Slot<Market>>)
    requires MarketOf(request, nodes, evses) && ValidParams(params)
    ensures |slots| == |grid|
  {
    NetsValid(request, nodes, evses, params, grid);
    AfterRounds(NetsOf(nodes, evses, params, grid), r)
  }

  /**
   * The optimizer: what every EVSE is sent is what its market place has sold after some number
   * of complete trading rounds, the last of which was quiet unless the rounds were used up. The
   * EVSEs are those of the request, in its order.
   */
  method RunOptimizer(request: Request, grid: seq<int>, params: Params, now: int, updateInterval: nat)
    returns (enforced: seq<EnforcedLimits>, ghost nodes: set<Market>, ghost evses: seq<Market>,
             ghost rounds: nat, ghost settled: bool)
    requires ValidRequest(request) && |grid| > 0 && ValidParams(params)
    ensures MarketOf(request, nodes, evses) && AllNamed(enforced, EvsesOf(request))
    ensures AllSent(enforced, evses, Outcome(request, nodes, evses, params, grid, rounds))
    ensures AllValidUntil(enforced, now, updateInterval)
    ensures var nets := NetsOf(nodes, evses, params, grid); AllValid(nets) && Ended(nets, rounds, settled)
  {
    var brokers;
    brokers, nodes, evses := OpenMarket(request, grid, params);
    ghost var nets := NetsOf(nodes, evses, params, grid);
    var r, done := TradeRounds(brokers, nodes, nets);
    rounds, settled := r, done;
    EvsesAreNodes(request, nodes, evses);
    enforced := Collect(brokers, now, updateInterval, nodes, evses, AfterRounds(nets, rounds));
    SentAreNamed(request, nodes, evses, enforced, AfterRounds(nets, rounds));
  }

  // ---------- From the request to what the EVSEs are sent ----------

  /** After any number of rounds, what the outermost EVSEs below a node hold together is within its limits. */
  lemma HeldWithinLimits<N>(net: Net<N>, n: N, r: nat)
    requires ValidNet(net) && TreeShaped(net) && OneEach(net) && n in net.imp
    ensures var s := Rounds(net, Initial(net), r);
      && Within(net.imp[n].maxA, net.exp[n].maxA, HeldBelow(Ampere, net, s, n, |net.paths|))
      && Within(net.imp[n].maxW, net.exp[n].maxW, HeldBelow(WattUnit, net, s, n, |net.paths|))
  {
    var bs := TurnsOfRounds(net, r);
    RoundsAreRuns(net, r);
    NoOverAllocation(net, bs);
    SoldIsHeld(Ampere, net, bs, n);
    SoldIsHeld(WattUnit, net, bs, n);
  }

  lemma {:induction false} PathPrefix(m: Market, i: nat)
    requires Rooted(m) && i < |Path(m)|
    ensures Rooted(Path(m)[i]) && Path(Path(m)[i]) == Path(m)[..i + 1]
    decreases m.depth
  {
    if m.parent != null && i < |Path(m)| - 1 {
      PathPrefix(m.parent, i);
    }
  }

  lemma PathsMeet(p: Market, q: Market)
    requires Rooted(p) && Rooted(q)
    ensures SameWay(Path(p), Path(q))
  {
    forall i, j | 0 <= i < |Path(p)| && 0 <= j < |Path(q)| && Path(p)[i] == Path(q)[j]
      ensures i == j && Path(p)[..i + 1] == Path(q)[..j + 1]
    {
      PathPrefix(p, i);
      PathPrefix(q, j);
      assert |Path(p)[..i + 1]| == |Path(q)[..j + 1]|;
    }
  }

  /** The paths of a market are those of a tree, with one broker for every EVSE. */
  lemma MarketIsTree(request: Request, nodes: set<Market>, evses: seq<Market>, params: Params, grid: seq<int>, g: nat)
    requires MarketOf(request, nodes, evses) && ValidParams(params) && g < |grid|
    ensures var net := NetOf(nodes, evses, params, grid, g); ValidNet(net) && TreeShaped(net) && OneEach(net)
  {
    NetOfValid(nodes, evses, params, grid, g);
    forall b, c | 0 <= b < |evses| && 0 <= c < |evses|
      ensures SameWay(Path(evses[b]), Path(evses[c]))
    {
      PathsMeet(evses[b], evses[c]);
    }
  }

  /** From market place m down to the b-th EVSE there is no other EVSE. */
  ghost predicate OutermostEvse(evses: seq<Market>, m: Market, b: nat)
    requires b < |evses| && forall c :: 0 <= c < |evses| ==> Rooted(evses[c])
  {
    m in Path(evses[b]) &&
    forall c :: 0 <= c < |evses| && c != b ==> !(m in Path(evses[c]) && evses[c] in Path(evses[b]))
  }

  /** What the first k EVSEs are sent for a slot, as far as they are outermost below m. */
  ghost function GrantedBelow(u: Unit, enforced: seq<EnforcedLimits>, evses: seq<Market>, m: Market, g: nat, k: nat)
    : real
    requires forall c :: 0 <= c < |evses| ==> Rooted(evses[c])
    requires k <= |evses| == |enforced| && forall b :: 0 <= b < |enforced| ==> g < |enforced[b].schedule|
  {
    if k == 0 then 0.0
    else
      GrantedBelow(u, enforced, evses, m, g, k - 1)
      + if OutermostEvse(evses, m, k - 1) then Amount(enforced[k - 1].schedule[g], u) else 0.0
  }

  /** What EVSE b is sent for slot g is what its node holds there, and it counts for m on values as on objects. */
  ghost predicate GrantFits(net: Net<Market>, s: Slot<Market>, evses: seq<Market>, e: EnforcedLimits, m: Market,
                            g: nat, b: nat)
    requires ValidNet(net) && Shaped(net, s) && |net.paths| == |evses| && b < |evses|
    requires forall c :: 0 <= c < |evses| ==> Rooted(evses[c])
  {
    && g < |e.schedule| && e.schedule[g] == s.sold[Own(net, b)]
    && (OutermostEvse(evses, m, b) <==> Outermost(net, m, b))
  }

  lemma {:induction false} GrantedIsHeld(u: Unit, net: Net<Market>, s: Slot<Market>, evses: seq<Market>,
                                         enforced: seq<EnforcedLimits>, m: Market, g: nat, k: nat)
    requires ValidNet(net) && Shaped(net, s) && k <= |net.paths| == |evses| == |enforced|
    requires forall c :: 0 <= c < |evses| ==> Rooted(evses[c])
    requires forall b :: 0 <= b < |evses| ==> g < |enforced[b].schedule|
    requires forall b :: 0 <= b < |evses| ==> GrantFits(net, s, evses, enforced[b], m, g, b)
    ensures GrantedBelow(u, enforced, evses, m, g, k) == HeldBelow(u, net, s, m, k)
  {
    if k > 0 {
      GrantedIsHeld(u, net, s, evses, enforced, m, g, k - 1);
      assert GrantFits(net, s, evses, enforced[k - 1], m, g, k - 1);
    }
  }

  /** On values and on objects, the same EVSEs are outermost. */
  lemma OutermostAlike(net: Net<Market>, evses: seq<Market>, m: Market, b: nat)
    requires ValidNet(net) && |net.paths| == |evses| && b < |evses|
    requires forall c :: 0 <= c < |evses| ==> Rooted(evses[c]) && net.paths[c] == Path(evses[c])
    ensures OutermostEvse(evses, m, b) <==> Outermost(net, m, b)
  {
    forall c | 0 <= c < |evses| && c != b
      ensures Between(net, m, c, b) <==> m in Path(evses[c]) && evses[c] in Path(evses[b])
    {
      assert Own(net, c) == evses[c];
    }
  }

  lemma SentIsHeld(
    request: Request, nodes: set<Market>, evses: seq<Market>, params: Params, grid: seq<int>,
    enforced: seq<EnforcedLimits>, g: nat, r: nat, b: nat)
    requires MarketOf(request, nodes, evses) && ValidParams(params) && g < |grid| && b < |evses|
    requires AllSent(enforced, evses, Outcome(request, nodes, evses, params, grid, r))
    requires ValidNet(NetOf(nodes, evses, params, grid, g))
    ensures var net := NetOf(nodes, evses, params, grid, g);
      var s := Rounds(net, Initial(net), r);
      && |enforced[b].schedule| == |grid| && Own(net, b) in s.sold && enforced[b].schedule[g] == s.sold[Own(net, b)]
  {
    var slots := Outcome(request, nodes, evses, params, grid, r);
    assert Sends(enforced[b], evses[b], slots);
    assert slots[g] == After(NetsOf(nodes, evses, params, grid), g, r);
  }

  /** Every market place of a request stands for one of its nodes. */
  lemma {:induction false} MarketsAreNodes(request: Request, nodes: set<Market>, m: Market)
    requires StandFor(nodes, request) && m in nodes && Rooted(m)
    ensures Contains(request, m.request)
    decreases m.depth
  {
    if m.parent != null {
      MarketsAreNodes(request, nodes, m.parent);
      ContainsChild(request, m.parent.request, m.request);
    }
  }

  /** What the EVSEs below m are granted for instant t lies between the limits that m's own request sets at t. */
  ghost predicate GrantKept(enforced: seq<EnforcedLimits>, evses: seq<Market>, m: Market, t: int, g: nat)
    requires ValidSchedule(m.request.imports) && ValidSchedule(m.request.exports)
    requires |enforced| == |evses| && forall c :: 0 <= c < |evses| ==> Rooted(evses[c])
    requires forall b :: 0 <= b < |enforced| ==> g < |enforced[b].schedule|
  {
    var imp, exp := ScheduledLimits(m.request.imports, t), ScheduledLimits(m.request.exports, t);
    && Within(imp.maxA, exp.maxA, GrantedBelow(Ampere, enforced, evses, m, g, |evses|))
    && Within(imp.maxW, exp.maxW, GrantedBelow(WattUnit, enforced, evses, m, g, |evses|))
  }

  /**
   * End to end: on the grid that is created for the request, at every instant t it covers, and at every node
   * with sorted schedules, what the EVSEs below the node are sent for t, after any number of trading rounds,
   * lies together between the export and import limits which the node's own request sets at t. Where one EVSE
   * stands below another, only the upper one is counted, as it was sent what the lower one takes as well.
   */
  lemma GrantedWithinRequest(
    request: Request, nodes: set<Market>, evses: seq<Market>, params: Params, grid: seq<int>,
    enforced: seq<EnforcedLimits>, r: nat, m: Market, t: int, g: nat)
    requires MarketOf(request, nodes, evses) && ValidParams(params) && GridFor(grid, request)
    requires AllSent(enforced, evses, Outcome(request, nodes, evses, params, grid, r))
    requires m in nodes && SortedSchedule(m.request.imports) && SortedSchedule(m.request.exports)
    requires Covering(grid, t, g)
    ensures GrantKept(enforced, evses, m, t, g)
  {
    var net := NetOf(nodes, evses, params, grid, g);
    MarketIsTree(request, nodes, evses, params, grid, g);
    HeldWithinLimits(net, m, r);
    var held := Rounds(net, Initial(net), r);
    forall b | 0 <= b < |evses|
      ensures GrantFits(net, held, evses, enforced[b], m, g, b)
    {
      OutermostAlike(net, evses, m, b);
      SentIsHeld(request, nodes, evses, params, grid, enforced, g, r, b);
    }
    GrantedIsHeld(Ampere, net, held, evses, enforced, m, g, |evses|);
    GrantedIsHeld(WattUnit, net, held, evses, enforced, m, g, |evses|);
    MarketsAreNodes(request, nodes, m);
    GridRefinesEveryNode(request, m.request, grid, t, g);
  }

  /** A limit on the root side that has one on the leaf side beside it, and so is not dropped, is kept as well. */
  lemma RootLimitGranted(enforced: seq<EnforcedLimits>, evses: seq<Market>, m: Market, t: int, g: nat)
    requires ValidSchedule(m.request.imports) && ValidSchedule(m.request.exports)
    requires |enforced| == |evses| && forall c :: 0 <= c < |evses| ==> Rooted(evses[c])
    requires forall b :: 0 <= b < |enforced| ==> g < |enforced[b].schedule|
    requires GrantKept(enforced, evses, m, t, g) && m.request.imports.Some? && m.request.imports.value != []
    ensures var e := m.request.imports.value[Search(m.request.imports.value, t, 0)];
      && (e.toRoot.maxA.Some? && e.toLeaves.maxA.Some? ==>
            GrantedBelow(Ampere, enforced, evses, m, g, |evses|) <= e.toRoot.maxA.value)
      && (e.toRoot.maxW.Some? && e.toLeaves.maxW.Some? ==>
            GrantedBelow(WattUnit, enforced, evses, m, g, |evses|) <= e.toRoot.maxW.value)
  {
    RootLimitKeptExactly(m.request.imports.value[Search(m.request.imports.value, t, 0)]);
  }

  /** Every node of a request has its market place, so the bound holds for every node. */
  lemma {:induction false} NodesHaveMarkets(request: Request, nodes: set<Market>, m: Market, node: Request)
    requires Complete(nodes, request) && m in nodes && Contains(m.request, node)
    ensures exists n :: n in nodes && n.request == node
    decreases m.request
  {
    if m.request != node {
      var i :| 0 <= i < |m.request.children| && Contains(m.request.children[i], node);
      assert HasChild(nodes, m, i);
      var c :| c in nodes && c.parent == m && c.request == m.request.children[i];
      NodesHaveMarkets(request, nodes, c, node);
    }
  }

  // ---------- Requests in which no EVSE stands below another ----------

  predicate Unnested(request: Request)
    decreases request
  {
    && (request.evse ==> EvsesOfAll(request.children) == [])
    && forall i :: 0 <= i < |request.children| ==> Unnested(request.children[i])
  }

  lemma {:induction false} UnnestedNode(request: Request, node: Request)
    requires Unnested(request) && Contains(request, node)
    ensures Unnested(node)
    decreases request
  {
    if request != node {
      var i :| 0 <= i < |request.children| && Contains(request.children[i], node);
      UnnestedNode(request.children[i], node);
    }
  }

  lemma {:induction false} EvsesOfChild(requests: seq<Request>, i: nat)
    requires i < |requests| && EvsesOf(requests[i]) != []
    ensures EvsesOfAll(requests) != []
  {
    if i < |requests| - 1 {
      EvsesOfChild(requests[..|requests| - 1], i);
    }
  }

  /** A market place above an EVSE has an EVSE below it. */
  lemma {:induction false} EvsesBelow(request: Request, nodes: set<Market>, x: Market, y: Market)
    requires StandFor(nodes, request) && y in nodes && Rooted(y) && x in Path(y) && x != y
    requires EvsesOf(y.request) != []
    ensures EvsesOfAll(x.request.children) != []
    decreases y.depth
  {
    var p := y.parent;
    assert x in Path(p) && HasPlace(y);
    var i :| 0 <= i < |p.request.children| && p.request.children[i] == y.request;
    EvsesOfChild(p.request.children, i);
    if p != x {
      EvsesBelow(request, nodes, x, p);
    }
  }

  /** Without nesting, all EVSEs below a node are outermost: the bound is on their total. */
  lemma UnnestedAreOutermost(request: Request, nodes: set<Market>, evses: seq<Market>, m: Market, b: nat)
    requires MarketOf(request, nodes, evses) && Unnested(request) && b < |evses|
    ensures OutermostEvse(evses, m, b) <==> m in Path(evses[b])
  {
    EvsesAreNodes(request, nodes, evses);
    forall c | 0 <= c < |evses| && c != b
      ensures evses[c] !in Path(evses[b])
    {
      EvsesApart(request, nodes, evses, b, c);
    }
  }

  lemma EvsesApart(request: Request, nodes: set<Market>, evses: seq<Market>, b: nat, c: nat)
    requires MarketOf(request, nodes, evses) && Unnested(request) && b < |evses| && c < |evses| && b != c
    ensures evses[c] !in Path(evses[b])
  {
    EvsesAreNodes(request, nodes, evses);
    assert evses[b] in evses && evses[c] in evses;
    MarketsAreNodes(request, nodes, evses[c]);
    UnnestedNode(request, evses[c].request);
    if evses[c] in Path(evses[b]) {
      EvsesBelow(request, nodes, evses[c], evses[b]);
    }
  }

  // ---------- What is sent is maximal and fair ----------

  /**
   * Maximality of what is sent: if the rounds ended by themselves, no EVSE is left an offer it could use, in any
   * slot, beside what it is sent.
   */
  lemma SentIsMaximal(request: Request, nodes: set<Market>, evses: seq<Market>, params: Params, grid: seq<int>,
                      rounds: nat, b: nat, g: nat)
    requires MarketOf(request, nodes, evses) && ValidParams(params) && g < |grid| && b < |evses|
    requires AllValid(NetsOf(nodes, evses, params, grid)) && Ended(NetsOf(nodes, evses, params, grid), rounds, true)
    ensures var net, s := NetsOf(nodes, evses, params, grid)[g],
        Outcome(request, nodes, evses, params, grid, rounds)[g];
      && Shaped(net, s) && Unusable(ActiveOffer(net, s, b), s.first[b], params)
  {
    SettledIsMaximal(NetsOf(nodes, evses, params, grid), rounds, g, b);
  }

  /** Two EVSEs below one node that ask for the same are siblings in every slot. */
  lemma SiblingEvses(request: Request, nodes: set<Market>, evses: seq<Market>, params: Params, grid: seq<int>, g: nat,
                     b: nat, c: nat)
    requires MarketOf(request, nodes, evses) && ValidParams(params) && g < |grid| && Unnested(request)
    requires b < |evses| && c < |evses| && b != c && evses[b].request.imports == evses[c].request.imports
    requires evses[b].parent != null && evses[b].parent == evses[c].parent
    ensures var net := NetOf(nodes, evses, params, grid, g); ValidNet(net) && EnergyFairness.Siblings(net, b, c)
  {
    NetOfValid(nodes, evses, params, grid, g);
    EvsesAreNodes(request, nodes, evses);
    EvseAlone(request, nodes, evses, params, grid, g, b);
    EvseAlone(request, nodes, evses, params, grid, g, c);
  }

  lemma EvseAlone(request: Request, nodes: set<Market>, evses: seq<Market>, params: Params, grid: seq<int>, g: nat,
                  b: nat)
    requires MarketOf(request, nodes, evses) && Unnested(request) && b < |evses| && g < |grid|
    requires ValidNet(NetOf(nodes, evses, params, grid, g))
    ensures var net := NetOf(nodes, evses, params, grid, g);
      && EnergyFairness.Alone(net, b) && Own(net, b) == evses[b]
      && EnergyFairness.Shared(net, b) == if evses[b].parent == null then [] else Path(evses[b].parent)
  {
    var net := NetOf(nodes, evses, params, grid, g);
    forall d | 0 <= d < |evses| && d != b
      ensures evses[b] !in net.paths[d]
    {
      EvsesApart(request, nodes, evses, d, b);
    }
  }

  /**
   * Fairness of what is sent: two EVSEs below one node that ask for the same, without a minimum, are sent for
   * every slot in which nobody exports currents within one slice of each other.
   */
  lemma SentIsFair(
    request: Request, nodes: set<Market>, evses: seq<Market>, params: Params, grid: seq<int>,
    enforced: seq<EnforcedLimits>, r: nat, g: nat, b: nat, c: nat)
    requires MarketOf(request, nodes, evses) && ValidParams(params) && g < |grid| && Unnested(request)
    requires AllSent(enforced, evses, Outcome(request, nodes, evses, params, grid, r))
    requires b < |evses| && c < |evses| && b != c && evses[b].request.imports == evses[c].request.imports
    requires evses[b].parent != null && evses[b].parent == evses[c].parent
    requires var net := NetOf(nodes, evses, params, grid, g);
      && ValidNet(net) && ImportOnly(net)
      && EnergyFairness.Plain(net, Initial(net), b) && EnergyFairness.Plain(net, Initial(net), c)
    ensures |enforced[b].schedule| == |enforced[c].schedule| == |grid|
    ensures EnergyFairness.Near(enforced[b].schedule[g], enforced[c].schedule[g], params.sliceA)
  {
    var net := NetOf(nodes, evses, params, grid, g);
    SiblingEvses(request, nodes, evses, params, grid, g, b, c);
    EnergyFairness.FairAmounts(net, b, c, r);
    SentIsHeld(request, nodes, evses, params, grid, enforced, g, r, b);
    SentIsHeld(request, nodes, evses, params, grid, enforced, g, r, c);
  }

  // ---------- The whole turn ----------

  /** The grants of every node with sorted schedules are kept at every instant the grid covers. */
  ghost predicate AllKept(enforced: seq<EnforcedLimits>, nodes: set<Market>, evses: seq<Market>, grid: seq<int>)
    requires ScheduledValid(nodes) && |enforced| == |evses|
    requires forall c :: 0 <= c < |evses| ==> Rooted(evses[c])
    requires forall b :: 0 <= b < |enforced| ==> |enforced[b].schedule| == |grid|
  {
    forall m, t, g: nat ::
      m in nodes && SortedSchedule(m.request.imports) && SortedSchedule(m.request.exports) && Covering(grid, t, g) ==>
        GrantKept(enforced, evses, m, t, g)
  }

  /** One turn of the optimizer's thread: the grid is created for the request, then the optimizer runs on it. */
  method Optimize(globals: Grid, now: nat, leapSeconds: int, interval: nat, slots: nat, request: Request,
                  params: Params, updateInterval: nat)
    returns (enforced: seq<EnforcedLimits>, ghost nodes: set<Market>, ghost evses: seq<Market>)
    requires interval > 0 && ValidRequest(request) && ValidParams(params)
    requires slots > 0 || globals.timestamps != [] || TimesOf(request) != []
    modifies globals
    ensures GridFor(globals.timestamps, request)
    ensures MarketOf(request, nodes, evses) && AllNamed(enforced, EvsesOf(request))
    ensures forall b :: 0 <= b < |enforced| ==> |enforced[b].schedule| == |globals.timestamps|
    ensures AllKept(enforced, nodes, evses, globals.timestamps)
  {
    ghost var start := now - now % interval + leapSeconds;
    ghost var some := if slots > 0 then start + (slots - 1) * interval
                      else if globals.timestamps != [] then globals.timestamps[0] else TimesOf(request)[0];
    if slots > 0 {
      RegularTimesSome(start, interval, slots);
    }
    globals.CreateTimestamps(now, leapSeconds, interval, slots, request);
    var grid := globals.timestamps;
    assert some in grid;
    ghost var rounds, settled;
    enforced, nodes, evses, rounds, settled := RunOptimizer(request, grid, params, now, updateInterval);
    assert forall b :: 0 <= b < |enforced| ==>
      Sends(enforced[b], evses[b], Outcome(request, nodes, evses, params, grid, rounds));
    forall m, t, g: nat | m in nodes && SortedSchedule(m.request.imports) && SortedSchedule(m.request.exports)
      && Covering(grid, t, g)
      ensures GrantKept(enforced, evses, m, t, g)
    {
      GrantedWithinRequest(request, nodes, evses, params, grid, enforced, rounds, m, t, g);
    }
  }

  lemma RegularTimesSome(start: int, interval: nat, slots: nat)
    requires slots > 0
    ensures start + (slots - 1) * interval in RegularTimes(start, interval, slots)
  {
  }
}
