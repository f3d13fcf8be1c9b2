/**
 * The broker of an EVSE: it charges if it can and discharges only if charging is impossible.
 */
module EnergyBroker {
  import opened Wrappers
  import opened EnergySlot
  import opened EnergyMarket

  /** Current times phases times voltage, as the broker computes it. */
  function PhaseWatts(ampere: real, phases: int, volt: real): real {
    ampere * phases as real * volt
  }

  function PhaseAmperes(watt: real, phases: int, volt: real): real
    requires phases > 0 && volt > 0.0
  {
    watt / phases as real / volt
  }

  lemma WattsOf(ampere: real, l: Limits, p: Params)
    ensures PhaseWatts(ampere, l.maxPhases.ValueOr(1), p.volt) == InWatts(ampere, WattsPerAmpere(l, p))
    ensures PhaseWatts(-ampere, l.maxPhases.ValueOr(1), p.volt) == -InWatts(ampere, WattsPerAmpere(l, p))
  {
  }

  lemma AmperesOf(watt: real, l: Limits, p: Params)
    requires l.maxPhases.ValueOr(1) >= 1 && p.volt > 0.0 && WattsPerAmpere(l, p) > 0.0
    ensures PhaseAmperes(watt, l.maxPhases.ValueOr(1), p.volt) == InAmperes(watt, WattsPerAmpere(l, p))
  {
    var ph, volt := l.maxPhases.ValueOr(1) as real, p.volt;
    var x := watt / ph / volt;
    assert x * volt == watt / ph;
    assert (x * volt) * ph == watt;
    assert x * (ph * volt) == watt;
    assert watt / (ph * volt) == x;
  }

  /** Amperes and, if there is a watt limit, their watts. */
  function Purchase(l: Limits, p: Params, ampere: real, dir: Direction, otherwise: Option<real>): Sold {
    Sold(Some(Towards(dir, ampere)),
         if l.maxW.Some? then Some(Towards(dir, InWatts(ampere, WattsPerAmpere(l, p)))) else otherwise)
  }

  class BrokerFastCharging {
    const market: Market
    const params: Params
    var firstTrade: seq<bool>
    var trading: seq<Sold>
    var traded: bool

    constructor (market: Market, params: Params)
      ensures this.market == market && this.params == params
      ensures firstTrade == seq(|market.importMax|, _ => true)
    {
      this.market := market;
      this.params := params;
      firstTrade := seq(|market.importMax|, _ => true);
      trading := [];
      traded := false;
    }

    method BuyAmpereUnchecked(index: nat, ampere: real)
      requires index < |trading| == |firstTrade|
      modifies this
      ensures trading == old(trading)[index := old(trading)[index].(amp := Some(ampere))]
      ensures traded && firstTrade == old(firstTrade)[index := false]
    {
      trading := trading[index := trading[index].(amp := Some(ampere))];
      traded := true;
      firstTrade := firstTrade[index := false];
    }

    method BuyWattUnchecked(index: nat, watt: real)
      requires index < |trading| == |firstTrade|
      modifies this
      ensures trading == old(trading)[index := old(trading)[index].(watt := Some(watt))]
      ensures traded && firstTrade == old(firstTrade)
    {
      trading := trading[index := trading[index].(watt := Some(watt))];
      traded := true;
    }

    /** Books amperes and, if there is a watt limit, their watts. */
    method BuyBoth(l: Limits, index: nat, ampere: real, dir: Direction)
      requires index < |trading| == |firstTrade|
      modifies this
      ensures traded && firstTrade == old(firstTrade)[index := false]
      ensures trading == old(trading)[index := Purchase(l, params, ampere, dir, old(trading)[index].watt)]
      ensures l.maxW.Some? ==> DrawnOn(trading[index], l.maxPhases.ValueOr(1), params.volt)
    {
      var signed := if dir.Import? then ampere else -ampere;
      var watts := PhaseWatts(signed, l.maxPhases.ValueOr(1), params.volt);
      WattsOf(ampere, l, params);
      assert l.maxW.Some? ==> Purchase(l, params, ampere, dir, None) == Sold(Some(signed), Some(watts));
      BuyAmpereUnchecked(index, signed);
      if l.maxW.Some? {
        BuyWattUnchecked(index, watts);
      }
    }

    method BuyAmpere(l: Limits, index: nat, ampere: real, allowLess: bool, dir: Direction) returns (ok: bool)
      requires index < |trading| == |firstTrade|
      requires l.maxPhases.ValueOr(1) >= 1 && params.volt > 0.0 && WattsPerAmpere(l, params) > 0.0
      modifies this
      ensures ok <==> l.maxA.Some? && AmperesBought(l, ampere, allowLess, params).Some?
      ensures !ok ==> trading == old(trading) && traded == old(traded) && firstTrade == old(firstTrade)
      ensures ok ==> traded && firstTrade == old(firstTrade)[index := false]
      ensures ok ==>
        var x := AmperesBought(l, ampere, allowLess, params).value;
        trading == old(trading)[index := Purchase(l, params, x, dir, old(trading)[index].watt)]
      ensures ok && l.maxW.Some? ==> DrawnOn(trading[index], l.maxPhases.ValueOr(1), params.volt)
    {
      var phases := l.maxPhases.ValueOr(1);
      if l.maxA.None? {
        return false;
      }
      if l.maxA.value >= ampere {
        WattsOf(ampere, l, params);
        if l.maxW.None? || l.maxW.value >= PhaseWatts(ampere, phases, params.volt) {
          BuyBoth(l, index, ampere, dir);
          return true;
        }
      }
      if allowLess && l.maxA.value > 0.0 {
        WattsOf(l.maxA.value, l, params);
        if l.maxW.None? || l.maxW.value >= PhaseWatts(l.maxA.value, phases, params.volt) {
          assert AmperesBought(l, ampere, allowLess, params) == Some(l.maxA.value);
          BuyBoth(l, index, l.maxA.value, dir);
        } else {
          AmperesOf(l.maxW.value, l, params);
          var reduced := PhaseAmperes(l.maxW.value, phases, params.volt);
          assert AmperesBought(l, ampere, allowLess, params) == Some(reduced);
          BuyBoth(l, index, reduced, dir);
        }
        return true;
      }
      return false;
    }

    method BuyWatt(l: Limits, index: nat, watt: real, dir: Direction) returns (ok: bool)
      requires index < |trading| == |firstTrade|
      modifies this
      ensures ok <==> l.maxW.Some? && WattsBought(l, watt).Some?
      ensures !ok ==> trading == old(trading) && traded == old(traded) && firstTrade == old(firstTrade)
      ensures ok ==> traded && firstTrade == old(firstTrade)[index := false]
      ensures ok ==>
        trading == old(trading)[index := old(trading)[index].(amp := Some(Towards(dir, WattsBought(l, watt).value)))]
    {
      if l.maxW.None? {
        return false;
      }
      if l.maxW.value >= watt {
        BuyAmpereUnchecked(index, if dir.Import? then watt else -watt);
        return true;
      }
      if l.maxW.value > 0.0 {
        BuyAmpereUnchecked(index, if dir.Import? then l.maxW.value else -l.maxW.value);
        return true;
      }
      return false;
    }

    /** The decision in slot i: buys at most once, in the direction that is open. */
    method TradeSlot(imp: Limits, exp: Limits, i: nat)
      requires i < |trading| == |firstTrade| && ValidParams(params)
      requires imp.maxPhases.ValueOr(1) >= 1 && exp.maxPhases.ValueOr(1) >= 1
      requires WattsPerAmpere(imp, params) > 0.0 && WattsPerAmpere(exp, params) > 0.0
      requires trading[i] == Idle(imp)
      modifies this
      ensures var t := Decide(imp, exp, old(firstTrade[i]), params);
        && trading == old(trading)[i := t.sold]
        && firstTrade == old(firstTrade)[i := old(firstTrade[i]) && !t.bought]
        && traded == (old(traded) || t.bought)
    {
      var canImport := !(imp.maxW == Some(0.0) || imp.maxA == Some(0.0));
      var canExport := !(exp.maxW == Some(0.0) || exp.maxA == Some(0.0));
      if canImport {
        BuySlot(imp, i, Import);
      } else if canExport {
        BuySlot(exp, i, Export);
      }
    }

    method BuySlot(l: Limits, i: nat, dir: Direction)
      requires i < |trading| == |firstTrade| && ValidParams(params)
      requires l.maxPhases.ValueOr(1) >= 1 && WattsPerAmpere(l, params) > 0.0
      modifies this
      ensures var t := BuySide(l, old(firstTrade[i]), params, dir, old(trading[i]));
        && trading == old(trading)[i := t.sold]
        && firstTrade == old(firstTrade)[i := old(firstTrade[i]) && !t.bought]
        && traded == (old(traded) || t.bought)
    {
      ghost var t := BuySide(l, firstTrade[i], params, dir, trading[i]);
      ghost var watt := trading[i].watt;
      var ok;
      if l.maxA.Some? {
        if firstTrade[i] && l.minA.Some? && l.minA.value > 0.0 {
          ok := BuyAmpere(l, i, l.minA.value, false, dir);
        } else {
          ok := BuyAmpere(l, i, params.sliceA, true, dir);
        }
        assert ok ==> t.sold == Purchase(l, params, Towards(dir, t.sold.amp.value), dir, watt);
      } else if l.maxW.Some? {
        ok := BuyWatt(l, i, params.sliceW, dir);
      }
    }

    /** One turn: decides in every slot and books the decisions on the whole path. */
    method Trade(offer: Offer, ghost nodes: set<Market>) returns (ok: bool)
      requires Rooted(market) && PathSet(market) <= nodes
      requires CanDecide(offer.importOffer, offer.exportOffer, firstTrade, params)
      modifies this, PathSet(market)`soldRoot
      ensures var ts := old(Decisions(offer.importOffer, offer.exportOffer, firstTrade, params));
        && |trading| == |firstTrade| == |ts|
        && (forall i :: 0 <= i < |ts| ==> trading[i] == ts[i].sold)
        && (forall i :: 0 <= i < |ts| ==> firstTrade[i] == (old(firstTrade)[i] && !ts[i].bought))
        && (ok <==> exists i :: 0 <= i < |ts| && ts[i].bought)
      ensures forall m :: m in nodes ==>
        m.soldRoot == if m in PathSet(market) then AddSchedules(old(m.soldRoot), trading) else old(m.soldRoot)
    {
      ghost var ts := Decisions(offer.importOffer, offer.exportOffer, firstTrade, params);
      trading := seq(|firstTrade|, _ => NothingSold);
      for i := 0 to |firstTrade|
        invariant |trading| == |firstTrade| && firstTrade == old(firstTrade)
        invariant forall k :: 0 <= k < i ==> trading[k] == Idle(offer.importOffer[k])
        invariant forall k :: i <= k < |trading| ==> trading[k] == NothingSold
        invariant forall m :: m in nodes ==> m.soldRoot == old(m.soldRoot)
      {
        if offer.importOffer[i].maxA.Some? {
          trading := trading[i := trading[i].(amp := Some(0.0))];
        }
        if offer.importOffer[i].maxW.Some? {
          trading := trading[i := trading[i].(watt := Some(0.0))];
        }
      }
      traded := false;
      for i := 0 to |firstTrade|
        invariant |trading| == |firstTrade| == |ts|
        invariant forall k :: 0 <= k < i ==> trading[k] == ts[k].sold
        invariant forall k :: 0 <= k < i ==> firstTrade[k] == (old(firstTrade)[k] && !ts[k].bought)
        invariant forall k :: i <= k < |ts| ==> trading[k] == Idle(offer.importOffer[k])
        invariant forall k :: i <= k < |ts| ==> firstTrade[k] == old(firstTrade)[k]
        invariant forall k :: 0 <= k < i && ts[k].bought ==> traded
        invariant traded ==> exists k :: 0 <= k < i && ts[k].bought
        invariant forall m :: m in nodes ==> m.soldRoot == old(m.soldRoot)
      {
        TradeSlot(offer.importOffer[i], offer.exportOffer[i], i);
        assert ts[i].bought ==> traded;
      }
      market.Trade(trading, nodes);
      ok := traded;
    }
  }

  predicate CanDecide(imports: seq<Limits>, exports: seq<Limits>, first: seq<bool>, p: Params) {
    && ValidParams(p) && |imports| == |exports| == |first|
    && forall i :: 0 <= i < |first| ==> Tradable(imports[i], p) && Tradable(exports[i], p)
  }

  /** The broker's decisions in all slots. */
  function Decisions(imports: seq<Limits>, exports: seq<Limits>, first: seq<bool>, p: Params): (ts: seq<Trade>)
    requires CanDecide(imports, exports, first, p)
    ensures |ts| == |first|
  {
    seq(|first|, i requires 0 <= i < |first| => Decide(imports[i], exports[i], first[i], p))
  }

  predicate Tradable(l: Limits, p: Params) {
    l.maxPhases.ValueOr(1) >= 1 && WattsPerAmpere(l, p) > 0.0
  }
}
