/**
 * One time slot of the energy market: what a node has left to offer, what a broker
 * decides to buy, and how a purchase is booked. The slots of a schedule do not influence
 * each other, so every law about a whole schedule is the law of one slot, for every slot.
 *
 * Nodes are an arbitrary type N. A broker is known by the path of its market place,
 * from the root of the tree down to its own node.
 */
module EnergySlot {
  import opened Wrappers

  /** limits_to_root of a request: all limits of a node merged on its root side. */
  datatype Limits = Limits(maxA: Option<real>, maxW: Option<real>, minA: Option<real>, maxPhases: Option<int>)

  /** limits_to_root of a result: positive is import, negative is export. */
  datatype Sold = Sold(amp: Option<real>, watt: Option<real>)

  datatype Trade = Trade(sold: Sold, bought: bool)

  datatype Direction = Import | Export

  datatype Params = Params(volt: real, sliceA: real, sliceW: real)

  const Unlimited := Limits(None, None, None, None)
  const NothingSold := Sold(None, None)

  predicate ValidParams(p: Params) {
    p.volt > 0.0 && p.sliceA > 0.0 && p.sliceW > 0.0
  }

  predicate NonNegative(o: Option<real>) {
    o.Some? ==> o.value >= 0.0
  }

  /** What the schema of an energy flow request demands of each limit. */
  predicate ValidLimits(l: Limits) {
    && NonNegative(l.maxA) && NonNegative(l.maxW) && NonNegative(l.minA)
    && (l.maxPhases.Some? ==> l.maxPhases.value >= 1)
  }

  function Max(a: real, b: real): real { if a >= b then a else b }

  function Abs(a: real): real { if a >= 0.0 then a else -a }

  function Amp(x: Sold): real { x.amp.ValueOr(0.0) }

  function Watt(x: Sold): real { x.watt.ValueOr(0.0) }

  // ---------- What is left on a node, and what a path of nodes offers ----------

  function Left(limit: Option<real>, sold: real): Option<real> {
    if limit.Some? then Some(limit.value - Max(0.0, sold)) else None
  }

  /** An amount counted positive in a direction. */
  function Towards(dir: Direction, x: real): real {
    if dir.Import? then x else -x
  }

  /** What a node still has on offer, for import or for export. */
  function Available(limits: Limits, sold: Sold, dir: Direction): Limits {
    limits.(maxA := Left(limits.maxA, Towards(dir, Amp(sold))),
            maxW := Left(limits.maxW, Towards(dir, Watt(sold))))
  }

  function Smaller(a: Option<real>, b: Option<real>): Option<real> {
    if b.None? || (a.Some? && a.value <= b.value) then a else b
  }

  function Greater(a: Option<real>, b: Option<real>): Option<real> {
    if b.None? || (a.Some? && a.value >= b.value) then a else b
  }

  function FewerPhases(a: Option<int>, b: Option<int>): Option<int> {
    if b.None? || (a.Some? && a.value <= b.value) then a else b
  }

  function Narrow(a: Limits, b: Limits): Limits {
    Limits(Smaller(a.maxA, b.maxA), Smaller(a.maxW, b.maxW), Greater(a.minA, b.minA),
           FewerPhases(a.maxPhases, b.maxPhases))
  }

  // ---------- What a broker buys ----------

  /** Watts drawn by a current at k watts per ampere. */
  function InWatts(ampere: real, k: real): real {
    ampere * k
  }

  /** The watts that a current draws on n phases. */
  ghost predicate Drawn(watt: real, ampere: real, n: int, volt: real) {
    watt == ampere * n as real * volt
  }

  ghost predicate DrawnOn(x: Sold, n: int, volt: real) {
    Drawn(Watt(x), Amp(x), n, volt)
  }

  /** The current that draws so many watts at k watts per ampere. */
  function InAmperes(watt: real, k: real): real
    requires k > 0.0
  {
    watt / k
  }

  /** Watts drawn per ampere. */
  function WattsPerAmpere(l: Limits, p: Params): real {
    l.maxPhases.ValueOr(1) as real * p.volt
  }

  /** Amperes bought when `ampere` is wanted; with `allowLess` leftovers are bought too. */
  function AmperesBought(l: Limits, ampere: real, allowLess: bool, p: Params): Option<real>
    requires l.maxA.Some? && WattsPerAmpere(l, p) > 0.0
  {
    var k := WattsPerAmpere(l, p);
    if l.maxA.value >= ampere && (l.maxW.Some? ==> l.maxW.value >= InWatts(ampere, k)) then Some(ampere)
    else if !(allowLess && l.maxA.value > 0.0) then None
    else if l.maxW.Some? && l.maxW.value < InWatts(l.maxA.value, k) then Some(InAmperes(l.maxW.value, k))
    else Some(l.maxA.value)
  }

  /** Watts bought; they are booked as if they were amperes. */
  function WattsBought(l: Limits, watt: real): Option<real>
    requires l.maxW.Some?
  {
    if l.maxW.value >= watt then Some(watt)
    else if l.maxW.value > 0.0 then Some(l.maxW.value)
    else None
  }

  /** A direction is open unless one of its limits is used up exactly. */
  predicate Open(l: Limits) {
    l.maxW != Some(0.0) && l.maxA != Some(0.0)
  }

  predicate MinimumFirst(l: Limits, first: bool) {
    first && l.minA.Some? && l.minA.value > 0.0
  }

  function BuySide(l: Limits, first: bool, p: Params, dir: Direction, idle: Sold): Trade
    requires WattsPerAmpere(l, p) > 0.0
  {
    if l.maxA.Some? then
      var x := if MinimumFirst(l, first) then AmperesBought(l, l.minA.value, false, p)
               else AmperesBought(l, p.sliceA, true, p);
      if x.None? then Trade(idle, false)
      else
        var watts := InWatts(x.value, WattsPerAmpere(l, p));
        Trade(Sold(Some(Towards(dir, x.value)), if l.maxW.Some? then Some(Towards(dir, watts)) else idle.watt), true)
    else if l.maxW.Some? then
      var y := WattsBought(l, p.sliceW);
      if y.None? then Trade(idle, false) else Trade(idle.(amp := Some(Towards(dir, y.value))), true)
    else Trade(idle, false)
  }

  /** A trade without a purchase: zero wherever the import offer sets a limit. */
  function Idle(imp: Limits): Sold {
    Sold(if imp.maxA.Some? then Some(0.0) else None, if imp.maxW.Some? then Some(0.0) else None)
  }

  /** The broker's decision in one slot: import if possible, otherwise export. */
  function Decide(imp: Limits, exp: Limits, first: bool, p: Params): Trade
    requires WattsPerAmpere(imp, p) > 0.0 && WattsPerAmpere(exp, p) > 0.0
  {
    var idle := Idle(imp);
    if Open(imp) then BuySide(imp, first, p, Import, idle)
    else if Open(exp) then BuySide(exp, first, p, Export, idle)
    else Trade(idle, false)
  }

  function AddTo(total: Option<real>, x: Option<real>): Option<real> {
    if x.Some? then Some(x.value + total.ValueOr(0.0)) else total
  }

  function AddSold(total: Sold, x: Sold): Sold {
    Sold(AddTo(total.amp, x.amp), AddTo(total.watt, x.watt))
  }

  // ---------- The market of one slot ----------

  datatype Net<N> = Net(imp: map<N, Limits>, exp: map<N, Limits>, paths: seq<seq<N>>, params: Params)

  datatype Slot<N> = Slot(sold: map<N, Sold>, first: seq<bool>)

  ghost predicate ValidNet<N>(net: Net<N>) {
    && ValidParams(net.params)
    && net.imp.Keys == net.exp.Keys
    && (forall n :: n in net.imp ==> ValidLimits(net.imp[n]) && ValidLimits(net.exp[n]))
    && (forall b :: 0 <= b < |net.paths| ==> OnNet(net, net.paths[b]))
  }

  ghost predicate OnNet<N>(net: Net<N>, path: seq<N>) {
    |path| > 0 && forall i :: 0 <= i < |path| ==> path[i] in net.imp && path[i] in net.exp
  }

  ghost predicate Shaped<N>(net: Net<N>, s: Slot<N>) {
    s.sold.Keys == net.imp.Keys && |s.first| == |net.paths|
  }

  ghost function Initial<N>(net: Net<N>): (s: Slot<N>)
    ensures Shaped(net, s)
  {
    Slot(map n | n in net.imp :: NothingSold, seq(|net.paths|, _ => true))
  }

  /** From the root to the end of the path, narrow the offer by what each node has left. */
  ghost function OfferOn<N>(net: Net<N>, sold: map<N, Sold>, path: seq<N>, dir: Direction): Limits
    requires forall i :: 0 <= i < |path| ==> path[i] in net.imp && path[i] in net.exp && path[i] in sold
  {
    if path == [] then Unlimited
    else
      var n := path[|path| - 1];
      Narrow(OfferOn(net, sold, path[..|path| - 1], dir),
             Available(if dir.Import? then net.imp[n] else net.exp[n], sold[n], dir))
  }

  ghost function Offer<N>(net: Net<N>, s: Slot<N>, b: nat, dir: Direction): Limits
    requires ValidNet(net) && Shaped(net, s) && b < |net.paths|
  {
    OfferOn(net, s.sold, net.paths[b], dir)
  }

  lemma {:induction false} PhasesOnPath<N>(net: Net<N>, sold: map<N, Sold>, path: seq<N>, dir: Direction)
    requires ValidNet(net)
    requires forall i :: 0 <= i < |path| ==> path[i] in net.imp && path[i] in net.exp && path[i] in sold
    ensures WattsPerAmpere(OfferOn(net, sold, path, dir), net.params) > 0.0
    ensures var ph := OfferOn(net, sold, path, dir).maxPhases; ph.Some? ==> ph.value >= 1
  {
    if path != [] {
      PhasesOnPath(net, sold, path[..|path| - 1], dir);
      var o := OfferOn(net, sold, path, dir);
      assert o.maxPhases.ValueOr(1) >= 1;
      assert o.maxPhases.ValueOr(1) as real >= 1.0;
    }
  }

  ghost function Decision<N>(net: Net<N>, s: Slot<N>, b: nat): Trade
    requires ValidNet(net) && Shaped(net, s) && b < |net.paths|
  {
    PhasesOnPath(net, s.sold, net.paths[b], Import);
    PhasesOnPath(net, s.sold, net.paths[b], Export);
    Decide(Offer(net, s, b, Import), Offer(net, s, b, Export), s.first[b], net.params)
  }

  /** A broker's own market place, at the end of its path. */
  ghost function Own<N>(net: Net<N>, b: nat): (n: N)
    requires ValidNet(net) && b < |net.paths|
    ensures n in net.imp && n in net.exp && n in net.paths[b]
  {
    assert OnNet(net, net.paths[b]);
    net.paths[b][|net.paths[b]| - 1]
  }

  ghost function Book<N>(sold: map<N, Sold>, path: seq<N>, x: Sold): map<N, Sold> {
    map n | n in sold :: if n in path then AddSold(sold[n], x) else sold[n]
  }

  /** One broker gets an offer, decides, and its purchase is booked on its whole path. */
  ghost function Step<N>(net: Net<N>, s: Slot<N>, b: nat): (s': Slot<N>)
    requires ValidNet(net) && Shaped(net, s) && b < |net.paths|
    ensures Shaped(net, s')
  {
    var t := Decision(net, s, b);
    Slot(Book(s.sold, net.paths[b], t.sold), s.first[b := s.first[b] && !t.bought])
  }

  ghost predicate Schedulable<N>(net: Net<N>, bs: seq<nat>) {
    forall i :: 0 <= i < |bs| ==> bs[i] < |net.paths|
  }

  /** Any sequence of broker turns, starting in s. */
  ghost function Run<N>(net: Net<N>, s: Slot<N>, bs: seq<nat>): (s': Slot<N>)
    requires ValidNet(net) && Shaped(net, s) && Schedulable(net, bs)
    ensures Shaped(net, s')
    decreases |bs|
  {
    if bs == [] then s else Step(net, Run(net, s, bs[..|bs| - 1]), bs[|bs| - 1])
  }
}
