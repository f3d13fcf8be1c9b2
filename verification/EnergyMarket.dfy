/**
 * The market places of the energy tree, the offers made at them and the brokers who trade
 * there, slot by slot as EnergySlot describes.
 */
module EnergyMarket {
  import opened Wrappers
  import opened EnergySlot
  import opened EnergySchedule

  // ---------- Schedules ----------

  method MaxAvailable(schedule: Option<seq<Entry>>, grid: seq<int>) returns (limits: seq<Limits>)
    requires ValidSchedule(schedule)
    ensures |limits| == |grid|
    ensures forall i :: 0 <= i < |grid| ==> limits[i] == ScheduledLimits(schedule, grid[i])
  {
    if schedule.Some? {
      limits := GetMaxAvailableEnergy(schedule.value, grid);
    } else {
      limits := seq(|grid|, _ => NothingAvailable);
    }
  }

  function AddSchedules(a: seq<Sold>, b: seq<Sold>): (r: seq<Sold>)
    ensures |r| == |a|
  {
    if |a| != |b| then a else seq(|a|, i requires 0 <= i < |a| && |a| == |b| => AddSold(a[i], b[i]))
  }

  method ScheduleAdd(a: seq<Sold>, b: seq<Sold>) returns (r: seq<Sold>)
    ensures r == AddSchedules(a, b)
  {
    r := a;
    if |a| != |b| {
      return;
    }
    for i := 0 to |a|
      invariant |r| == |a|
      invariant forall k :: 0 <= k < i ==> r[k] == AddSold(a[k], b[k])
      invariant forall k :: i <= k < |a| ==> r[k] == a[k]
    {
      if b[i].amp.Some? {
        r := r[i := r[i].(amp := Some(b[i].amp.value + r[i].amp.ValueOr(0.0)))];
      }
      if b[i].watt.Some? {
        r := r[i := r[i].(watt := Some(b[i].watt.value + r[i].watt.ValueOr(0.0)))];
      }
    }
  }

  // ---------- Market places ----------

  /** Following the parents of m ends at a root; all market places on the way have m's slots. */
  ghost predicate Rooted(m: Market)
    decreases m.depth
  {
    && |m.exportMax| == |m.importMax|
    && (m.parent != null ==>
          m.parent.depth < m.depth && |m.parent.importMax| == |m.importMax| && Rooted(m.parent))
  }

  /** The market places from the root down to m. */
  ghost function Path(m: Market): (path: seq<Market>)
    requires Rooted(m)
    ensures |path| > 0 && path[|path| - 1] == m
    decreases m.depth
  {
    (if m.parent == null then [] else Path(m.parent)) + [m]
  }

  ghost function PathSet(m: Market): (s: set<Market>)
    requires Rooted(m)
    ensures m in s
    decreases m.depth
  {
    (if m.parent == null then {} else PathSet(m.parent)) + {m}
  }

  lemma {:induction false} OnPath(m: Market, x: Market)
    requires Rooted(m)
    ensures x in PathSet(m) <==> x in Path(m)
    ensures x in PathSet(m) ==> x.depth <= m.depth && Rooted(x) && |x.importMax| == |m.importMax|
    decreases m.depth
  {
    if m.parent != null {
      OnPath(m.parent, x);
    }
  }

  /** The market place carries the limits of its request on the grid, and has sold nothing yet. */
  ghost predicate Built(m: Market, grid: seq<int>)
    reads m`soldRoot
  {
    && ValidRequest(m.request)
    && |m.importMax| == |m.exportMax| == |grid| && m.soldRoot == seq(|grid|, _ => NothingSold)
    && (forall i :: 0 <= i < |grid| ==>
          && m.importMax[i] == ScheduledLimits(m.request.imports, grid[i])
          && m.exportMax[i] == ScheduledLimits(m.request.exports, grid[i]))
  }

  /** Everything in the tree of m is built, and everything but m has its parent in the tree. */
  ghost predicate BuiltBelow(m: Market, tree: set<Market>, grid: seq<int>)
    reads tree`soldRoot
  {
    && m in tree
    && (forall x :: x in tree ==> Rooted(x) && Built(x, grid))
    && (forall x :: x in tree && x != m ==> x.parent != null && x.parent in tree && HasPlace(x))
  }

  /** A market place stands for one of the children that its parent's request names. */
  ghost predicate HasPlace(m: Market)
    requires m.parent != null
  {
    m.request in m.parent.request.children
  }

  /** The requests of all EVSEs of a request tree, in the order of the tree. */
  function EvsesOf(request: Request): seq<Request>
    decreases request, 0
  {
    (if request.evse then [request] else []) + EvsesOfAll(request.children)
  }

  function EvsesOfAll(requests: seq<Request>): seq<Request>
    decreases requests, 1
  {
    if requests == [] then [] else EvsesOfAll(requests[..|requests| - 1]) + EvsesOf(requests[|requests| - 1])
  }

  lemma {:induction false} EvsesOfAllExactly(requests: seq<Request>, node: Request)
    ensures node in EvsesOfAll(requests) <==> exists i :: 0 <= i < |requests| && node in EvsesOf(requests[i])
  {
    if requests != [] {
      var past := requests[..|requests| - 1];
      EvsesOfAllExactly(past, node);
      assert requests == past + [requests[|requests| - 1]];
    }
  }

  /** The EVSEs of a request are the nodes anywhere in its tree that are one. */
  lemma {:induction false} EvsesOfExactly(request: Request, node: Request)
    ensures node in EvsesOf(request) <==> node.evse && Contains(request, node)
    decreases request
  {
    EvsesOfAllExactly(request.children, node);
    forall i | 0 <= i < |request.children|
      ensures node in EvsesOf(request.children[i]) <==> node.evse && Contains(request.children[i], node)
    {
      EvsesOfExactly(request.children[i], node);
    }
  }

  function Requests(list: seq<Market>): (requests: seq<Request>)
    ensures |requests| == |list|
  {
    seq(|list|, i requires 0 <= i < |list| => list[i].request)
  }

  /** A child with all below it joins what is built below m. */
  lemma BuiltJoins(m: Market, tree: set<Market>, child: Market, below: set<Market>, grid: seq<int>)
    requires BuiltBelow(m, tree, grid) && BuiltBelow(child, below, grid) && m !in below
    requires child.parent == m && HasPlace(child)
    ensures BuiltBelow(m, tree + below, grid)
  {
  }

  ghost predicate Distinct(list: seq<Market>) {
    forall i, j :: 0 <= i < j < |list| ==> list[i] != list[j]
  }

  lemma DistinctConcat(a: seq<Market>, b: seq<Market>)
    requires Distinct(a) && Distinct(b) && forall m :: m in b ==> m !in a
    ensures Distinct(a + b)
  {
    forall i, j | 0 <= i < j < |a + b|
      ensures (a + b)[i] != (a + b)[j]
    {
      assert j >= |a| ==> (a + b)[j] in b;
    }
  }

  /** A list of the EVSEs among some markets, each once, in the order of some requests. */
  ghost predicate Lists(list: seq<Market>, markets: set<Market>, requests: seq<Request>) {
    && (forall m :: m in list ==> m in markets && m.request.evse)
    && (forall m :: m in markets && m.request.evse ==> m in list)
    && Distinct(list) && Requests(list) == requests
  }

  lemma ListsJoin(
    a: seq<Market>, b: seq<Market>, among: set<Market>, others: set<Market>, first: seq<Request>, second: seq<Request>)
    requires Lists(a, among, first) && Lists(b, others, second) && among !! others
    ensures Lists(a + b, among + others, first + second)
  {
    DistinctConcat(a, b);
    assert Requests(a + b) == Requests(a) + Requests(b);
  }

  lemma MoreEvses(own: seq<Request>, requests: seq<Request>, i: nat)
    requires i < |requests|
    ensures own + EvsesOfAll(requests[..i]) + EvsesOf(requests[i]) == own + EvsesOfAll(requests[..i + 1])
  {
    assert requests[..i + 1][..i] == requests[..i];
  }

  /** All market places in the trees of some markets. */
  ghost function Below(markets: seq<Market>): set<Market>
    reads markets
  {
    if markets == [] then {} else Below(markets[..|markets| - 1]) + markets[|markets| - 1].tree
  }

  lemma {:induction false} BelowExactly(markets: seq<Market>, m: Market)
    ensures m in Below(markets) <==> exists i :: 0 <= i < |markets| && m in markets[i].tree
  {
    if markets != [] {
      var init := markets[..|markets| - 1];
      BelowExactly(init, m);
      if i :| 0 <= i < |markets| && m in markets[i].tree {
        assert i < |init| ==> init[i] == markets[i];
      }
    }
  }

  /** Some market place stands for the i-th child that m's request names. */
  ghost predicate HasChild(nodes: set<Market>, m: Market, i: nat)
    requires i < |m.request.children|
  {
    exists c :: c in nodes && c.parent == m && c.request == m.request.children[i]
  }

  /** Every child that any request of the tree names has its market place in the tree. */
  lemma {:induction false} ChildrenHavePlaces(root: Market, m: Market, i: nat)
    requires root.ValidTree() && m in root.tree && i < |m.request.children|
    ensures HasChild(root.tree, m, i)
    decreases root.request
  {
    if m == root {
      assert root.children[i] in root.tree;
    } else {
      BelowExactly(root.children, m);
      var j :| 0 <= j < |root.children| && m in root.children[j].tree;
      ChildrenHavePlaces(root.children[j], m, i);
    }
  }

  class Market {
    const request: Request
    const parent: Market?
    const importMax: seq<Limits>
    const exportMax: seq<Limits>
    ghost const depth: nat
    var soldRoot: seq<Sold>
    var children: seq<Market>
    ghost var tree: set<Market>

    /** This market place with all below it: one market per request, no market shared. */
    ghost predicate ValidTree()
      reads this, tree
      decreases request, 1
    {
      |children| == |request.children| && Grown()
    }

    /** Of the requested children, the first few have their markets. */
    ghost predicate Grown()
      reads this, tree
      decreases request, 0
    {
      && this in tree && |children| <= |request.children|
      && (forall i :: 0 <= i < |children| ==>
            && children[i] in tree && children[i].tree <= tree && this !in children[i].tree
            && children[i].request == request.children[i] && children[i].parent == this && children[i].ValidTree())
      && (forall i, j :: 0 <= i < j < |children| ==> children[i].tree !! children[j].tree)
      && (forall m :: m in tree ==> m == this || m in Below(children))
    }

    constructor (request: Request, grid: seq<int>, parent: Market?)
      requires ValidRequest(request)
      requires parent != null ==> Rooted(parent) && |parent.importMax| == |grid|
      ensures this.request == request && this.parent == parent
      ensures fresh(tree) && ValidTree() && BuiltBelow(this, tree, grid)
      decreases request, 2
    {
      var imports := MaxAvailable(request.imports, grid);
      var exports := MaxAvailable(request.exports, grid);
      this.request := request;
      this.parent := parent;
      importMax, exportMax := imports, exports;
      depth := if parent == null then 0 else parent.depth + 1;
      soldRoot := seq(|grid|, _ => NothingSold);
      children := [];
      tree := {this};
      new;
      for i := 0 to |request.children|
        invariant |children| == i && fresh(tree)
        invariant Grown() && BuiltBelow(this, tree, grid)
      {
        AddChild(grid);
      }
    }

    method AddChild(grid: seq<int>)
      requires |children| < |request.children|
      requires Grown() && BuiltBelow(this, tree, grid)
      modifies this`children, this`tree
      ensures |children| == old(|children|) + 1 && fresh(tree - old(tree))
      ensures Grown() && BuiltBelow(this, tree, grid)
      decreases request, 1
    {
      assert Rooted(this) && Built(this, grid);
      var child := new Market(request.children[|children|], grid, this);
      Adopt(child, grid);
    }

    method Adopt(child: Market, grid: seq<int>)
      requires |children| < |request.children| && child.request == request.children[|children|]
      requires Grown() && BuiltBelow(this, tree, grid)
      requires child.tree !! tree && child.ValidTree() && BuiltBelow(child, child.tree, grid) && child.parent == this
      modifies this`children, this`tree
      ensures children == old(children) + [child] && tree == old(tree) + child.tree
      ensures Grown() && BuiltBelow(this, tree, grid)
    {
      BuiltJoins(this, tree, child, child.tree, grid);
      Attach(child);
    }

    method Attach(child: Market)
      requires |children| < |request.children| && child.request == request.children[|children|]
      requires Grown() && child.tree !! tree && child.ValidTree() && child.parent == this
      modifies this`children, this`tree
      ensures children == old(children) + [child] && tree == old(tree) + child.tree
      ensures Grown()
    {
      ghost var before := children;
      children := children + [child];
      tree := tree + child.tree;
      assert children[..|children| - 1] == before;
    }

    /** All EVSEs of the tree, each once, in the order of their requests. */
    method GetListOfEvses() returns (list: seq<Market>)
      requires ValidTree()
      ensures Lists(list, tree, EvsesOf(request))
      decreases request
    {
      list := if request.evse then [this] else [];
      assert Lists(list, {this} + Below(children[..0]), OwnEvses() + EvsesOfAll(request.children[..0]));
      for i := 0 to |children|
        invariant ListsFirst(list, i)
      {
        var below := children[i].GetListOfEvses();
        ListsMore(list, below, i);
        list := list + below;
      }
      assert children[..|children|] == children && request.children[..|children|] == request.children;
      TreeIsBelow();
    }

    ghost function OwnEvses(): seq<Request> {
      if request.evse then [request] else []
    }

    /** The EVSEs of this market place and of its first few children are listed. */
    ghost predicate ListsFirst(list: seq<Market>, i: nat)
      requires i <= |children| && |children| == |request.children|
      reads this, children
    {
      Lists(list, {this} + Below(children[..i]), OwnEvses() + EvsesOfAll(request.children[..i]))
    }

    lemma ListsMore(list: seq<Market>, below: seq<Market>, i: nat)
      requires ValidTree() && i < |children| && ListsFirst(list, i)
      requires Lists(below, children[i].tree, EvsesOf(children[i].request))
      ensures ListsFirst(list + below, i + 1)
    {
      OneMoreBelow(i);
      ListsJoin(list, below, {this} + Below(children[..i]), children[i].tree,
                OwnEvses() + EvsesOfAll(request.children[..i]), EvsesOf(request.children[i]));
      MoreEvses(OwnEvses(), request.children, i);
    }

    lemma OneMoreBelow(i: nat)
      requires ValidTree() && i < |children|
      ensures {this} + Below(children[..i + 1]) == {this} + Below(children[..i]) + children[i].tree
      ensures ({this} + Below(children[..i])) !! children[i].tree
    {
      assert children[..i + 1][..i] == children[..i];
      forall m | m in Below(children[..i])
        ensures m !in children[i].tree
      {
        BelowExactly(children[..i], m);
      }
    }

    lemma TreeIsBelow()
      requires ValidTree()
      ensures tree == {this} + Below(children)
    {
      forall m | m in Below(children)
        ensures m in tree
      {
        BelowExactly(children, m);
      }
    }

    predicate IsRoot() {
      parent == null
    }

    method GetAvailableEnergy(maxAvailable: seq<Limits>, dir: Direction) returns (available: seq<Limits>)
      requires |maxAvailable| == |soldRoot|
      ensures |available| == |maxAvailable|
      ensures forall i :: 0 <= i < |available| ==> available[i] == Available(maxAvailable[i], soldRoot[i], dir)
    {
      available := maxAvailable;
      for i := 0 to |available|
        invariant |available| == |maxAvailable|
        invariant forall k :: 0 <= k < i ==> available[k] == Available(maxAvailable[k], soldRoot[k], dir)
        invariant forall k :: i <= k < |available| ==> available[k] == maxAvailable[k]
      {
        var sign := if dir.Export? then 1.0 else -1.0;
        var soldCurrent := sign * soldRoot[i].amp.ValueOr(0.0);
        if soldCurrent > 0.0 {
          soldCurrent := 0.0;
        }
        var soldWatt := sign * soldRoot[i].watt.ValueOr(0.0);
        if soldWatt > 0.0 {
          soldWatt := 0.0;
        }
        if available[i].maxA.Some? {
          available := available[i := available[i].(maxA := Some(available[i].maxA.value + soldCurrent))];
        }
        if available[i].maxW.Some? {
          available := available[i := available[i].(maxW := Some(available[i].maxW.value + soldWatt))];
        }
      }
    }

    /** Books a trade here and on every market place up to the root, and nowhere else. */
    method Trade(traded: seq<Sold>, ghost nodes: set<Market>)
      requires Rooted(this) && PathSet(this) <= nodes
      modifies PathSet(this)`soldRoot
      ensures forall m :: m in nodes ==>
        m.soldRoot == if m in PathSet(this) then AddSchedules(old(m.soldRoot), traded) else old(m.soldRoot)
      decreases depth
    {
      soldRoot := ScheduleAdd(soldRoot, traded);
      if !IsRoot() {
        OnPath(parent, this);
        parent.Trade(traded, nodes);
      }
    }
  }

  // ---------- Offers ----------

  lemma PathWithin(market: Market, nodes: set<Market>)
    requires Rooted(market) && PathSet(market) <= nodes
    ensures forall i :: 0 <= i < |Path(market)| ==> Path(market)[i] in nodes
  {
    forall i | 0 <= i < |Path(market)|
      ensures Path(market)[i] in nodes
    {
      OnPath(market, Path(market)[i]);
    }
  }

  /** The limits and the sold amounts of the market places in each slot, as values. */
  ghost predicate Shows(nodes: set<Market>, nets: seq<Net<Market>>, sold: seq<map<Market, Sold>>)
    reads nodes`soldRoot
  {
    && |sold| == |nets|
    && (forall m :: m in nodes ==> |m.importMax| == |m.exportMax| == |m.soldRoot| == |nets|)
    && (forall i :: 0 <= i < |nets| ==> nets[i].imp.Keys == nets[i].exp.Keys == sold[i].Keys == nodes)
    && (forall i, m :: 0 <= i < |nets| && m in nodes ==>
          nets[i].imp[m] == m.importMax[i] && nets[i].exp[m] == m.exportMax[i] && sold[i][m] == m.soldRoot[i])
  }

  /** o is the offer made at a market place: what the whole path to the root has left. */
  ghost predicate OfferIs(o: Limits, net: Net<Market>, sold: map<Market, Sold>, market: Market, dir: Direction)
    requires Rooted(market) && PathSet(market) <= sold.Keys == net.imp.Keys == net.exp.Keys
  {
    PathWithin(market, sold.Keys);
    o == OfferOn(net, sold, Path(market), dir)
  }

  lemma OfferIsNarrowed(above: Limits, net: Net<Market>, sold: map<Market, Sold>, market: Market, dir: Direction)
    requires Rooted(market) && PathSet(market) <= sold.Keys == net.imp.Keys == net.exp.Keys
    requires if market.parent == null then above == Unlimited else OfferIs(above, net, sold, market.parent, dir)
    ensures var left := Available(if dir.Import? then net.imp[market] else net.exp[market], sold[market], dir);
      OfferIs(Narrow(above, left), net, sold, market, dir)
  {
    PathWithin(market, sold.Keys);
    var path := Path(market);
    assert path[..|path| - 1] == if market.parent == null then [] else Path(market.parent);
  }

  method ApplyLimits(a: seq<Limits>, b: seq<Limits>) returns (r: seq<Limits>)
    ensures |r| == |a|
    ensures |a| != |b| ==> r == a
    ensures |a| == |b| ==> forall i :: 0 <= i < |a| ==> r[i] == Narrow(a[i], b[i])
  {
    r := a;
    if |a| != |b| {
      return;
    }
    for i := 0 to |a|
      invariant |r| == |a|
      invariant forall k :: 0 <= k < i ==> r[k] == Narrow(a[k], b[k])
      invariant forall k :: i <= k < |a| ==> r[k] == a[k]
    {
      var x := r[i];
      if b[i].maxA.Some? && !(x.maxA.Some? && x.maxA.value <= b[i].maxA.value) {
        x := x.(maxA := b[i].maxA);
      }
      if b[i].maxPhases.Some? && !(x.maxPhases.Some? && x.maxPhases.value <= b[i].maxPhases.value) {
        x := x.(maxPhases := b[i].maxPhases);
      }
      if b[i].maxW.Some? && !(x.maxW.Some? && x.maxW.value <= b[i].maxW.value) {
        x := x.(maxW := b[i].maxW);
      }
      if b[i].minA.Some? && !(x.minA.Some? && x.minA.value >= b[i].minA.value) {
        x := x.(minA := b[i].minA);
      }
      r := r[i := x];
    }
  }

  class Offer {
    var importOffer: seq<Limits>
    var exportOffer: seq<Limits>

    ghost predicate At(market: Market, nets: seq<Net<Market>>, sold: seq<map<Market, Sold>>)
      requires Rooted(market) && |sold| == |nets|
      requires forall i :: 0 <= i < |nets| ==> PathSet(market) <= sold[i].Keys == nets[i].imp.Keys == nets[i].exp.Keys
      reads this
    {
      && |importOffer| == |nets| && |exportOffer| == |nets|
      && (forall i :: 0 <= i < |nets| ==> OfferIs(importOffer[i], nets[i], sold[i], market, Import))
      && (forall i :: 0 <= i < |nets| ==> OfferIs(exportOffer[i], nets[i], sold[i], market, Export))
    }

    constructor (
      market: Market, ghost nodes: set<Market>, ghost nets: seq<Net<Market>>, ghost sold: seq<map<Market, Sold>>)
      requires Rooted(market) && PathSet(market) <= nodes && Shows(nodes, nets, sold)
      ensures At(market, nets, sold)
    {
      importOffer, exportOffer := [], [];
      new;
      CreateOfferForLocalMarket(market, nodes, nets, sold);
    }

    /** From the leaf to the root, and back down, narrowing the offer at each market place. */
    method CreateOfferForLocalMarket(
      market: Market, ghost nodes: set<Market>, ghost nets: seq<Net<Market>>, ghost sold: seq<map<Market, Sold>>)
      requires Rooted(market) && PathSet(market) <= nodes && Shows(nodes, nets, sold)
      modifies this
      ensures At(market, nets, sold)
      decreases market.depth
    {
      if !market.IsRoot() {
        CreateOfferForLocalMarket(market.parent, nodes, nets, sold);
      } else {
        importOffer := seq(|market.importMax|, _ => Unlimited);
        exportOffer := seq(|market.importMax|, _ => Unlimited);
      }
      forall i | 0 <= i < |nets|
        ensures OfferIs(Narrow(importOffer[i], Available(market.importMax[i], market.soldRoot[i], Import)),
                        nets[i], sold[i], market, Import)
        ensures OfferIs(Narrow(exportOffer[i], Available(market.exportMax[i], market.soldRoot[i], Export)),
                        nets[i], sold[i], market, Export)
      {
        OfferIsNarrowed(importOffer[i], nets[i], sold[i], market, Import);
        OfferIsNarrowed(exportOffer[i], nets[i], sold[i], market, Export);
      }
      var imports := market.GetAvailableEnergy(market.importMax, Import);
      importOffer := ApplyLimits(importOffer, imports);
      var exports := market.GetAvailableEnergy(market.exportMax, Export);
      exportOffer := ApplyLimits(exportOffer, exports);
    }
  }
}
