/**
 * The time grid of a schedule, and the resampling of a node's request to that grid.
 * Instants are integers.
 */
module EnergySchedule {
  import opened Wrappers
  import opened EnergySlot

  /** One entry of a requested time series, in force from its time until the next entry's. */
  datatype Entry = Entry(time: int, toRoot: Limits, toLeaves: Limits, efficiency: Option<real>)

  datatype Request = Request(
    uuid: string, evse: bool, imports: Option<seq<Entry>>, exports: Option<seq<Entry>>, children: seq<Request>)

  // ---------- The grid ----------

  predicate Increasing(xs: seq<int>) {
    forall i, j :: 0 <= i < j < |xs| ==> xs[i] < xs[j]
  }

  function TimesOfSchedule(schedule: Option<seq<Entry>>): seq<int> {
    if schedule.Some? then seq(|schedule.value|, i requires 0 <= i < |schedule.value| => schedule.value[i].time) else []
  }

  /** All timestamps of a request tree, in the order in which they are collected. */
  function TimesOf(request: Request): seq<int>
    decreases request, 0
  {
    TimesOfSchedule(request.imports) + TimesOfSchedule(request.exports) + TimesOfAll(request.children)
  }

  function TimesOfAll(requests: seq<Request>): seq<int>
    decreases requests, 1
  {
    if requests == [] then [] else TimesOfAll(requests[..|requests| - 1]) + TimesOf(requests[|requests| - 1])
  }

  lemma Joined(a: seq<int>, b: seq<int>, c: seq<int>)
    ensures a + b + c == a + (b + c)
  {
  }

  lemma OneMoreChild(requests: seq<Request>, i: nat)
    requires i < |requests|
    ensures TimesOfAll(requests[..i + 1]) == TimesOfAll(requests[..i]) + TimesOf(requests[i])
  {
    assert requests[..i + 1][..i] == requests[..i];
  }

  class Grid {
    var timestamps: seq<int>

    constructor ()
      ensures timestamps == []
    {
      timestamps := [];
    }

    method AddSchedule(schedule: Option<seq<Entry>>)
      modifies this
      ensures timestamps == old(timestamps) + TimesOfSchedule(schedule)
    {
      if schedule.Some? {
        for i := 0 to |schedule.value|
          invariant timestamps == old(timestamps) + TimesOfSchedule(schedule)[..i]
        {
          timestamps := timestamps + [schedule.value[i].time];
        }
      }
    }

    /** Collects the timestamps of a request and of everything below it. */
    method AddTimestamps(request: Request)
      modifies this
      ensures timestamps == old(timestamps) + TimesOf(request)
      decreases request, 1
    {
      AddSchedule(request.imports);
      AddSchedule(request.exports);
      AddTimestampsOf(request, request.children);
      var imports, exports := TimesOfSchedule(request.imports), TimesOfSchedule(request.exports);
      Joined(old(timestamps), imports, exports);
      Joined(old(timestamps), imports + exports, TimesOfAll(request.children));
    }

    method AddTimestampsOf(request: Request, children: seq<Request>)
      requires children == request.children
      modifies this
      ensures timestamps == old(timestamps) + TimesOfAll(children)
      decreases request, 0
    {
      for i := 0 to |children|
        invariant timestamps == old(timestamps) + TimesOfAll(children[..i])
      {
        AddTimestamps(children[i]);
        OneMoreChild(children, i);
        Joined(old(timestamps), TimesOfAll(children[..i]), TimesOf(children[i]));
      }
      assert children[..|children|] == children;
    }

    /**
     * The grid: regular slots from the start of the current interval, plus every instant of
     * every request. Timestamps of earlier calls are kept.
     */
    method CreateTimestamps(now: nat, leapSeconds: int, interval: nat, slots: nat, request: Request)
      requires interval > 0
      modifies this
      ensures Increasing(timestamps)
      ensures forall t :: t in timestamps <==>
        || t in old(timestamps) || t in RegularTimes(now - now % interval + leapSeconds, interval, slots)
        || t in TimesOf(request)
    {
      var start := now - now % interval + leapSeconds;
      var timepoint := start;
      for i := 0 to slots
        invariant timepoint == start + i * interval
        invariant timestamps == old(timestamps) + RegularTimes(start, interval, i)
      {
        timestamps := timestamps + [timepoint];
        timepoint := timepoint + interval;
      }
      AddTimestamps(request);
      var collected := timestamps;
      timestamps := [];
      for i := 0 to |collected|
        invariant Increasing(timestamps)
        invariant forall t :: t in timestamps <==> t in collected[..i]
      {
        timestamps := Insert(timestamps, collected[i]);
        assert collected[..i + 1] == collected[..i] + [collected[i]];
      }
      assert collected[..|collected|] == collected;
    }
  }

  function RegularTimes(start: int, interval: nat, slots: nat): seq<int> {
    if slots == 0 then [] else RegularTimes(start, interval, slots - 1) + [start + (slots - 1) * interval]
  }

  /** The regular instants are those that lie whole intervals after the start. */
  lemma {:induction false} RegularTimesExactly(start: int, interval: nat, slots: nat)
    ensures var ts := RegularTimes(start, interval, slots);
      |ts| == slots && forall k :: 0 <= k < slots ==> ts[k] == start + k * interval
  {
    if slots > 0 {
      RegularTimesExactly(start, interval, slots - 1);
    }
  }

  /** Insertion into a sorted list without duplicates. */
  function Insert(xs: seq<int>, t: int): (ys: seq<int>)
    requires Increasing(xs)
    ensures Increasing(ys)
    ensures forall u :: u in ys <==> u in xs || u == t
  {
    if xs == [] then [t]
    else
      var init, last := xs[..|xs| - 1], xs[|xs| - 1];
      assert xs == init + [last];
      if t == last then xs
      else if t > last then xs + [t]
      else
        var ys := Insert(init, t);
        assert forall k :: 0 <= k < |ys| ==> ys[k] in ys;
        ys + [last]
  }

  // ---------- Resampling ----------

  predicate ValidEntry(e: Entry) {
    && ValidLimits(e.toRoot) && ValidLimits(e.toLeaves)
    && (e.efficiency.Some? ==> e.efficiency.value > 0.0)
  }

  /** The leaf-side limit seen from the root side, lowered to the root-side limit. */
  function MergedLimit(leaf: Option<real>, root: Option<real>, efficiency: Option<real>): Option<real>
    requires efficiency.Some? ==> efficiency.value > 0.0
  {
    if leaf.None? then None
    else
      var x := leaf.value / efficiency.ValueOr(1.0);
      if root.Some? && x > root.value then root else Some(x)
  }

  function Merged(e: Entry): Limits
    requires ValidEntry(e)
  {
    Limits(MergedLimit(e.toLeaves.maxA, e.toRoot.maxA, e.efficiency),
           MergedLimit(e.toLeaves.maxW, e.toRoot.maxW, e.efficiency), e.toRoot.minA, e.toRoot.maxPhases)
  }

  /** Limit m is the tighter one of a root-side limit, and a leaf-side limit of which a share k arrives. */
  predicate Tighter(m: Option<real>, leaf: Option<real>, root: Option<real>, k: real) {
    if leaf.None? then m.None?
    else
      && m.Some? && m.value * k <= leaf.value && (root.Some? ==> m.value <= root.value)
      && (m.value * k == leaf.value || (root.Some? && m.value == root.value))
  }

  /** Limits l are those of an entry, with leaf-side limits converted to the root side. */
  predicate Converted(l: Limits, e: Entry) {
    var k := e.efficiency.ValueOr(1.0);
    && Tighter(l.maxA, e.toLeaves.maxA, e.toRoot.maxA, k) && Tighter(l.maxW, e.toLeaves.maxW, e.toRoot.maxW, k)
    && l.minA == e.toRoot.minA && l.maxPhases == e.toRoot.maxPhases
  }

  lemma TighterLimit(leaf: Option<real>, root: Option<real>, efficiency: Option<real>)
    requires efficiency.Some? ==> efficiency.value > 0.0
    ensures Tighter(MergedLimit(leaf, root, efficiency), leaf, root, efficiency.ValueOr(1.0))
  {
    if leaf.Some? {
      var k := efficiency.ValueOr(1.0);
      var x := leaf.value / k;
      assert x * k == leaf.value;
      if root.Some? && x > root.value {
        assert (x - root.value) * k >= 0.0;
      }
    }
  }

  /** Merging takes the tighter limit of the two sides, the leaf side divided by the conversion efficiency. */
  lemma MergedExactly(e: Entry)
    requires ValidEntry(e)
    ensures Converted(Merged(e), e)
  {
    TighterLimit(e.toLeaves.maxA, e.toRoot.maxA, e.efficiency);
    TighterLimit(e.toLeaves.maxW, e.toRoot.maxW, e.efficiency);
  }

  /** The entry the search settles on for instant t, starting at position i. */
  function Search(request: seq<Entry>, t: int, i: nat): (j: nat)
    requires i < |request|
    ensures i <= j < |request|
    decreases |request| - i
  {
    if i + 1 == |request| then i
    else if (request[i].time <= t && t < request[i + 1].time) || (i == 0 && t < request[0].time) then i
    else Search(request, t, i + 1)
  }

  /** The search stops at entry i: t lies between it and the next, or before all entries. */
  predicate StopsAt(request: seq<Entry>, t: int, i: nat) {
    i + 1 < |request| && (request[i].time <= t < request[i + 1].time || (i == 0 && t < request[0].time))
  }

  /** The search takes the first entry it can stop at, sorted or not, and the last entry if there is none. */
  lemma {:induction false} SearchStopsFirst(request: seq<Entry>, t: int, i: nat)
    requires i < |request|
    ensures var j := Search(request, t, i);
      && (StopsAt(request, t, j) || j == |request| - 1)
      && forall k :: i <= k < j ==> !StopsAt(request, t, k)
    decreases |request| - i
  {
    if i + 1 < |request| && !StopsAt(request, t, i) {
      SearchStopsFirst(request, t, i + 1);
    }
  }

  predicate TimeSorted(request: seq<Entry>) {
    forall i, j :: 0 <= i < j < |request| ==> request[i].time <= request[j].time
  }

  /** Entry j is the one in force at t: the last not later than t, or the first if t is before all. */
  predicate InForce(request: seq<Entry>, t: int, j: nat) {
    && j < |request|
    && (forall i :: j < i < |request| ==> t < request[i].time)
    && (request[j].time <= t || j == 0)
  }

  /** On a time-sorted request the search finds the entry in force. */
  lemma {:induction false} SearchFindsInForce(request: seq<Entry>, t: int, i: nat)
    requires TimeSorted(request) && i < |request|
    requires i > 0 ==> request[i].time <= t
    ensures InForce(request, t, Search(request, t, i))
    decreases |request| - i
  {
    if i + 1 < |request| && Search(request, t, i) != i {
      SearchFindsInForce(request, t, i + 1);
    }
  }

  lemma InForceUnique(request: seq<Entry>, t: int, j: nat, k: nat)
    requires InForce(request, t, j) && InForce(request, t, k)
    ensures j == k
  {
  }

  /** The limits of a schedule in force at instant t; a schedule without entries sets none. */
  function LimitsAt(request: seq<Entry>, t: int): Limits
    requires forall i :: 0 <= i < |request| ==> ValidEntry(request[i])
  {
    if request == [] then Unlimited else Merged(request[Search(request, t, 0)])
  }

  /** The limits in force are those of the entry in force. */
  lemma LimitsOfEntry(request: seq<Entry>, t: int, j: nat)
    requires forall i :: 0 <= i < |request| ==> ValidEntry(request[i])
    requires TimeSorted(request) && InForce(request, t, j)
    ensures Converted(LimitsAt(request, t), request[j])
  {
    SearchFindsInForce(request, t, 0);
    InForceUnique(request, t, Search(request, t, 0), j);
    MergedExactly(request[j]);
  }

  method GetMaxAvailableEnergy(request: seq<Entry>, grid: seq<int>) returns (available: seq<Limits>)
    requires forall i :: 0 <= i < |request| ==> ValidEntry(request[i])
    ensures |available| == |grid|
    ensures forall i :: 0 <= i < |grid| ==> available[i] == LimitsAt(request, grid[i])
    ensures forall i, j: nat :: 0 <= i < |grid| && TimeSorted(request) && InForce(request, grid[i], j) ==>
      Converted(available[i], request[j])
  {
    available := [];
    for i := 0 to |grid|
      invariant |available| == i
      invariant forall k :: 0 <= k < i ==> available[k] == LimitsAt(request, grid[k])
    {
      var a := Unlimited;
      var r := 0;
      var ir := 0;
      while ir != |request|
        invariant 0 <= ir <= |request|
        invariant request == [] ==> r == 0
        invariant ir < |request| ==> Search(request, grid[i], 0) == Search(request, grid[i], ir)
        invariant request != [] && ir == |request| ==> r == Search(request, grid[i], 0)
      {
        if ir + 1 == |request| {
          r := ir;
          break;
        }
        if (grid[i] >= request[ir].time && grid[i] < request[ir + 1].time) || (ir == 0 && grid[i] < request[ir].time) {
          r := ir;
          break;
        }
        ir := ir + 1;
      }
      if r != |request| {
        var e := request[r];
        if e.toLeaves.maxW.Some? {
          a := a.(maxW := Some(e.toLeaves.maxW.value / e.efficiency.ValueOr(1.0)));
        }
        if e.toRoot.maxW.Some? && a.maxW.Some? && a.maxW.value > e.toRoot.maxW.value {
          a := a.(maxW := Some(e.toRoot.maxW.value));
        }
        if e.toLeaves.maxA.Some? {
          a := a.(maxA := Some(e.toLeaves.maxA.value / e.efficiency.ValueOr(1.0)));
        }
        if e.toRoot.maxA.Some? && a.maxA.Some? && a.maxA.value > e.toRoot.maxA.value {
          a := a.(maxA := Some(e.toRoot.maxA.value));
        }
        a := a.(minA := e.toRoot.minA, maxPhases := e.toRoot.maxPhases);
      }
      available := available + [a];
    }
    forall i, j: nat | 0 <= i < |grid| && TimeSorted(request) && InForce(request, grid[i], j)
      ensures Converted(available[i], request[j])
    {
      LimitsOfEntry(request, grid[i], j);
    }
  }

  lemma MergedValid(e: Entry)
    requires ValidEntry(e)
    ensures ValidLimits(Merged(e))
  {
  }

  // ---------- What a request asks for ----------

  predicate ValidSchedule(schedule: Option<seq<Entry>>) {
    schedule.Some? ==> forall i :: 0 <= i < |schedule.value| ==> ValidEntry(schedule.value[i])
  }

  predicate SortedSchedule(schedule: Option<seq<Entry>>) {
    schedule.Some? ==> TimeSorted(schedule.value)
  }

  predicate ValidRequest(request: Request) {
    && ValidSchedule(request.imports) && ValidSchedule(request.exports)
    && forall i :: 0 <= i < |request.children| ==> ValidRequest(request.children[i])
  }

  const NothingAvailable := Limits(Some(0.0), Some(0.0), None, None)

  /** The limits a schedule sets at an instant; without a schedule nothing may flow. */
  function ScheduledLimits(schedule: Option<seq<Entry>>, t: int): (l: Limits)
    requires ValidSchedule(schedule)
    ensures ValidLimits(l)
  {
    if schedule.None? then NothingAvailable
    else if schedule.value == [] then LimitsAt(schedule.value, t)
    else
      MergedValid(schedule.value[Search(schedule.value, t, 0)]);
      LimitsAt(schedule.value, t)
  }

  /** A limit is set at t unless there is a sorted schedule that is empty or sets none on its leaf side then. */
  lemma UnlimitedExactly(schedule: Option<seq<Entry>>, t: int)
    requires ValidSchedule(schedule) && SortedSchedule(schedule)
    ensures ScheduledLimits(schedule, t).maxA.None? <==>
      schedule.Some? && forall j: nat :: InForce(schedule.value, t, j) ==> schedule.value[j].toLeaves.maxA.None?
    ensures ScheduledLimits(schedule, t).maxW.None? <==>
      schedule.Some? && forall j: nat :: InForce(schedule.value, t, j) ==> schedule.value[j].toLeaves.maxW.None?
  {
    if schedule.Some? && schedule.value != [] {
      SearchFindsInForce(schedule.value, t, 0);
      forall j: nat | InForce(schedule.value, t, j)
        ensures Converted(LimitsAt(schedule.value, t), schedule.value[j])
      {
        LimitsOfEntry(schedule.value, t, j);
      }
    }
  }

  // ---------- Limits on the root side ----------

  predicate Keeps(merged: Option<real>, root: Option<real>) {
    root.Some? ==> merged.Some? && merged.value <= root.value
  }

  /** The merged limits keep a limit on the root side if and only if there is one on the leaf side too. */
  lemma RootLimitKeptExactly(e: Entry)
    requires ValidEntry(e)
    ensures Keeps(Merged(e).maxA, e.toRoot.maxA) <==> e.toRoot.maxA.None? || e.toLeaves.maxA.Some?
    ensures Keeps(Merged(e).maxW, e.toRoot.maxW) <==> e.toRoot.maxW.None? || e.toLeaves.maxW.Some?
  {
  }

  /** A node that may take x amperes, by a limit on its root side only, above an EVSE that may take more. */
  ghost function DroppingNet(x: real): (net: Net<bool>)
    requires x >= 0.0
    ensures ValidNet(net)
  {
    var trunk := Merged(Entry(0, Unlimited.(maxA := Some(x)), Unlimited, None));
    var evse := Merged(Entry(0, Unlimited, Unlimited.(maxA := Some(x + 1.0)), None));
    var shut := NothingAvailable;
    Net(map[false := trunk, true := evse], map[false := shut, true := shut], [[false, true]],
        Params(230.0, x + 1.0, 1000.0))
  }

  /** A dropped limit is exceeded: one purchase takes more than x amperes through the node. */
  lemma DroppedLimitIsExceeded(x: real)
    requires x >= 0.0
    ensures var net := DroppingNet(x); Amp(Step(net, Initial(net), 0).sold[false]) > x
  {
    var net := DroppingNet(x);
    var s := Initial(net);
    var path := net.paths[0];
    assert path[..1] == [false] && path[..1][..0] == [];
    assert OfferOn(net, s.sold, path[..1], Import) == Narrow(Unlimited, Available(net.imp[false], NothingSold, Import));
    assert Offer(net, s, 0, Import).maxA == Some(x + 1.0);
    assert Decision(net, s, 0).sold.amp == Some(x + 1.0);
  }

  // ---------- The grid refines every request ----------

  /** Slot g of the grid is the one that covers instant t. */
  predicate Covering(grid: seq<int>, t: int, g: nat) {
    g < |grid| && grid[g] <= t && (g + 1 < |grid| ==> t < grid[g + 1])
  }

  /**
   * Resampling refines the request: at every instant t the grid covers, the resampled limits of
   * the slot are the limits the request sets at t, because no entry begins inside a slot.
   */
  lemma ResamplingRefines(request: seq<Entry>, grid: seq<int>, t: int, g: nat)
    requires forall i :: 0 <= i < |request| ==> ValidEntry(request[i])
    requires TimeSorted(request) && Increasing(grid) && Covering(grid, t, g)
    requires forall i :: 0 <= i < |request| ==> request[i].time in grid
    ensures LimitsAt(request, grid[g]) == LimitsAt(request, t)
  {
    if request != [] {
      SearchFindsInForce(request, grid[g], 0);
      SearchFindsInForce(request, t, 0);
      var j := Search(request, grid[g], 0);
      forall i | j < i < |request|
        ensures t < request[i].time
      {
        var k :| 0 <= k < |grid| && grid[k] == request[i].time;
        assert grid[g] < grid[k];
      }
      InForceUnique(request, t, j, Search(request, t, 0));
    }
  }

  /** Between two instants, a valid and sorted schedule does not change. */
  predicate Unchanged(schedule: Option<seq<Entry>>, t: int, u: int) {
    ValidSchedule(schedule) && SortedSchedule(schedule) ==> ScheduledLimits(schedule, t) == ScheduledLimits(schedule, u)
  }

  /** A node of a request tree. */
  predicate Contains(request: Request, node: Request)
    decreases request
  {
    request == node || exists i :: 0 <= i < |request.children| && Contains(request.children[i], node)
  }

  lemma {:induction false} TimesOfChild(requests: seq<Request>, i: nat, t: int)
    requires i < |requests| && t in TimesOf(requests[i])
    ensures t in TimesOfAll(requests)
  {
    if i < |requests| - 1 {
      TimesOfChild(requests[..|requests| - 1], i, t);
    }
  }

  /** Every instant that any node of the tree speaks of is collected. */
  lemma {:induction false} TimesOfNode(request: Request, node: Request, t: int)
    requires Contains(request, node) && t in TimesOf(node)
    ensures t in TimesOf(request)
    decreases request
  {
    if request != node {
      var i :| 0 <= i < |request.children| && Contains(request.children[i], node);
      TimesOfNode(request.children[i], node, t);
      TimesOfChild(request.children, i, t);
    }
  }

  lemma {:induction false} ContainsChild(request: Request, node: Request, child: Request)
    requires Contains(request, node) && child in node.children
    ensures Contains(request, child)
    decreases request
  {
    if request == node {
      var i :| 0 <= i < |request.children| && request.children[i] == child;
      assert Contains(request.children[i], child);
    } else {
      var i :| 0 <= i < |request.children| && Contains(request.children[i], node);
      ContainsChild(request.children[i], node, child);
    }
  }

  /** A grid as it is created for a request. */
  predicate GridFor(grid: seq<int>, request: Request) {
    Increasing(grid) && forall t :: t in TimesOf(request) ==> t in grid
  }

  lemma ScheduleUnchanged(schedule: Option<seq<Entry>>, grid: seq<int>, t: int, g: nat)
    requires Increasing(grid) && Covering(grid, t, g)
    requires forall u :: u in TimesOfSchedule(schedule) ==> u in grid
    ensures Unchanged(schedule, grid[g], t)
  {
    if schedule.Some? && ValidSchedule(schedule) && SortedSchedule(schedule) {
      forall i | 0 <= i < |schedule.value|
        ensures schedule.value[i].time in grid
      {
        assert TimesOfSchedule(schedule)[i] == schedule.value[i].time;
      }
      ResamplingRefines(schedule.value, grid, t, g);
    }
  }

  /**
   * On the grid that is created for a request tree, every node's schedules are refined: at every instant
   * the grid covers, the limits of the slot are those the node's request sets at that instant.
   */
  lemma GridRefinesEveryNode(request: Request, node: Request, grid: seq<int>, t: int, g: nat)
    requires GridFor(grid, request) && Contains(request, node) && Covering(grid, t, g)
    ensures Unchanged(node.imports, grid[g], t) && Unchanged(node.exports, grid[g], t)
  {
    forall u | u in TimesOf(node)
      ensures u in grid
    {
      TimesOfNode(request, node, u);
    }
    ScheduleUnchanged(node.imports, grid, t, g);
    ScheduleUnchanged(node.exports, grid, t, g);
  }
}
