/**
 * Conservation: after any run, what a node has sold is exactly the sum of what the brokers
 * below it have traded, and equals its own brokers' trades plus what its children have sold.
 */
module EnergyConservation {
  import opened Wrappers
  import opened EnergySlot

  datatype Unit = Ampere | WattUnit

  /** A booked amount in a unit, unset counting as zero. */
  function Amount(x: Sold, u: Unit): real {
    if u.Ampere? then Amp(x) else Watt(x)
  }

  /** All that broker b trades during the run bs. */
  ghost function Traded<N>(u: Unit, net: Net<N>, s: Slot<N>, bs: seq<nat>, b: nat): real
    requires ValidNet(net) && Shaped(net, s) && Schedulable(net, bs)
    decreases |bs|
  {
    if bs == [] then 0.0
    else
      var past, last := bs[..|bs| - 1], bs[|bs| - 1];
      Traded(u, net, s, past, b) + (if last == b then Amount(Decision(net, Run(net, s, past), b).sold, u) else 0.0)
  }

  /** What every broker trades during the run. */
  ghost function AllTraded<N>(u: Unit, net: Net<N>, s: Slot<N>, bs: seq<nat>): (xs: seq<real>)
    requires ValidNet(net) && Shaped(net, s) && Schedulable(net, bs)
    ensures |xs| == |net.paths|
  {
    seq(|net.paths|, b requires 0 <= b < |net.paths| => Traded(u, net, s, bs, b))
  }

  /** The sum of the first k amounts, as far as they are marked. */
  ghost function Marked(xs: seq<real>, marks: seq<bool>, k: nat): real
    requires k <= |xs| == |marks|
  {
    if k == 0 then 0.0 else Marked(xs, marks, k - 1) + (if marks[k - 1] then xs[k - 1] else 0.0)
  }

  /** The brokers whose path leads through a node. */
  ghost function Through<N>(net: Net<N>, n: N): (marks: seq<bool>)
    ensures |marks| == |net.paths|
  {
    seq(|net.paths|, b requires 0 <= b < |net.paths| => n in net.paths[b])
  }

  /** The brokers whose own market place is a node. */
  ghost function At<N>(net: Net<N>, n: N): (marks: seq<bool>)
    requires ValidNet(net)
    ensures |marks| == |net.paths|
  {
    seq(|net.paths|, b requires 0 <= b < |net.paths| => Own(net, b) == n)
  }

  /** All that the first k brokers trade, as far as node n lies on their path. */
  ghost function TradedBelow<N>(u: Unit, net: Net<N>, s: Slot<N>, bs: seq<nat>, n: N, k: nat): real
    requires ValidNet(net) && Shaped(net, s) && Schedulable(net, bs) && k <= |net.paths|
  {
    Marked(AllTraded(u, net, s, bs), Through(net, n), k)
  }

  /** All that the first k brokers trade whose own market place is n. */
  ghost function TradedAt<N>(u: Unit, net: Net<N>, s: Slot<N>, bs: seq<nat>, n: N, k: nat): real
    requires ValidNet(net) && Shaped(net, s) && Schedulable(net, bs) && k <= |net.paths|
  {
    Marked(AllTraded(u, net, s, bs), At(net, n), k)
  }

  /** What the last turn of a run adds for a broker. */
  ghost function LastTraded<N>(u: Unit, net: Net<N>, s: Slot<N>, bs: seq<nat>): real
    requires ValidNet(net) && Shaped(net, s) && Schedulable(net, bs) && bs != []
  {
    Amount(Decision(net, Run(net, s, bs[..|bs| - 1]), bs[|bs| - 1]).sold, u)
  }

  lemma OneTraded<N>(u: Unit, net: Net<N>, s: Slot<N>, bs: seq<nat>, b: nat)
    requires ValidNet(net) && Shaped(net, s) && Schedulable(net, bs) && bs != []
    ensures Traded(u, net, s, bs, b) ==
      Traded(u, net, s, bs[..|bs| - 1], b) + if b == bs[|bs| - 1] then LastTraded(u, net, s, bs) else 0.0
  {
  }

  /** One amount has grown by x. */
  ghost predicate GrownByOne(xs: seq<real>, ys: seq<real>, last: nat, x: real) {
    |ys| == |xs| && forall b :: 0 <= b < |xs| ==> ys[b] == xs[b] + if b == last then x else 0.0
  }

  lemma TradedGrows<N>(u: Unit, net: Net<N>, s: Slot<N>, bs: seq<nat>)
    requires ValidNet(net) && Shaped(net, s) && Schedulable(net, bs) && bs != []
    ensures GrownByOne(AllTraded(u, net, s, bs[..|bs| - 1]), AllTraded(u, net, s, bs), bs[|bs| - 1],
                  LastTraded(u, net, s, bs))
  {
    forall b | 0 <= b < |net.paths|
      ensures Traded(u, net, s, bs, b) ==
        Traded(u, net, s, bs[..|bs| - 1], b) + if b == bs[|bs| - 1] then LastTraded(u, net, s, bs) else 0.0
    {
      OneTraded(u, net, s, bs, b);
    }
  }

  lemma {:induction false} MarkedGrows(xs: seq<real>, ys: seq<real>, marks: seq<bool>, last: nat, x: real, k: nat)
    requires k <= |xs| == |marks| && GrownByOne(xs, ys, last, x)
    ensures Marked(ys, marks, k) == Marked(xs, marks, k) + if last < k && marks[last] then x else 0.0
  {
    if k > 0 {
      MarkedGrows(xs, ys, marks, last, x, k - 1);
    }
  }

  lemma {:induction false} MarkedZero(xs: seq<real>, marks: seq<bool>, k: nat)
    requires k <= |xs| == |marks| && forall b :: 0 <= b < |xs| ==> xs[b] == 0.0
    ensures Marked(xs, marks, k) == 0.0
  {
    if k > 0 {
      MarkedZero(xs, marks, k - 1);
    }
  }

  lemma BookedFlow<N>(u: Unit, sold: map<N, Sold>, path: seq<N>, x: Sold, n: N)
    requires n in sold
    ensures Amount(Book(sold, path, x)[n], u) == Amount(sold[n], u) + (if n in path then Amount(x, u) else 0.0)
  {
  }

  /** Conservation: a node has sold what the brokers below it have traded, no more, no less. */
  lemma {:induction false} Conservation<N>(u: Unit, net: Net<N>, bs: seq<nat>, n: N)
    requires ValidNet(net) && Schedulable(net, bs) && n in net.imp
    ensures Amount(Run(net, Initial(net), bs).sold[n], u) == TradedBelow(u, net, Initial(net), bs, n, |net.paths|)
    decreases |bs|
  {
    if bs == [] {
      MarkedZero(AllTraded(u, net, Initial(net), bs), Through(net, n), |net.paths|);
    } else {
      var past, last := bs[..|bs| - 1], bs[|bs| - 1];
      Conservation(u, net, past, n);
      TradedGrows(u, net, Initial(net), bs);
      MarkedGrows(AllTraded(u, net, Initial(net), past), AllTraded(u, net, Initial(net), bs), Through(net, n), last,
                  LastTraded(u, net, Initial(net), bs), |net.paths|);
      var s := Run(net, Initial(net), past);
      BookedFlow(u, s.sold, net.paths[last], Decision(net, s, last).sold, n);
    }
  }

  // ---------- The current law at a node ----------

  /** The children of n are where a path goes on below n, and are reached only through n. */
  ghost predicate Children<N>(net: Net<N>, n: N, kids: seq<N>) {
    && (forall i, j :: 0 <= i < j < |kids| ==> kids[i] != kids[j])
    && (forall i :: 0 <= i < |kids| ==> kids[i] in net.imp && kids[i] != n)
    && (forall b :: 0 <= b < |net.paths| ==> GoesOnThrough(net.paths[b], n, kids))
  }

  ghost predicate GoesOnThrough<N>(path: seq<N>, n: N, kids: seq<N>) {
    && (forall i, j :: 0 <= i < j < |path| ==> path[i] != path[j])
    && (forall i :: 0 <= i < |path| && path[i] in kids ==> i > 0 && path[i - 1] == n)
    && (forall i :: 0 <= i < |path| - 1 && path[i] == n ==> path[i + 1] in kids)
  }

  ghost function SoldBy<N>(u: Unit, sold: map<N, Sold>, kids: seq<N>): real
    requires forall i :: 0 <= i < |kids| ==> kids[i] in sold
  {
    if kids == [] then 0.0
    else SoldBy(u, sold, kids[..|kids| - 1]) + Amount(sold[kids[|kids| - 1]], u)
  }

  lemma {:induction false} SoldByUntouched<N>(u: Unit, sold: map<N, Sold>, path: seq<N>, x: Sold, kids: seq<N>)
    requires forall i :: 0 <= i < |kids| ==> kids[i] in sold && kids[i] !in path
    ensures SoldBy(u, Book(sold, path, x), kids) == SoldBy(u, sold, kids)
  {
    if kids != [] {
      SoldByUntouched(u, sold, path, x, kids[..|kids| - 1]);
    }
  }

  /** Exactly one child lies on the path: the children together sell exactly x more. */
  lemma {:induction false} SoldByOne<N>(u: Unit, sold: map<N, Sold>, path: seq<N>, x: Sold, kids: seq<N>, j: nat)
    requires forall i :: 0 <= i < |kids| ==> kids[i] in sold
    requires j < |kids| && kids[j] in path
    requires forall i :: 0 <= i < |kids| && i != j ==> kids[i] !in path
    ensures SoldBy(u, Book(sold, path, x), kids) == SoldBy(u, sold, kids) + Amount(x, u)
  {
    var last := |kids| - 1;
    BookedFlow(u, sold, path, x, kids[last]);
    if j < last {
      SoldByOne(u, sold, path, x, kids[..last], j);
    } else {
      SoldByUntouched(u, sold, path, x, kids[..last]);
    }
  }

  /** A booking that passes through n, and does not end there, passes through exactly one child. */
  lemma ChildrenCarry<N>(u: Unit, sold: map<N, Sold>, path: seq<N>, x: Sold, n: N, kids: seq<N>)
    requires path != [] && GoesOnThrough(path, n, kids)
    requires forall i, j :: 0 <= i < j < |kids| ==> kids[i] != kids[j]
    requires forall i :: 0 <= i < |kids| ==> kids[i] in sold
    ensures SoldBy(u, Book(sold, path, x), kids) ==
            SoldBy(u, sold, kids) + (if n in path && path[|path| - 1] != n then Amount(x, u) else 0.0)
  {
    forall k | 0 <= k < |kids| && kids[k] in path
      ensures n in path && path[|path| - 1] != n
    {
      var m :| 0 <= m < |path| && path[m] == kids[k];
      assert path[m - 1] == n;
    }
    if n in path && path[|path| - 1] != n {
      var i :| 0 <= i < |path| && path[i] == n;
      assert path[i + 1] in kids;
      var j :| 0 <= j < |kids| && kids[j] == path[i + 1];
      forall k | 0 <= k < |kids| && kids[k] in path
        ensures k == j
      {
        var m :| 0 <= m < |path| && path[m] == kids[k];
        assert path[m - 1] == n && m - 1 == i;
      }
      SoldByOne(u, sold, path, x, kids, j);
    } else {
      SoldByUntouched(u, sold, path, x, kids);
    }
  }

  lemma {:induction false} NothingSoldBy<N>(u: Unit, net: Net<N>, kids: seq<N>)
    requires forall i :: 0 <= i < |kids| ==> kids[i] in net.imp
    ensures SoldBy(u, Initial(net).sold, kids) == 0.0
  {
    if kids != [] {
      NothingSoldBy(u, net, kids[..|kids| - 1]);
    }
  }

  /** After any run, what n sold is what its own brokers traded plus what its children sold. */
  lemma {:induction false} CurrentLaw<N>(u: Unit, net: Net<N>, bs: seq<nat>, n: N, kids: seq<N>)
    requires ValidNet(net) && Schedulable(net, bs) && n in net.imp && Children(net, n, kids)
    ensures var s := Run(net, Initial(net), bs);
      Amount(s.sold[n], u) == TradedAt(u, net, Initial(net), bs, n, |net.paths|) + SoldBy(u, s.sold, kids)
    decreases |bs|
  {
    if bs == [] {
      NothingSoldBy(u, net, kids);
      MarkedZero(AllTraded(u, net, Initial(net), bs), At(net, n), |net.paths|);
    } else {
      var past, last := bs[..|bs| - 1], bs[|bs| - 1];
      CurrentLaw(u, net, past, n, kids);
      TradedGrows(u, net, Initial(net), bs);
      MarkedGrows(AllTraded(u, net, Initial(net), past), AllTraded(u, net, Initial(net), bs), At(net, n), last,
                  LastTraded(u, net, Initial(net), bs), |net.paths|);
      var s := Run(net, Initial(net), past);
      assert OnNet(net, net.paths[last]) && GoesOnThrough(net.paths[last], n, kids);
      BookedFlow(u, s.sold, net.paths[last], Decision(net, s, last).sold, n);
      ChildrenCarry(u, s.sold, net.paths[last], Decision(net, s, last).sold, n, kids);
    }
  }

  // ---------- Any cut below a node carries what the node has sold ----------

  /** Every path through n passes exactly one node of the cut, and no other path passes any. */
  ghost predicate Cut<N>(net: Net<N>, n: N, kids: seq<N>) {
    && (forall i, j :: 0 <= i < j < |kids| ==> kids[i] != kids[j])
    && (forall i :: 0 <= i < |kids| ==> kids[i] in net.imp)
    && (forall b :: 0 <= b < |net.paths| ==> CutOnce(net.paths[b], n, kids))
  }

  ghost predicate CutOnce<N>(path: seq<N>, n: N, kids: seq<N>) {
    if n in path then exists j :: 0 <= j < |kids| && CutAt(path, kids, j)
    else forall i :: 0 <= i < |kids| ==> kids[i] !in path
  }

  ghost predicate CutAt<N>(path: seq<N>, kids: seq<N>, j: nat)
    requires j < |kids|
  {
    kids[j] in path && forall i :: 0 <= i < |kids| && i != j ==> kids[i] !in path
  }

  lemma CutCarries<N>(u: Unit, sold: map<N, Sold>, path: seq<N>, x: Sold, n: N, kids: seq<N>)
    requires CutOnce(path, n, kids)
    requires forall i :: 0 <= i < |kids| ==> kids[i] in sold
    ensures SoldBy(u, Book(sold, path, x), kids) == SoldBy(u, sold, kids) + if n in path then Amount(x, u) else 0.0
  {
    if n in path {
      var j :| 0 <= j < |kids| && CutAt(path, kids, j);
      SoldByOne(u, sold, path, x, kids, j);
    } else {
      SoldByUntouched(u, sold, path, x, kids);
    }
  }

  /** After any run, the nodes of a cut below n have sold together what n has sold. */
  lemma {:induction false} CutLaw<N>(u: Unit, net: Net<N>, bs: seq<nat>, n: N, kids: seq<N>)
    requires ValidNet(net) && Schedulable(net, bs) && n in net.imp && Cut(net, n, kids)
    ensures var s := Run(net, Initial(net), bs); Amount(s.sold[n], u) == SoldBy(u, s.sold, kids)
    decreases |bs|
  {
    if bs == [] {
      NothingSoldBy(u, net, kids);
    } else {
      var past, last := bs[..|bs| - 1], bs[|bs| - 1];
      CutLaw(u, net, past, n, kids);
      var s := Run(net, Initial(net), past);
      var x := Decision(net, s, last).sold;
      BookedFlow(u, s.sold, net.paths[last], x, n);
      CutCarries(u, s.sold, net.paths[last], x, n, kids);
    }
  }

  // ---------- What the EVSEs are sent adds up to what a node has sold ----------

  /** The paths are those of a tree: where two of them meet, they have come the same way. */
  ghost predicate TreeShaped<N>(net: Net<N>) {
    forall b, c :: 0 <= b < |net.paths| && 0 <= c < |net.paths| ==> SameWay(net.paths[b], net.paths[c])
  }

  ghost predicate SameWay<N>(p: seq<N>, q: seq<N>) {
    forall i, j :: 0 <= i < |p| && 0 <= j < |q| && p[i] == q[j] ==> i == j && p[..i + 1] == q[..j + 1]
  }

  /** One broker for every market place that has any. */
  ghost predicate OneEach<N>(net: Net<N>)
    requires ValidNet(net)
  {
    forall b, c :: 0 <= b < |net.paths| && 0 <= c < |net.paths| && b != c ==> Own(net, b) != Own(net, c)
  }

  /** Broker c's market place lies between n and broker b's. */
  ghost predicate Between<N>(net: Net<N>, n: N, c: nat, b: nat)
    requires ValidNet(net) && b < |net.paths| && c < |net.paths|
  {
    b != c && n in net.paths[c] && Own(net, c) in net.paths[b]
  }

  /** From n down to broker b's market place there is no other broker's. */
  ghost predicate Outermost<N>(net: Net<N>, n: N, b: nat)
    requires ValidNet(net) && b < |net.paths|
  {
    n in net.paths[b] && forall c :: 0 <= c < |net.paths| ==> !Between(net, n, c, b)
  }

  /** The market places of the first k brokers, as far as they are outermost below n. */
  ghost function Rim<N>(net: Net<N>, n: N, k: nat): seq<N>
    requires ValidNet(net) && k <= |net.paths|
  {
    if k == 0 then []
    else if Outermost(net, n, k - 1) then Rim(net, n, k - 1) + [Own(net, k - 1)]
    else Rim(net, n, k - 1)
  }

  /** What the first k brokers hold at their own market places, as far as they are outermost below n. */
  ghost function HeldBelow<N>(u: Unit, net: Net<N>, s: Slot<N>, n: N, k: nat): real
    requires ValidNet(net) && Shaped(net, s) && k <= |net.paths|
  {
    if k == 0 then 0.0
    else HeldBelow(u, net, s, n, k - 1) + if Outermost(net, n, k - 1) then Amount(s.sold[Own(net, k - 1)], u) else 0.0
  }

  lemma {:induction false} RimExactly<N>(net: Net<N>, n: N, k: nat, x: N)
    requires ValidNet(net) && k <= |net.paths|
    ensures x in Rim(net, n, k) <==> exists b :: 0 <= b < k && Outermost(net, n, b) && Own(net, b) == x
  {
    if k > 0 {
      RimExactly(net, n, k - 1, x);
    }
  }

  lemma {:induction false} RimDistinct<N>(net: Net<N>, n: N, k: nat)
    requires ValidNet(net) && OneEach(net) && k <= |net.paths|
    ensures forall i, j :: 0 <= i < j < |Rim(net, n, k)| ==> Rim(net, n, k)[i] != Rim(net, n, k)[j]
  {
    if k > 0 {
      RimDistinct(net, n, k - 1);
      RimExactly(net, n, k - 1, Own(net, k - 1));
    }
  }

  lemma {:induction false} RimSold<N>(u: Unit, net: Net<N>, s: Slot<N>, n: N, k: nat)
    requires ValidNet(net) && Shaped(net, s) && k <= |net.paths|
    ensures forall i :: 0 <= i < |Rim(net, n, k)| ==> Rim(net, n, k)[i] in s.sold
    ensures SoldBy(u, s.sold, Rim(net, n, k)) == HeldBelow(u, net, s, n, k)
  {
    if k > 0 {
      RimSold(u, net, s, n, k - 1);
      var rim := Rim(net, n, k);
      if Outermost(net, n, k - 1) {
        assert rim[..|rim| - 1] == Rim(net, n, k - 1);
      }
    }
  }

  /** A path that passes a broker's market place begins like the broker's own path. */
  lemma PassesAlike<N>(net: Net<N>, b: nat, c: nat)
    requires ValidNet(net) && TreeShaped(net) && b < |net.paths| && c < |net.paths| && Own(net, c) in net.paths[b]
    ensures net.paths[c] <= net.paths[b]
  {
    var p, q := net.paths[b], net.paths[c];
    assert OnNet(net, q) && SameWay(q, p);
    var i :| 0 <= i < |p| && p[i] == Own(net, c);
    assert q[|q| - 1] == p[i];
  }

  /** Every path through n passes an outermost market place. */
  lemma {:induction false} PassesRim<N>(net: Net<N>, n: N, b: nat) returns (c: nat)
    requires ValidNet(net) && TreeShaped(net) && OneEach(net) && b < |net.paths| && n in net.paths[b]
    ensures c < |net.paths| && Outermost(net, n, c) && Own(net, c) in net.paths[b]
    decreases |net.paths[b]|
  {
    if Outermost(net, n, b) {
      c := b;
    } else {
      var d: nat :| d < |net.paths| && Between(net, n, d, b);
      PassesAlike(net, b, d);
      assert OnNet(net, net.paths[d]) && OnNet(net, net.paths[b]);
      assert Own(net, d) != Own(net, b) && net.paths[d] != net.paths[b];
      c := PassesRim(net, n, d);
    }
  }

  /** Two outermost market places do not lie on one path. */
  lemma RimPassedOnce<N>(net: Net<N>, n: N, b: nat, c: nat, d: nat)
    requires ValidNet(net) && TreeShaped(net) && b < |net.paths| && c < |net.paths| && d < |net.paths|
    requires Outermost(net, n, c) && Own(net, c) in net.paths[b]
    requires Outermost(net, n, d) && Own(net, d) in net.paths[b]
    ensures c == d
  {
    PassesAlike(net, b, c);
    PassesAlike(net, b, d);
    if |net.paths[c]| <= |net.paths[d]| {
      PrefixLiesBetween(net, n, c, d);
    } else {
      PrefixLiesBetween(net, n, d, c);
    }
  }

  lemma PrefixLiesBetween<N>(net: Net<N>, n: N, c: nat, d: nat)
    requires ValidNet(net) && c < |net.paths| && d < |net.paths| && net.paths[c] <= net.paths[d] && n in net.paths[c]
    ensures c == d || Between(net, n, c, d)
  {
    assert OnNet(net, net.paths[c]);
    assert net.paths[d][|net.paths[c]| - 1] == Own(net, c);
  }

  /** The outermost market places below n are a cut. */
  lemma RimCuts<N>(net: Net<N>, n: N)
    requires ValidNet(net) && TreeShaped(net) && OneEach(net)
    ensures Cut(net, n, Rim(net, n, |net.paths|))
  {
    var k := |net.paths|;
    var rim := Rim(net, n, k);
    RimDistinct(net, n, k);
    forall i | 0 <= i < |rim|
      ensures rim[i] in net.imp
    {
      RimExactly(net, n, k, rim[i]);
    }
    forall b | 0 <= b < k
      ensures CutOnce(net.paths[b], n, rim)
    {
      RimCutsOnce(net, n, b);
    }
  }

  lemma RimCutsOnce<N>(net: Net<N>, n: N, b: nat)
    requires ValidNet(net) && TreeShaped(net) && OneEach(net) && b < |net.paths|
    ensures CutOnce(net.paths[b], n, Rim(net, n, |net.paths|))
  {
    var k := |net.paths|;
    var rim := Rim(net, n, k);
    if n in net.paths[b] {
      var c := PassesRim(net, n, b);
      RimExactly(net, n, k, Own(net, c));
      var j :| 0 <= j < |rim| && rim[j] == Own(net, c);
      RimDistinct(net, n, k);
      forall i | 0 <= i < |rim| && rim[i] in net.paths[b]
        ensures i == j
      {
        RimExactly(net, n, k, rim[i]);
        var d :| 0 <= d < k && Outermost(net, n, d) && Own(net, d) == rim[i];
        RimPassedOnce(net, n, b, c, d);
      }
      assert CutAt(net.paths[b], rim, j);
    } else {
      forall i | 0 <= i < |rim|
        ensures rim[i] !in net.paths[b]
      {
        RimExactly(net, n, k, rim[i]);
        var d :| 0 <= d < k && Outermost(net, n, d) && Own(net, d) == rim[i];
        if rim[i] in net.paths[b] {
          PassesAlike(net, b, d);
        }
      }
    }
  }

  /** A node has sold exactly what the outermost EVSEs below it hold together. */
  lemma SoldIsHeld<N>(u: Unit, net: Net<N>, bs: seq<nat>, n: N)
    requires ValidNet(net) && Schedulable(net, bs) && TreeShaped(net) && OneEach(net) && n in net.imp
    ensures var s := Run(net, Initial(net), bs);
      Amount(s.sold[n], u) == HeldBelow(u, net, s, n, |net.paths|)
  {
    RimCuts(net, n);
    CutLaw(u, net, bs, n, Rim(net, n, |net.paths|));
    RimSold(u, net, Run(net, Initial(net), bs), n, |net.paths|);
  }
}
