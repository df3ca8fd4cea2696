/** The cheapest-route search of router/src/route.cpp: Dijkstra over a heap that keeps stale entries. */
module Dijkstra {
  import opened Common
  import opened RoutingGraph
  import opened Routes
  import opened SearchSteps

  datatype Route = Route(edges: seq<Edge>, totalFee: real)

  datatype SearchError = SourceOutOfRange | DestinationOutOfRange

  /**
   * What is searched; no eligible edge leaves an `exempt` node, and only exempt nodes are reached at a negative fee.
   */
  datatype Problem = Problem(adj: Adjacency, amount: real, source: nat, exempt: set<nat>) {
    ghost predicate Exempt(u: nat) {
      u in exempt
    }

    ghost predicate Ok() {
      && Closed(adj)
      && (forall u, k :: 0 <= u < |adj| && 0 <= k < |adj[u]| && Eligible(adj[u][k], amount) ==>
        u !in exempt && (adj[u][k].fee < 0.0 ==> adj[u][k].to in exempt))
    }
  }

  /** The nodes expanded so far, the last one up to its edge `k`. */
  datatype Progress = Progress(order: seq<nat>, k: nat) {
    ghost function Last(): nat
      requires order != []
    {
      order[|order| - 1]
    }

    /** How many edges of the `i`-th expanded node have been looked at. */
    ghost function Scanned(adj: Adjacency, i: nat): nat
      requires i < |order| && order[i] < |adj|
    {
      if i + 1 == |order| then k else |adj[order[i]]|
    }

    ghost predicate Ok(p: Problem, l: Labels) {
      && l.Sized(|p.adj|)
      && (forall i :: 0 <= i < |order| ==> l.Reached(order[i]) && !p.Exempt(order[i]))
      && NoDuplicates(order)
      && (order != [] ==> p.source in order && k <= |p.adj[Last()]|)
      && (forall i :: 0 <= i < |order| ==> l.Fee(order[i]) <= l.Fee(Last()))
    }
  }

  /** Between expansions the last node has been scanned to its end. */
  ghost function Done(adj: Adjacency, order: seq<nat>): Progress {
    Progress(order, if order != [] && order[|order| - 1] < |adj| then |adj[order[|order| - 1]]| else 0)
  }

  ghost predicate RelaxedEdge(p: Problem, l: Labels, u: nat, e: Edge)
    requires l.Reached(u)
  {
    Eligible(e, p.amount) ==> l.Reached(e.to) && l.Fee(e.to) <= l.Fee(u) + e.fee
  }

  /** Every edge scanned so far is relaxed. */
  ghost predicate Relaxed(p: Problem, l: Labels, pr: Progress)
    requires pr.Ok(p, l)
  {
    forall i, j :: 0 <= i < |pr.order| && 0 <= j < pr.Scanned(p.adj, i) ==>
      RelaxedEdge(p, l, pr.order[i], p.adj[pr.order[i]][j])
  }

  /** `v` hangs below the `i`-th expanded node by the first cheapest of the edges scanned so far. */
  ghost predicate HangsBelow(p: Problem, l: Labels, pr: Progress, v: nat, i: nat)
    requires pr.Ok(p, l) && l.Reached(v) && i < |pr.order|
  {
    && var u := pr.order[i];
    && l.predNode[v] == Some(u)
    && l.predEdge[v].Some?
    && var e := l.predEdge[v].value;
    && e.to == v
    && l.Fee(v) == l.Fee(u) + e.fee
    && FirstCheapestOf(p.adj[u], p.amount, e, pr.Scanned(p.adj, i))
    && (forall j :: 0 <= j < |pr.order| && pr.order[j] == v ==> i < j)
  }

  ghost predicate Hangs(p: Problem, l: Labels, pr: Progress, v: nat)
    requires pr.Ok(p, l) && l.Reached(v)
  {
    exists i :: 0 <= i < |pr.order| && HangsBelow(p, l, pr, v, i)
  }

  ghost predicate LabelsOk(p: Problem, l: Labels, pr: Progress)
    requires pr.Ok(p, l)
  {
    && l.Reached(p.source) && l.Fee(p.source) == 0.0
    && (forall v: nat :: l.Reached(v) && !p.Exempt(v) ==> l.Fee(v) >= 0.0)
    && (forall v: nat {:trigger Hangs(p, l, pr, v)} :: l.Reached(v) && v != p.source ==> Hangs(p, l, pr, v))
  }

  /** The heap holds the live entry of every node still to expand, once, and never undercuts an expanded node. */
  ghost predicate HeapOk(p: Problem, l: Labels, q: multiset<Entry>, order: seq<nat>)
    requires forall i :: 0 <= i < |order| ==> l.Reached(order[i])
  {
    && (forall e <- q :: l.Reached(e.node) && l.Fee(e.node) <= e.d)
    && (forall e <- q :: order == [] ==> e.node == p.source)
    && (forall e <- q :: order != [] && !p.Exempt(e.node) ==> l.Fee(order[|order| - 1]) <= e.d)
    && (forall v: nat :: l.Reached(v) ==> q[Entry(l.Fee(v), v)] <= 1)
    && (forall v: nat :: l.Reached(v) && v in order ==> Entry(l.Fee(v), v) !in q)
    && (forall v: nat :: l.Reached(v) && !p.Exempt(v) && v !in order ==> Entry(l.Fee(v), v) in q)
  }

  ghost predicate Inv(p: Problem, l: Labels, q: multiset<Entry>, pr: Progress) {
    && p.Ok()
    && pr.Ok(p, l)
    && HeapOk(p, l, q, pr.order)
    && Relaxed(p, l, pr)
    && LabelsOk(p, l, pr)
  }

  /** A duplicate-free list of node indices is no longer than the graph. */
  lemma {:induction false} ExpandedAtMostOnce(order: seq<nat>, n: nat)
    requires NoDuplicates(order) && forall i :: 0 <= i < |order| ==> order[i] < n
    ensures |order| <= n
  {
    if n == 0 {
    } else if n - 1 in order {
      var i :| 0 <= i < |order| && order[i] == n - 1;
      var rest := order[..i] + order[i + 1..];
      assert forall j :: 0 <= j < |rest| ==> rest[j] == if j < i then order[j] else order[j + 1];
      ExpandedAtMostOnce(rest, n - 1);
    } else {
      ExpandedAtMostOnce(order, n - 1);
    }
  }

  /** A non-empty heap has a top. */
  lemma {:induction false} HeapTop(q: multiset<Entry>) returns (top: Entry)
    requires q != multiset{}
    ensures top in q && forall e <- q :: Before(top, e)
    decreases |q|
  {
    var x :| x in q;
    var rest := q - multiset{x};
    assert forall e <- q :: e == x || e in rest;
    if rest == multiset{} {
      top := x;
    } else {
      var t := HeapTop(rest);
      top := if Before(t, x) then t else x;
    }
  }

  /** Dropping a stale entry, or the entry of a node without a way out, keeps the invariant. */
  lemma PopKeeps(p: Problem, l: Labels, q: multiset<Entry>, pr: Progress, top: Entry)
    requires Inv(p, l, q, pr) && top in q
    requires top.d > l.Fee(top.node) || p.Exempt(top.node)
    ensures Inv(p, l, q - multiset{top}, pr)
  {
    var q' := q - multiset{top};
    assert forall e <- q' :: e in q;
  }

  lemma ExpandHeap(p: Problem, l: Labels, q: multiset<Entry>, order: seq<nat>, top: Entry)
    requires Done(p.adj, order).Ok(p, l) && HeapOk(p, l, q, order)
    requires top in q && (forall e <- q :: Before(top, e))
    requires top.d <= l.Fee(top.node) && !p.Exempt(top.node)
    ensures top == Entry(l.Fee(top.node), top.node) && top.node !in order
    ensures Progress(order + [top.node], 0).Ok(p, l)
    ensures HeapOk(p, l, q - multiset{top}, order + [top.node])
  {
    var q', order' := q - multiset{top}, order + [top.node];
    assert top == Entry(l.Fee(top.node), top.node) && top.node !in order;
    assert order'[|order|] == top.node && (order != [] ==> p.source in order);
    assert forall e <- q' :: e in q;
    assert forall v: nat :: v in order' <==> v in order || v == top.node;
  }

  lemma ExpandLabels(p: Problem, l: Labels, order: seq<nat>, u: nat)
    requires u !in order && Done(p.adj, order).Ok(p, l) && Progress(order + [u], 0).Ok(p, l)
    requires Relaxed(p, l, Done(p.adj, order)) && LabelsOk(p, l, Done(p.adj, order))
    ensures Relaxed(p, l, Progress(order + [u], 0)) && LabelsOk(p, l, Progress(order + [u], 0))
  {
    var pr, pr' := Done(p.adj, order), Progress(order + [u], 0);
    assert forall i :: 0 <= i < |order| ==> pr'.Scanned(p.adj, i) == pr.Scanned(p.adj, i);
    forall v: nat | l.Reached(v) && v != p.source
      ensures Hangs(p, l, pr', v)
    {
      assert Hangs(p, l, pr, v);
      var i :| 0 <= i < |order| && HangsBelow(p, l, pr, v, i);
      assert HangsBelow(p, l, pr', v, i);
    }
  }

  /** Popping the live entry of a node with a way out starts its one and only expansion. */
  lemma ExpandStarts(p: Problem, l: Labels, q: multiset<Entry>, order: seq<nat>, top: Entry)
    requires Inv(p, l, q, Done(p.adj, order))
    requires top in q && (forall e <- q :: Before(top, e))
    requires top.d <= l.Fee(top.node) && !p.Exempt(top.node)
    ensures Inv(p, l, q - multiset{top}, Progress(order + [top.node], 0))
    ensures |order| < |p.adj|
  {
    hide HeapOk, LabelsOk, Relaxed;
    ExpandHeap(p, l, q, order, top);
    ExpandLabels(p, l, order, top.node);
    ExpandedAtMostOnce(order + [top.node], |p.adj|);
  }

  lemma StillFirstCheapest(es: seq<Edge>, amount: real, e: Edge, k: nat)
    requires k < |es| && FirstCheapestOf(es, amount, e, k)
    requires Eligible(es[k], amount) && es[k].to == e.to ==> e.fee <= es[k].fee
    ensures FirstCheapestOf(es, amount, e, k + 1)
  {
    var i :| 0 <= i < k && es[i] == e && CheapestAt(es, amount, i, k);
    assert CheapestAt(es, amount, i, k + 1);
  }

  lemma SkippedLabels(p: Problem, l: Labels, order: seq<nat>, k: nat)
    requires order != [] && Progress(order, k).Ok(p, l) && Progress(order, k + 1).Ok(p, l)
    requires RelaxedEdge(p, l, order[|order| - 1], p.adj[order[|order| - 1]][k])
    requires LabelsOk(p, l, Progress(order, k))
    ensures LabelsOk(p, l, Progress(order, k + 1))
  {
    var pr, pr' := Progress(order, k), Progress(order, k + 1);
    forall v: nat | l.Reached(v) && v != p.source
      ensures Hangs(p, l, pr', v)
    {
      assert Hangs(p, l, pr, v);
      var i :| 0 <= i < |order| && HangsBelow(p, l, pr, v, i);
      if i + 1 == |order| {
        StillFirstCheapest(p.adj[order[i]], p.amount, l.predEdge[v].value, k);
      }
      assert HangsBelow(p, l, pr', v, i);
    }
  }

  lemma ScannedFurther(p: Problem, l: Labels, l': Labels, order: seq<nat>, k: nat)
    requires order != [] && Progress(order, k).Ok(p, l) && Progress(order, k + 1).Ok(p, l')
    requires forall v: nat :: l.Reached(v) ==> l'.Reached(v) && l'.Fee(v) <= l.Fee(v)
    requires forall i :: 0 <= i < |order| ==> l'.Fee(order[i]) == l.Fee(order[i])
    requires RelaxedEdge(p, l', order[|order| - 1], p.adj[order[|order| - 1]][k])
    requires Relaxed(p, l, Progress(order, k))
    ensures Relaxed(p, l', Progress(order, k + 1))
  {
    var pr, pr' := Progress(order, k), Progress(order, k + 1);
    forall i, j | 0 <= i < |order| && 0 <= j < pr'.Scanned(p.adj, i)
      ensures RelaxedEdge(p, l', order[i], p.adj[order[i]][j])
    {
      if i + 1 < |order| || j < k {
        assert j < pr.Scanned(p.adj, i) && RelaxedEdge(p, l, pr.order[i], p.adj[pr.order[i]][j]);
      }
    }
  }

  /** Scanning an edge that is too thin or no improvement moves nothing but the scan position. */
  lemma ScanSkips(p: Problem, l: Labels, q: multiset<Entry>, order: seq<nat>, k: nat)
    requires Inv(p, l, q, Progress(order, k)) && order != []
    requires k < |p.adj[order[|order| - 1]]|
    requires RelaxedEdge(p, l, order[|order| - 1], p.adj[order[|order| - 1]][k])
    ensures Inv(p, l, q, Progress(order, k + 1))
  {
    hide HeapOk, LabelsOk, Relaxed;
    SkippedLabels(p, l, order, k);
    ScannedFurther(p, l, l, order, k);
  }

  /** An improving edge never reaches an expanded node or the source. */
  lemma ImprovementIsFresh(p: Problem, l: Labels, q: multiset<Entry>, pr: Progress, e: Edge)
    requires Inv(p, l, q, pr) && pr.order != [] && pr.k < |p.adj[pr.Last()]| && e == p.adj[pr.Last()][pr.k]
    requires Eligible(e, p.amount) && l.ImprovedBy(pr.Last(), e)
    ensures e.to !in pr.order && e.to != p.source
    ensures !p.Exempt(e.to) ==> e.fee >= 0.0
  {
    assert e.to in pr.order ==> !p.Exempt(e.to);
  }

  lemma ImprovedHeap(p: Problem, l: Labels, l': Labels, q: multiset<Entry>, order: seq<nat>, x: Entry)
    requires order != [] && forall i :: 0 <= i < |order| ==> l.Reached(order[i])
    requires HeapOk(p, l, q, order)
    requires x.node < |l.dist| && x.node !in order && l'.dist == l.dist[x.node := Finite(x.d)]
    requires l.Reached(x.node) ==> x.d < l.Fee(x.node)
    requires !p.Exempt(x.node) ==> l.Fee(order[|order| - 1]) <= x.d
    ensures forall i :: 0 <= i < |order| ==> l'.Reached(order[i])
    ensures HeapOk(p, l', q + multiset{x}, order)
  {
    var q' := q + multiset{x};
    assert x !in q;
    forall v: nat | l'.Reached(v)
      ensures q'[Entry(l'.Fee(v), v)] <= 1
      ensures v in order ==> Entry(l'.Fee(v), v) !in q'
      ensures !p.Exempt(v) && v !in order ==> Entry(l'.Fee(v), v) in q'
    {
      if v != x.node { assert l.Reached(v) && l'.Fee(v) == l.Fee(v); }
    }
  }

  /** An edge that improves on a relaxed prefix is the first cheapest into its target. */
  lemma NewFirstCheapest(p: Problem, l: Labels, u: nat, k: nat)
    requires l.Sized(|p.adj|) && l.Reached(u) && k < |p.adj[u]|
    requires forall j :: 0 <= j < k ==> RelaxedEdge(p, l, u, p.adj[u][j])
    requires Eligible(p.adj[u][k], p.amount) && l.ImprovedBy(u, p.adj[u][k])
    ensures FirstCheapestOf(p.adj[u], p.amount, p.adj[u][k], k + 1)
  {
    assert CheapestAt(p.adj[u], p.amount, k, k + 1);
  }

  /** The scan of the last node's edge `k` is about to relabel the edge's target. */
  ghost predicate Improving(p: Problem, l: Labels, q: multiset<Entry>, order: seq<nat>, k: nat, e: Edge) {
    && Inv(p, l, q, Progress(order, k)) && order != []
    && k < |p.adj[order[|order| - 1]]| && e == p.adj[order[|order| - 1]][k]
    && Eligible(e, p.amount) && l.ImprovedBy(order[|order| - 1], e)
    && e.to !in order && e.to != p.source && (!p.Exempt(e.to) ==> e.fee >= 0.0)
    && Progress(order, k + 1).Ok(p, l.Relabel(order[|order| - 1], e))
  }

  /** The relabelled node hangs below the node being scanned. */
  lemma NewHangs(p: Problem, l: Labels, q: multiset<Entry>, order: seq<nat>, k: nat, e: Edge)
    requires Improving(p, l, q, order, k, e)
    ensures Hangs(p, l.Relabel(order[|order| - 1], e), Progress(order, k + 1), e.to)
  {
    hide HeapOk, Hangs, FirstCheapestOf;
    NewFirstCheapest(p, l, order[|order| - 1], k);
    StillHangs(p, l.Relabel(order[|order| - 1], e), Progress(order, k + 1), e.to, |order| - 1);
  }

  lemma StillHangs(p: Problem, l: Labels, pr: Progress, v: nat, i: nat)
    requires pr.Ok(p, l) && l.Reached(v) && i < |pr.order| && HangsBelow(p, l, pr, v, i)
    ensures Hangs(p, l, pr, v)
  {
    hide HangsBelow;
  }

  /** The other nodes hang where they did. */
  lemma OldHangs(p: Problem, l: Labels, q: multiset<Entry>, order: seq<nat>, k: nat, e: Edge, v: nat)
    requires Improving(p, l, q, order, k, e)
    requires var l' := l.Relabel(order[|order| - 1], e); l'.Reached(v) && v != p.source && v != e.to
    ensures Hangs(p, l.Relabel(order[|order| - 1], e), Progress(order, k + 1), v)
  {
    hide HeapOk, Relaxed, FirstCheapestOf;
    var u, pr, pr' := order[|order| - 1], Progress(order, k), Progress(order, k + 1);
    assert Hangs(p, l, pr, v);
    var i :| 0 <= i < |order| && HangsBelow(p, l, pr, v, i);
    if i + 1 == |order| {
      StillFirstCheapest(p.adj[u], p.amount, l.predEdge[v].value, k);
    }
    assert HangsBelow(p, l.Relabel(u, e), pr', v, i);
  }

  lemma ImprovedLabels(p: Problem, l: Labels, q: multiset<Entry>, order: seq<nat>, k: nat, e: Edge)
    requires Improving(p, l, q, order, k, e)
    ensures LabelsOk(p, l.Relabel(order[|order| - 1], e), Progress(order, k + 1))
  {
    hide HeapOk, Relaxed, Hangs;
    var l' := l.Relabel(order[|order| - 1], e);
    forall v: nat | l'.Reached(v) && v != p.source
      ensures Hangs(p, l', Progress(order, k + 1), v)
    {
      if v == e.to { NewHangs(p, l, q, order, k, e); } else { OldHangs(p, l, q, order, k, e, v); }
    }
  }

  lemma RelabelKeepsOrder(p: Problem, l: Labels, order: seq<nat>, k: nat, e: Edge)
    requires order != [] && Progress(order, k).Ok(p, l) && k < |p.adj[order[|order| - 1]]|
    requires e.to < |p.adj| && e.to !in order && l.ImprovedBy(order[|order| - 1], e)
    ensures var l' := l.Relabel(order[|order| - 1], e);
      && Progress(order, k + 1).Ok(p, l')
      && (forall v: nat :: l.Reached(v) ==> l'.Reached(v) && l'.Fee(v) <= l.Fee(v))
      && (forall i :: 0 <= i < |order| ==> l'.Fee(order[i]) == l.Fee(order[i]))
      && RelaxedEdge(p, l', order[|order| - 1], e)
  {
    var l' := l.Relabel(order[|order| - 1], e);
    assert forall i :: 0 <= i < |order| ==> order[i] != e.to && l'.dist[order[i]] == l.dist[order[i]];
  }

  /** Scanning an improving edge relabels its target, pushes it, and keeps the invariant. */
  lemma ScanImproves(p: Problem, l: Labels, q: multiset<Entry>, order: seq<nat>, k: nat, e: Edge)
    requires Inv(p, l, q, Progress(order, k)) && order != []
    requires k < |p.adj[order[|order| - 1]]| && e == p.adj[order[|order| - 1]][k]
    requires Eligible(e, p.amount) && l.ImprovedBy(order[|order| - 1], e)
    ensures var u := order[|order| - 1];
      Inv(p, l.Relabel(u, e), q + multiset{Entry(l.Fee(u) + e.fee, e.to)}, Progress(order, k + 1))
  {
    hide HeapOk, LabelsOk, Relaxed, RelaxedEdge;
    var u, pr := order[|order| - 1], Progress(order, k);
    var l' := l.Relabel(u, e);
    ImprovementIsFresh(p, l, q, pr, e);
    RelabelKeepsOrder(p, l, order, k, e);
    ImprovedHeap(p, l, l', q, order, Entry(l.Fee(u) + e.fee, e.to));
    ImprovedLabels(p, l, q, order, k, e);
    ScannedFurther(p, l, l', order, k);
  }

  /** Once the heap is empty, no walk from a reached node undercuts the labels. */
  lemma {:induction false} LabelsAreLowerBounds(p: Problem, l: Labels, order: seq<nat>, from: nat, w: seq<Edge>,
                                                to: nat)
    requires Inv(p, l, multiset{}, Done(p.adj, order))
    requires l.Reached(from) && IsWalk(p.adj, p.amount, from, w, to)
    ensures l.Reached(to) && l.Fee(to) <= l.Fee(from) + TotalFee(w)
    decreases |w|
  {
    if w != [] {
      assert from in order;
      var i :| 0 <= i < |order| && order[i] == from;
      var j :| 0 <= j < |p.adj[from]| && p.adj[from][j] == w[0];
      assert RelaxedEdge(p, l, order[i], p.adj[order[i]][j]);
      LabelsAreLowerBounds(p, l, order, w[0].to, w[1..], to);
    }
  }

  /** The position of a node in the expansion order; nodes never expanded come last. */
  ghost function Rank(order: seq<nat>, v: nat): (r: nat)
    ensures r <= |order|
    ensures r < |order| ==> order[r] == v
    ensures forall i :: 0 <= i < |order| && order[i] == v ==> r <= i
  {
    if order == [] then 0 else if order[0] == v then 0 else 1 + Rank(order[1..], v)
  }

  /** One step up the predecessor chain strictly descends the expansion order. */
  lemma PredecessorDescends(p: Problem, l: Labels, order: seq<nat>, v: nat)
    requires Inv(p, l, multiset{}, Done(p.adj, order))
    requires l.Reached(v) && v != p.source
    ensures l.Sized(|p.adj|) && l.predNode[v].Some? && l.predEdge[v].Some?
    ensures var u, e := l.predNode[v].value, l.predEdge[v].value;
      && l.Reached(u) && e.to == v && FirstCheapest(p.adj[u], p.amount, e)
      && l.Fee(v) == l.Fee(u) + e.fee
      && Rank(order, u) < Rank(order, v)
  {
    assert Hangs(p, l, Done(p.adj, order), v);
    var i :| 0 <= i < |order| && HangsBelow(p, l, Done(p.adj, order), v, i);
    assert Rank(order, order[i]) <= i;
  }

  lemma SearchStarts(p: Problem, l: Labels)
    requires p.Ok() && l.Sized(|p.adj|) && p.source < |p.adj|
    requires forall v :: 0 <= v < |p.adj| ==> l.dist[v] == if v == p.source then Finite(0.0) else Infinite
    ensures Inv(p, l, multiset{Entry(0.0, p.source)}, Done(p.adj, []))
  {
  }

  lemma TopIsReached(p: Problem, l: Labels, q: multiset<Entry>, pr: Progress, top: Entry)
    requires Inv(p, l, q, pr) && top in q
    ensures Closed(p.adj) && l.Sized(|p.adj|) && l.Reached(top.node) && l.Fee(top.node) <= top.d
    ensures NoDuplicates(pr.order) && |pr.order| <= |p.adj|
  {
    ExpandedAtMostOnce(pr.order, |p.adj|);
  }

  /** At the end the labels decide reachability. */
  lemma SearchEnds(p: Problem, l: Labels, order: seq<nat>, to: nat)
    requires Inv(p, l, multiset{}, Done(p.adj, order)) && to < |p.adj|
    ensures l.Sized(|p.adj|) && l.Reached(p.source) && NoDuplicates(order) && forall u <- order :: u < |p.adj|
    ensures !l.Reached(to) ==> !Reachable(p.adj, p.amount, p.source, to)
  {
    if !l.Reached(to) {
      forall w | IsWalk(p.adj, p.amount, p.source, w, to) ensures false {
        LabelsAreLowerBounds(p, l, order, p.source, w, to);
      }
    }
  }

  lemma EmptyWalk(p: Problem, v: nat)
    ensures IsWalk(p.adj, p.amount, v, [], v) && Canonical(p.adj, p.amount, v, [])
  {
  }

  /** A walk that costs what the label says is a cheapest one. */
  lemma RouteIsCheapest(p: Problem, l: Labels, order: seq<nat>, route: seq<Edge>, to: nat)
    requires Inv(p, l, multiset{}, Done(p.adj, order))
    requires IsWalk(p.adj, p.amount, p.source, route, to) && l.Reached(to)
    requires l.Fee(to) == l.Fee(p.source) + TotalFee(route)
    ensures Cheapest(p.adj, p.amount, p.source, route, to) && Reachable(p.adj, p.amount, p.source, to)
    ensures l.Fee(to) == TotalFee(route)
  {
    forall w | IsWalk(p.adj, p.amount, p.source, w, to)
      ensures TotalFee(route) <= TotalFee(w)
    {
      LabelsAreLowerBounds(p, l, order, p.source, w, to);
    }
  }

  function Reversed(s: seq<Edge>): (r: seq<Edge>)
    ensures |r| == |s|
  {
    if s == [] then [] else Reversed(s[1..]) + [s[0]]
  }

  lemma {:induction false} ReversedAppend(s: seq<Edge>, e: Edge)
    ensures Reversed(s + [e]) == [e] + Reversed(s)
  {
    if s == [] {
      assert s + [e] == [e];
    } else {
      assert (s + [e])[1..] == s[1..] + [e];
      ReversedAppend(s[1..], e);
    }
  }

  // ---- One pass of the main loop ----

  /** The invariant's scan position in the edge loop of `u`; an exempt node is not expanded. */
  ghost function Here(p: Problem, order: seq<nat>, u: nat, k: nat): Progress {
    if p.Exempt(u) then Done(p.adj, order) else Progress(order, k)
  }

  ghost predicate Scanning(p: Problem, c: Config, order: seq<nat>, u: nat, k: nat) {
    && Inv(p, c.l, c.heap, Here(p, order, u, k))
    && c.l.Reached(u) && k <= |p.adj[u]|
    && (!p.Exempt(u) ==> order != [] && order[|order| - 1] == u)
  }

  /** One pass of the edge loop, whichever way its two tests go. */
  lemma ScanStep(p: Problem, c: Config, order: seq<nat>, u: nat, k: nat)
    requires Scanning(p, c, order, u, k) && u < |p.adj| && k < |p.adj[u]|
    ensures c.l.Sized(|p.adj|) && c.l.Reached(u) && p.adj[u][k].to < |p.adj|
    ensures Scanning(p, ScanEdge(p.amount, c, u, p.adj[u][k]), order, u, k + 1)
    ensures p.Exempt(u) ==> ScanEdge(p.amount, c, u, p.adj[u][k]) == c
  {
    hide HeapOk, LabelsOk, Relaxed;
    if !p.Exempt(u) {
      if Eligible(p.adj[u][k], p.amount) && c.l.ImprovedBy(u, p.adj[u][k]) {
        ScanImproves(p, c.l, c.heap, order, k, p.adj[u][k]);
      } else {
        ScanSkips(p, c.l, c.heap, order, k);
      }
    }
  }

  lemma ScanningIsSized(p: Problem, c: Config, order: seq<nat>, u: nat, k: nat)
    requires Scanning(p, c, order, u, k)
    ensures Closed(p.adj) && c.l.Sized(|p.adj|) && u < |p.adj| && c.l.Reached(u)
  {
    hide HeapOk, LabelsOk, Relaxed;
  }

  /** The rest of the edge loop. */
  lemma {:induction false} ScanKeeps(p: Problem, c: Config, order: seq<nat>, u: nat, k: nat)
    requires Scanning(p, c, order, u, k) && k <= |p.adj[u]|
    ensures Closed(p.adj) && c.l.Sized(|p.adj|) && u < |p.adj| && c.l.Reached(u)
    ensures var c' := Scan(p.amount, c, u, p.adj[u][k..]);
      Inv(p, c'.l, c'.heap, Done(p.adj, order)) && (p.Exempt(u) ==> c' == c)
    decreases |p.adj[u]| - k
  {
    hide Inv, ScanEdge;
    ScanningIsSized(p, c, order, u, k);
    if k < |p.adj[u]| {
      ScanStep(p, c, order, u, k);
      assert p.adj[u][k..][1..] == p.adj[u][k + 1..];
      ScanKeeps(p, ScanEdge(p.amount, c, u, p.adj[u][k]), order, u, k + 1);
    }
  }

  /** Every pass of the main loop keeps the invariant, and expands a new node or leaves a smaller heap. */
  lemma PopStep(p: Problem, c: Config, order: seq<nat>, top: Entry) returns (order': seq<nat>)
    requires Inv(p, c.l, c.heap, Done(p.adj, order)) && IsTop(c.heap, top)
    ensures Ready(p.adj, c, top)
    ensures order' == if Live(c, top) && !p.Exempt(top.node) then order + [top.node] else order
    ensures var c' := AfterPop(p.adj, p.amount, c, top);
      && Inv(p, c'.l, c'.heap, Done(p.adj, order'))
      && |order'| <= |p.adj| && (order' == order ==> |c'.heap| < |c.heap|)
  {
    hide Inv, Scan;
    var rest, u := Config(c.l, c.heap - multiset{top}), top.node;
    TopIsReached(p, c.l, c.heap, Done(p.adj, order), top);
    if !Live(c, top) || p.Exempt(u) {
      order' := order;
      PopKeeps(p, c.l, c.heap, Done(p.adj, order), top);
    } else {
      order' := order + [u];
      ExpandStarts(p, c.l, c.heap, order, top);
    }
    if Live(c, top) {
      assert p.adj[u][0..] == p.adj[u];
      ScanKeeps(p, rest, order', u, 0);
    }
  }

  // ---- Every search with a tame network ends ----

  /** The nodes of `live` that are not exempt. */
  ghost function Counted(p: Problem, live: seq<nat>): seq<nat> {
    if live == [] then []
    else
      var k := |live| - 1;
      if p.Exempt(live[k]) then Counted(p, live[..k]) else Counted(p, live[..k]) + [live[k]]
  }

  lemma CountedGrows(p: Problem, live: seq<nat>, u: nat)
    ensures Counted(p, live + [u]) == if p.Exempt(u) then Counted(p, live) else Counted(p, live) + [u]
  {
    assert (live + [u])[..|live|] == live;
  }

  ghost predicate InSearch(p: Problem, run: seq<Config>, pops: seq<Entry>) {
    && IsRun(p.adj, p.amount, p.source, run, pops)
    && var c := run[|pops|];
    Inv(p, c.l, c.heap, Done(p.adj, Counted(p, LivePops(run, pops))))
  }

  /** How many nodes a search has expanded. */
  ghost function Expansions(p: Problem, run: seq<Config>, pops: seq<Entry>): nat
    requires |run| == |pops| + 1
  {
    |Counted(p, LivePops(run, pops))|
  }

  lemma SearchStep(p: Problem, run: seq<Config>, pops: seq<Entry>, top: Entry) returns (c: Config)
    requires InSearch(p, run, pops) && IsTop(run[|pops|].heap, top)
    ensures Ready(p.adj, run[|pops|], top) && c == AfterPop(p.adj, p.amount, run[|pops|], top)
    ensures InSearch(p, run + [c], pops + [top])
    ensures Expansions(p, run, pops) <= Expansions(p, run + [c], pops + [top]) <= |p.adj|
    ensures Expansions(p, run + [c], pops + [top]) == Expansions(p, run, pops) ==> |c.heap| < |run[|pops|].heap|
  {
    hide Inv, Ready, AfterPop, Live, Initial, LivePops, Counted;
    var live := LivePops(run, pops);
    var order := PopStep(p, run[|pops|], Counted(p, live), top);
    c := AfterPop(p.adj, p.amount, run[|pops|], top);
    RunGrows(p.adj, p.amount, p.source, run, pops, top, c);
    CountedGrows(p, live, top.node);
  }

  lemma SearchBegins(p: Problem)
    requires p.Ok() && p.source < |p.adj|
    ensures InSearch(p, [Initial(|p.adj|, p.source)], [])
  {
    hide Inv;
    SearchStarts(p, Initial(|p.adj|, p.source).l);
  }

  lemma {:induction false} SearchFinishes(p: Problem, run: seq<Config>, pops: seq<Entry>)
    returns (run': seq<Config>, pops': seq<Entry>)
    requires InSearch(p, run, pops) && Expansions(p, run, pops) <= |p.adj|
    ensures IsSearch(p.adj, p.amount, p.source, run', pops')
    decreases |p.adj| - Expansions(p, run, pops), |run[|pops|].heap|
  {
    hide Inv, Ready, AfterPop, Pops, Expansions, Initial;
    var c := run[|pops|];
    if c.heap == multiset{} {
      run', pops' := run, pops;
    } else {
      var top := HeapTop(c.heap);
      var c' := SearchStep(p, run, pops, top);
      run', pops' := SearchFinishes(p, run + [c'], pops + [top]);
    }
  }

  /** Nothing in a tame network can keep the search going. */
  lemma TameHalts(adj: Adjacency, amount: real, source: nat)
    requires Closed(adj) && Tame(adj, amount) && source < |adj|
    ensures Halts(adj, amount, source)
  {
    hide Inv, IsRun, LivePops, Initial;
    var p := ProblemOf(adj, amount, source);
    ProblemIsOk(adj, amount, source);
    SearchBegins(p);
    NothingPopped(p);
    var run, pops := SearchFinishes(p, [Initial(|adj|, source)], []);
  }

  lemma NothingPopped(p: Problem)
    ensures Expansions(p, [Initial(|p.adj|, p.source)], []) == 0
    ensures Initial(|p.adj|, p.source).heap == multiset{Entry(0.0, p.source)}
  {
  }

  /** No eligible edge has a negative fee. */
  ghost predicate NonNegative(adj: Adjacency, amount: real) {
    forall u, k :: 0 <= u < |adj| && 0 <= k < |adj[u]| && Eligible(adj[u][k], amount) ==> adj[u][k].fee >= 0.0
  }

  /** Nodes without a way out are only exempt where negative fees require it. */
  ghost function ProblemOf(adj: Adjacency, amount: real, source: nat): Problem {
    var exempt := if NonNegative(adj, amount) then {} else set u: nat | u < |adj| && Sink(adj, amount, u);
    Problem(adj, amount, source, exempt)
  }

  lemma ProblemIsOk(adj: Adjacency, amount: real, source: nat)
    requires Closed(adj) && Tame(adj, amount)
    ensures ProblemOf(adj, amount, source).Ok()
  {
  }

  // ---- What the end of a search says ----

  lemma AppendEdge(adj: Adjacency, amount: real, from: nat, w: seq<Edge>, u: nat, e: Edge)
    requires IsWalk(adj, amount, from, w, u) && u < |adj| && e in adj[u] && Eligible(e, amount)
    ensures IsWalk(adj, amount, from, w + [e], e.to)
    decreases |w|
  {
    if w == [] {
      assert w + [e] == [e] && [e][1..] == [];
    } else {
      AppendEdge(adj, amount, w[0].to, w[1..], u, e);
      assert (w + [e])[1..] == w[1..] + [e];
    }
  }

  /** A label is backed by a walk. */
  lemma {:induction false} ReachedIsReachable(p: Problem, l: Labels, order: seq<nat>, v: nat) returns (w: seq<Edge>)
    requires Inv(p, l, multiset{}, Done(p.adj, order)) && l.Reached(v)
    ensures IsWalk(p.adj, p.amount, p.source, w, v)
    decreases Rank(order, v)
  {
    hide Inv, Rank;
    if v == p.source {
      w := [];
    } else {
      PredecessorDescends(p, l, order, v);
      var u, e := l.predNode[v].value, l.predEdge[v].value;
      w := ReachedIsReachable(p, l, order, u);
      AppendEdge(p.adj, p.amount, p.source, w, u, e);
      w := w + [e];
    }
  }

  /** The nodes expanded are exactly the reachable ones that are not exempt, each once. */
  lemma ExpandedExactly(p: Problem, l: Labels, order: seq<nat>, v: nat)
    requires Inv(p, l, multiset{}, Done(p.adj, order))
    ensures v in order <==> Reachable(p.adj, p.amount, p.source, v) && !p.Exempt(v)
    ensures NoDuplicates(order)
  {
    hide Inv, IsWalk;
    FinalOrder(p, l, order, v);
    if l.Reached(v) {
      var w := ReachedIsReachable(p, l, order, v);
    }
    if Reachable(p.adj, p.amount, p.source, v) {
      var w :| IsWalk(p.adj, p.amount, p.source, w, v);
      LabelsAreLowerBounds(p, l, order, p.source, w, v);
    }
  }

  lemma FinalOrder(p: Problem, l: Labels, order: seq<nat>, v: nat)
    requires Inv(p, l, multiset{}, Done(p.adj, order))
    ensures v in order <==> l.Reached(v) && !p.Exempt(v)
    ensures NoDuplicates(order) && l.Reached(p.source)
  {
    hide Relaxed;
  }

  /** The live pops that have a way out. */
  ghost function WithWayOut(adj: Adjacency, amount: real, live: seq<nat>): seq<nat> {
    if live == [] then []
    else
      var k := |live| - 1;
      var rest := WithWayOut(adj, amount, live[..k]);
      if Sink(adj, amount, live[k]) then rest else rest + [live[k]]
  }

  /**
   * Each node with a way out is expanded at most once, whatever stale entries the heap holds, and exactly the reachable
   * ones are; without negative fees every node is popped live at most once, and exactly the reachable nodes are.
   */
  ghost predicate ExpandsOnce(adj: Adjacency, amount: real, source: nat, live: seq<nat>) {
    && NoDuplicates(WithWayOut(adj, amount, live))
    && (forall v: nat :: v in WithWayOut(adj, amount, live) <==>
        Reachable(adj, amount, source, v) && !Sink(adj, amount, v))
    && (NonNegative(adj, amount) ==>
      NoDuplicates(live) && forall v: nat :: v in live <==> Reachable(adj, amount, source, v))
  }

  lemma {:induction false} CountedIs(p: Problem, live: seq<nat>)
    ensures p.exempt == {} ==> Counted(p, live) == live
    ensures (forall u <- live :: p.Exempt(u) <==> Sink(p.adj, p.amount, u)) ==>
      Counted(p, live) == WithWayOut(p.adj, p.amount, live)
  {
    hide Sink;
    if live != [] {
      var k := |live| - 1;
      CountedIs(p, live[..k]);
      assert live == live[..k] + [live[k]];
    }
  }

  lemma {:induction false} WayOutIsFilter(adj: Adjacency, amount: real, live: seq<nat>)
    ensures forall v: nat :: v in WithWayOut(adj, amount, live) <==> v in live && !Sink(adj, amount, v)
    ensures NoDuplicates(live) ==> NoDuplicates(WithWayOut(adj, amount, live))
  {
    hide Sink;
    if live != [] {
      var k := |live| - 1;
      WayOutIsFilter(adj, amount, live[..k]);
      assert live == live[..k] + [live[k]];
    }
  }

  lemma OutsideIsSink(adj: Adjacency, amount: real, v: nat)
    ensures v >= |adj| ==> Sink(adj, amount, v)
  {
  }

  lemma ExpandsOnceAtEnd(p: Problem, run: seq<Config>, pops: seq<Entry>)
    requires p == ProblemOf(p.adj, p.amount, p.source) && InSearch(p, run, pops) && run[|pops|].heap == multiset{}
    requires forall u <- LivePops(run, pops) :: u < |p.adj|
    ensures ExpandsOnce(p.adj, p.amount, p.source, LivePops(run, pops))
  {
    hide Inv, LivePops, Pops, Initial, Counted, WithWayOut, Reachable, NoDuplicates, Sink, NonNegative, ProblemOf;
    var live, l := LivePops(run, pops), run[|pops|].l;
    ExemptIs(p);
    CountedIs(p, live);
    WayOutIsFilter(p.adj, p.amount, live);
    forall v: nat
      ensures v in WithWayOut(p.adj, p.amount, live) <==>
        Reachable(p.adj, p.amount, p.source, v) && !Sink(p.adj, p.amount, v)
      ensures NonNegative(p.adj, p.amount) ==> (v in live <==> Reachable(p.adj, p.amount, p.source, v))
    {
      ExpandedExactly(p, l, Counted(p, live), v);
      OutsideIsSink(p.adj, p.amount, v);
    }
    ExpandedExactly(p, l, Counted(p, live), p.source);
  }

  lemma ExemptIs(p: Problem)
    requires p == ProblemOf(p.adj, p.amount, p.source)
    ensures NonNegative(p.adj, p.amount) ==> p.exempt == {}
    ensures !NonNegative(p.adj, p.amount) ==> forall v: nat :: p.Exempt(v) <==> v < |p.adj| && Sink(p.adj, p.amount, v)
  {
    hide NonNegative, Sink;
  }

  lemma {:induction false} LivePopsAreNodes(adj: Adjacency, amount: real, source: nat, run: seq<Config>,
                                            pops: seq<Entry>)
    requires IsRun(adj, amount, source, run, pops)
    ensures forall u <- LivePops(run, pops) :: u < |adj|
    decreases |pops|
  {
    hide AfterPop, Initial;
    if pops != [] {
      var k := |pops| - 1;
      assert Pops(adj, amount, run[k], pops[k], run[k + 1]);
      LivePopsAreNodes(adj, amount, source, run[..k + 1], pops[..k]);
    }
  }

  // ---- The code ----

  /** The three writes that follow an improvement. */
  method Relabel(dist: array<Dist>, predNode: array<Option<nat>>, predEdge: array<Option<Edge>>,
                 u: nat, edge: Edge, candidate: real, ghost l: Labels)
    requires l == Labels(dist[..], predNode[..], predEdge[..]) && l.Sized(|l.dist|) && l.Reached(u)
    requires edge.to < dist.Length && candidate == l.Fee(u) + edge.fee
    modifies dist, predNode, predEdge
    ensures Labels(dist[..], predNode[..], predEdge[..]) == l.Relabel(u, edge)
  {
    dist[edge.to] := Finite(candidate);
    predNode[edge.to] := Some(u);
    predEdge[edge.to] := Some(edge);
  }

  /** The relaxation loop over the edges of `u`. */
  method ScanEdges(g: Graph, u: nat, amount: real,
                   dist: array<Dist>, predNode: array<Option<nat>>, predEdge: array<Option<Edge>>,
                   q0: multiset<Entry>, ghost l0: Labels)
    returns (queue: multiset<Entry>)
    requires g.Valid() && u < |g.nodes| && l0 == Labels(dist[..], predNode[..], predEdge[..])
    requires l0.Sized(|g.nodes|) && l0.Reached(u) && u < |g.adjacency|
    modifies dist, predNode, predEdge
    ensures l0.Sized(|l0.dist|) && forall i :: 0 <= i < |g.adjacency[u]| ==> g.adjacency[u][i].to < |l0.dist|
    ensures Config(Labels(dist[..], predNode[..], predEdge[..]), queue) ==
      Scan(amount, Config(l0, q0), u, g.adjacency[u])
  {
    hide Scan, g.Valid;
    queue := q0;
    var found := g.EdgesFrom(u);
    var edges := found.value;
    ghost var l := l0;
    assert edges[0..] == edges;
    for k := 0 to |edges|
      invariant l == Labels(dist[..], predNode[..], predEdge[..]) && l.Sized(|l0.dist|) && l.Reached(u)
      invariant Scan(amount, Config(l, queue), u, edges[k..]) == Scan(amount, Config(l0, q0), u, edges)
    {
      var edge := edges[k];
      ScanMore(amount, Config(l, queue), u, edges, k);
      if edge.liquidity >= amount {
        var candidate := dist[u].value + edge.fee;
        if dist[edge.to].Infinite? || candidate < dist[edge.to].value {
          Relabel(dist, predNode, predEdge, u, edge, candidate, l);
          queue := queue + multiset{Entry(candidate, edge.to)};
          l := l.Relabel(u, edge);
        }
      }
    }
    ScanNoMore(amount, Config(l, queue), u, edges);
  }

  lemma ScanMore(amount: real, c: Config, u: nat, es: seq<Edge>, k: nat)
    requires c.l.Sized(|c.l.dist|) && c.l.Reached(u) && forall i :: 0 <= i < |es| ==> es[i].to < |c.l.dist|
    requires k < |es|
    ensures Scan(amount, c, u, es[k..]) == Scan(amount, ScanEdge(amount, c, u, es[k]), u, es[k + 1..])
  {
    assert es[k..][1..] == es[k + 1..];
  }

  lemma ScanNoMore(amount: real, c: Config, u: nat, es: seq<Edge>)
    requires c.l.Sized(|c.l.dist|) && c.l.Reached(u)
    ensures Scan(amount, c, u, es[|es|..]) == c
  {
  }

  /** The main loop: pop the top, drop it if stale, else scan its node's edges, until the heap is empty. */
  method Search(g: Graph, source: nat, amount: real,
                dist: array<Dist>, predNode: array<Option<nat>>, predEdge: array<Option<Edge>>, ghost p: Problem)
    returns (ghost run: seq<Config>, ghost pops: seq<Entry>)
    requires g.Valid() && p.adj == g.adjacency && |p.adj| == |g.nodes| && p.amount == amount && p.source == source
    requires Labels(dist[..], predNode[..], predEdge[..]) == Initial(|p.adj|, source).l
    requires InSearch(p, [Initial(|p.adj|, source)], [])
    modifies dist, predNode, predEdge
    ensures |run| == |pops| + 1 && InSearch(p, run, pops)
    ensures run[|pops|] == Config(Labels(dist[..], predNode[..], predEdge[..]), multiset{})
  {
    hide Inv, AfterPop, Live, IsRun, Expansions, Initial, Scan, InSearch, g.Valid;
    run, pops := [Initial(|p.adj|, source)], [];
    var queue := multiset{Entry(0.0, source)};
    NothingPopped(p);
    while queue != multiset{}
      invariant |run| == |pops| + 1 && InSearch(p, run, pops) && Expansions(p, run, pops) <= |p.adj|
      invariant run[|pops|] == Config(Labels(dist[..], predNode[..], predEdge[..]), queue)
      decreases |p.adj| - Expansions(p, run, pops), |queue|
    {
      ghost var c := run[|pops|];
      ghost var top' := HeapTop(queue);
      var top :| top in queue && forall e <- queue :: Before(top, e);
      ghost var c' := SearchStep(p, run, pops, top);
      PassIs(p.adj, amount, c, top);
      queue := queue - multiset{top};
      if top.d <= dist[top.node].value {
        queue := ScanEdges(g, top.node, amount, dist, predNode, predEdge, queue, c.l);
      }
      run, pops := run + [c'], pops + [top];
    }
  }

  /** The two ways a pass goes. */
  lemma PassIs(adj: Adjacency, amount: real, c: Config, top: Entry)
    requires Ready(adj, c, top)
    ensures var rest := Config(c.l, c.heap - multiset{top});
      AfterPop(adj, amount, c, top) ==
      if top.d <= c.l.dist[top.node].value then Scan(amount, rest, top.node, adj[top.node]) else rest
  {
    hide Scan;
  }

  /** The reconstruction loop: follow the predecessors from the destination back to the source. */
  method Rebuild(source: nat, destination: nat, amount: real, predNode: array<Option<nat>>,
                 predEdge: array<Option<Edge>>,
                 ghost p: Problem, ghost l: Labels, ghost expanded: seq<nat>)
    returns (edges: seq<Edge>)
    requires p.amount == amount && p.source == source && l.predNode == predNode[..] && l.predEdge == predEdge[..]
    requires Inv(p, l, multiset{}, Done(p.adj, expanded)) && l.Reached(destination)
    ensures IsWalk(p.adj, amount, source, edges, destination) && Canonical(p.adj, amount, source, edges)
    ensures l.Reached(source) && l.Fee(destination) == l.Fee(source) + TotalFee(edges)
  {
    edges := [];
    var current := destination;
    EmptyWalk(p, destination);
    hide Inv, IsWalk, Canonical, FirstCheapest;
    while current != source
      invariant l.Reached(current)
      invariant IsWalk(p.adj, amount, current, Reversed(edges), destination)
      invariant Canonical(p.adj, amount, current, Reversed(edges))
      invariant l.Fee(destination) == l.Fee(current) + TotalFee(Reversed(edges))
      decreases Rank(expanded, current)
    {
      PredecessorDescends(p, l, expanded, current);
      ReversedAppend(edges, predEdge[current].value);
      Prepend(p.adj, amount, predNode[current].value, predEdge[current].value, Reversed(edges), destination);
      edges := edges + [predEdge[current].value];
      current := predNode[current].value;
    }
    edges := Reversed(edges);
  }

  /** `run` and `pops` are the passes of the main loop. */
  method FindCheapestRoute(g: Graph, source: nat, destination: nat, amount: real)
    returns (r: Result<Option<Route>, SearchError>, ghost run: seq<Config>, ghost pops: seq<Entry>)
    requires g.Valid() && Tame(g.adjacency, amount)
    ensures r.Err? <==> source >= |g.nodes| || destination >= |g.nodes|
    ensures r.Err? ==> r.error == if source >= |g.nodes| then SourceOutOfRange else DestinationOutOfRange
    ensures r.Ok? ==> (r.value.None? <==> !Reachable(g.adjacency, amount, source, destination))
    ensures r.Ok? && r.value.Some? ==>
      && Cheapest(g.adjacency, amount, source, r.value.value.edges, destination)
      && r.value.value.totalFee == TotalFee(r.value.value.edges)
      && Canonical(g.adjacency, amount, source, r.value.value.edges)
    ensures r.Ok? ==>
      && IsSearch(g.adjacency, amount, source, run, pops)
      && ExpandsOnce(g.adjacency, amount, source, LivePops(run, pops))
  {
    hide Inv, Cheapest, Canonical, IsWalk, Reachable, Tame, Closed, LivePops, IsRun, InSearch, ExpandsOnce, Initial,
      ProblemOf;
    run, pops := [], [];
    var n := |g.nodes|;
    if source >= n { return Err(SourceOutOfRange), [], []; }
    if destination >= n { return Err(DestinationOutOfRange), [], []; }
    var dist := new Dist[n](_ => Infinite);
    var predNode := new Option<nat>[n](_ => None);
    var predEdge := new Option<Edge>[n](_ => None);
    dist[source] := Finite(0.0);
    ghost var p := ProblemOf(g.adjacency, amount, source);
    ProblemIs(g.adjacency, amount, source);
    ProblemIsOk(g.adjacency, amount, source);
    SearchBegins(p);
    InitialLabels(n, source, Labels(dist[..], predNode[..], predEdge[..]));
    run, pops := Search(g, source, amount, dist, predNode, predEdge, p);
    ghost var l := run[|pops|].l;
    ghost var expanded := Counted(p, LivePops(run, pops));
    EndOf(p, run, pops);
    LivePopsAreNodes(p.adj, amount, source, run, pops);
    ExpandsOnceAtEnd(p, run, pops);
    SearchEnds(p, l, expanded, destination);
    if dist[destination].Infinite? {
      return Ok(None), run, pops;
    }
    var edges := Rebuild(source, destination, amount, predNode, predEdge, p, l, expanded);
    RouteIsCheapest(p, l, expanded, edges, destination);
    return Ok(Some(Route(edges, dist[destination].value))), run, pops;
  }

  lemma ProblemIs(adj: Adjacency, amount: real, source: nat)
    ensures var p := ProblemOf(adj, amount, source); p.adj == adj && p.amount == amount && p.source == source
  {
  }

  lemma InitialLabels(n: nat, source: nat, l: Labels)
    requires l.Sized(n) && forall v :: 0 <= v < n ==>
      l.dist[v] == (if v == source then Finite(0.0) else Infinite) && l.predNode[v].None? && l.predEdge[v].None?
    ensures l == Initial(n, source).l
  {
  }

  lemma EndOf(p: Problem, run: seq<Config>, pops: seq<Entry>)
    requires InSearch(p, run, pops)
    ensures IsRun(p.adj, p.amount, p.source, run, pops)
    ensures var c := run[|pops|]; Inv(p, c.l, c.heap, Done(p.adj, Counted(p, LivePops(run, pops))))
  {
    hide Inv, IsRun, LivePops, Counted;
  }
}
