/** Walks through the routing graph and their fees: the reference the route search is measured against. */
module Routes {
  import opened RoutingGraph

  predicate Eligible(e: Edge, amount: real) {
    e.liquidity >= amount
  }

  /** `edges` leads from `from` to `to`, each hop leaving the node the previous one reached with enough liquidity. */
  ghost predicate IsWalk(adj: Adjacency, amount: real, from: nat, edges: seq<Edge>, to: nat)
    decreases |edges|
  {
    if edges == [] then from == to
    else
      && from < |adj|
      && edges[0] in adj[from]
      && Eligible(edges[0], amount)
      && IsWalk(adj, amount, edges[0].to, edges[1..], to)
  }

  ghost function TotalFee(edges: seq<Edge>): real {
    if edges == [] then 0.0 else edges[0].fee + TotalFee(edges[1..])
  }

  /** No eligible edge leaves `u`. */
  ghost predicate Sink(adj: Adjacency, amount: real, u: nat) {
    u < |adj| ==> forall e <- adj[u] :: !Eligible(e, amount)
  }

  /** Negative fees may only be charged on a last hop: their target has no way out. */
  ghost predicate Tame(adj: Adjacency, amount: real) {
    forall u, k :: 0 <= u < |adj| && 0 <= k < |adj[u]| && Eligible(adj[u][k], amount) && adj[u][k].fee < 0.0
      ==> Sink(adj, amount, adj[u][k].to)
  }

  /**
   * Among the first `n` edges of `es`, the `i`-th is the cheapest
   * eligible one into its target, and the first at that fee.
   */
  ghost predicate CheapestAt(es: seq<Edge>, amount: real, i: nat, n: nat)
    requires i < n <= |es|
  {
    && Eligible(es[i], amount)
    && (forall j :: 0 <= j < n && Eligible(es[j], amount) && es[j].to == es[i].to ==>
      es[i].fee <= es[j].fee && (j < i ==> es[i].fee < es[j].fee))
  }

  ghost predicate FirstCheapestOf(es: seq<Edge>, amount: real, e: Edge, n: nat)
    requires n <= |es|
  {
    exists i :: 0 <= i < n && es[i] == e && CheapestAt(es, amount, i, n)
  }

  /** `e` is the cheapest eligible edge of `es` into its target, and the first one listed at that fee. */
  ghost predicate FirstCheapest(es: seq<Edge>, amount: real, e: Edge) {
    FirstCheapestOf(es, amount, e, |es|)
  }

  /** Every hop of the walk uses the first cheapest of its parallel edges. */
  ghost predicate Canonical(adj: Adjacency, amount: real, from: nat, edges: seq<Edge>)
    decreases |edges|
  {
    edges == [] ||
    (from < |adj| && FirstCheapest(adj[from], amount, edges[0]) && Canonical(adj, amount, edges[0].to, edges[1..]))
  }

  ghost predicate Reachable(adj: Adjacency, amount: real, from: nat, to: nat) {
    exists w :: IsWalk(adj, amount, from, w, to)
  }

  /** The route is a cheapest walk, and no walk is cheaper. */
  ghost predicate Cheapest(adj: Adjacency, amount: real, from: nat, edges: seq<Edge>, to: nat) {
    && IsWalk(adj, amount, from, edges, to)
    && forall w :: IsWalk(adj, amount, from, w, to) ==> TotalFee(edges) <= TotalFee(w)
  }

  lemma Prepend(adj: Adjacency, amount: real, from: nat, e: Edge, rest: seq<Edge>, to: nat)
    requires from < |adj| && FirstCheapest(adj[from], amount, e)
    requires IsWalk(adj, amount, e.to, rest, to) && Canonical(adj, amount, e.to, rest)
    ensures IsWalk(adj, amount, from, [e] + rest, to)
    ensures Canonical(adj, amount, from, [e] + rest)
    ensures TotalFee([e] + rest) == e.fee + TotalFee(rest)
  {
    assert ([e] + rest)[1..] == rest;
  }
}
