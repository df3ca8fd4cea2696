/** How POST /payments picks a bridge for a testnet payment (go-api/internal/handler/payments.go). */
module QuoteSelection {
  import opened Common
  import opened RoutingGraph
  import opened Routes
  import opened NetworkSimulation
  import opened RoutingService
  import opened Payments
  import Money

  /** A provider's answer; fees are in base units and may have any sign. */
  datatype Quote = Quote(
    providerName: string, originChainId: int, destinationChainId: int,
    fee: int, fillTimeSec: int, expiresAt: int, available: bool)

  datatype SelectionError = NotSupported | ProvidersUnavailable | NoRoute | Rejected(rpc: RpcError)

  /** The outcome per registered provider, in registration order; `None` is a failed request. */
  type Results = seq<Option<Quote>>

  predicate Offers(results: Results, i: nat) {
    i < |results| && results[i].Some? && results[i].value.available
  }

  /** The cheapest available quote, and the earliest registered one at that fee. */
  ghost predicate Best(results: Results, w: nat) {
    Offers(results, w) && forall i: nat :: Offers(results, i) ==>
      results[w].value.fee <= results[i].value.fee && (i < w ==> results[w].value.fee < results[i].value.fee)
  }

  /** One of the first `n` providers answered at all. */
  ghost predicate Answered(results: Results, n: nat)
    requires n <= |results|
  {
    exists i :: 0 <= i < n && results[i].Some?
  }

  ghost predicate AnyOffer(results: Results) {
    exists i: nat :: Offers(results, i)
  }

  /** Providers answer in any order; each writes its own slot. */
  method Gather(answers: Results, completions: seq<nat>) returns (results: array<Option<Quote>>)
    requires forall k :: 0 <= k < |completions| ==> completions[k] < |answers|
    requires forall i :: 0 <= i < |answers| ==> i in completions
    ensures results[..] == answers
  {
    hide Offers;
    results := new Option<Quote>[|answers|](_ => None);
    for k := 0 to |completions|
      invariant forall i :: 0 <= i < |answers| && i in completions[..k] ==> results[i] == answers[i]
    {
      results[completions[k]] := answers[completions[k]];
    }
    assert completions[..|completions|] == completions;
  }

  const ONE_TOKEN: real := 1000000000000000000.0

  /** The fee in whole tokens, as the router compares it. */
  function TokenFee(fee: int): real {
    fee as real / ONE_TOKEN
  }

  function Candidate(name: string, q: Quote, amount: real): CandidateEdge {
    CandidateEdge(name, TokenFee(q.fee), (q.fillTimeSec * 1000) as real, amount, 1.0)
  }

  /** The providers with an available quote among the first `n`, in registration order. */
  function Offering(results: Results, n: nat): (idx: seq<nat>)
    requires n <= |results|
    ensures forall k :: 0 <= k < |idx| ==> idx[k] < n && Offers(results, idx[k])
    ensures forall i: nat :: i < n && Offers(results, i) ==> exists k :: 0 <= k < |idx| && idx[k] == i
    ensures forall j, k :: 0 <= j < k < |idx| ==> idx[j] < idx[k]
  {
    if n == 0 then []
    else if !Offers(results, n - 1) then Offering(results, n - 1)
    else
      var prior := Offering(results, n - 1);
      assert (prior + [n - 1])[|prior|] == n - 1;
      assert forall k :: 0 <= k < |prior| ==> (prior + [n - 1])[k] == prior[k];
      prior + [n - 1]
  }

  function Candidates(names: seq<string>, results: Results, idx: seq<nat>, amount: real): (cs: seq<CandidateEdge>)
    requires |names| == |results| && forall k :: 0 <= k < |idx| ==> idx[k] < |results| && results[idx[k]].Some?
    ensures |cs| == |idx|
    ensures forall k :: 0 <= k < |idx| ==> cs[k] == Candidate(names[idx[k]], results[idx[k]].value, amount)
  {
    seq(|idx|, k requires 0 <= k < |idx| => Candidate(names[idx[k]], results[idx[k]].value, amount))
  }

  /** The map from bridge name to quote that the handler keeps. */
  ghost predicate Indexes(quotes: map<string, Quote>, names: seq<string>, results: Results, n: nat)
    requires |names| == |results| && n <= |results|
  {
    && (forall i: nat :: i < n && Offers(results, i) ==> names[i] in quotes && quotes[names[i]] == results[i].value)
    && (forall b <- quotes :: exists i: nat :: i < n && Offers(results, i) && names[i] == b)
  }

  /** The candidate edges, in index order, never in completion order. */
  method CollectCandidates(names: seq<string>, results: Results, amount: real)
    returns (cs: seq<CandidateEdge>, quotes: map<string, Quote>, anySucceeded: bool)
    requires |names| == |results| && NoDuplicates(names)
    ensures cs == Candidates(names, results, Offering(results, |results|), amount)
    ensures Indexes(quotes, names, results, |results|)
    ensures anySucceeded <==> Answered(results, |results|)
  {
    hide Candidates, Offering, Candidate, Indexes, Answered, NoDuplicates;
    cs, quotes, anySucceeded := [], map[], false;
    NothingYet(names, results, amount);
    for i := 0 to |results|
      invariant cs == Candidates(names, results, Offering(results, i), amount)
      invariant Indexes(quotes, names, results, i)
      invariant anySucceeded <==> Answered(results, i)
    {
      OneMore(names, results, amount, i);
      OneMoreIndexed(quotes, names, results, i);
      if results[i].Some? {
        anySucceeded := true;
        if results[i].value.available {
          cs := cs + [Candidate(names[i], results[i].value, amount)];
          quotes := quotes[names[i] := results[i].value];
        }
      }
    }
  }

  lemma NothingYet(names: seq<string>, results: Results, amount: real)
    requires |names| == |results|
    ensures Candidates(names, results, Offering(results, 0), amount) == [] && Indexes(map[], names, results, 0)
    ensures !Answered(results, 0)
  {
  }

  lemma OneMore(names: seq<string>, results: Results, amount: real, i: nat)
    requires |names| == |results| && i < |results|
    ensures var cs := Candidates(names, results, Offering(results, i), amount);
      Candidates(names, results, Offering(results, i + 1), amount) ==
      if Offers(results, i) then cs + [Candidate(names[i], results[i].value, amount)] else cs
    ensures Answered(results, i + 1) <==> Answered(results, i) || results[i].Some?
  {
    hide Candidate;
  }

  lemma OneMoreIndexed(quotes: map<string, Quote>, names: seq<string>, results: Results, i: nat)
    requires |names| == |results| && NoDuplicates(names) && i < |results| && Indexes(quotes, names, results, i)
    ensures Indexes(if Offers(results, i) then quotes[names[i] := results[i].value] else quotes, names, results, i + 1)
  {
  }

  // ---- The route through the candidates ----

  /** From the source, a walk to the destination is exactly one of the parallel edges. */
  lemma OneHop(source: ChainId, destination: ChainId, cs: seq<CandidateEdge>, amount: real, edges: seq<Edge>)
    requires source != destination && IsWalk(CandidateNetwork(source, destination, cs), amount, 0, edges, 1)
    requires Canonical(CandidateNetwork(source, destination, cs), amount, 0, edges)
    ensures |edges| == 1 && FirstCheapest(EdgesFor(cs, 1), amount, edges[0])
  {
    var adj := CandidateNetwork(source, destination, cs);
    assert edges != [] && edges[0] in adj[0];
    assert edges[0].to == 1;
  }

  /** Every candidate carries the full amount, so an available quote means a route. */
  lemma QuoteIsRoute(source: ChainId, destination: ChainId, cs: seq<CandidateEdge>, amount: real)
    requires source != destination && cs != [] && cs[0].liquidity >= amount
    ensures Reachable(CandidateNetwork(source, destination, cs), amount, 0, 1)
  {
    var adj := CandidateNetwork(source, destination, cs);
    var e := EdgesFor(cs, 1)[0];
    assert e in adj[0];
    assert IsWalk(adj, amount, 1, [], 1);
    assert [e][1..] == [];
    assert IsWalk(adj, amount, 0, [e], 1);
  }

  /** The first cheapest edge is the best quote. */
  lemma FirstCheapestIsBest(names: seq<string>, results: Results, amount: real, e: Edge) returns (w: nat)
    requires |names| == |results|
    requires FirstCheapest(EdgesFor(Candidates(names, results, Offering(results, |results|), amount), 1), amount, e)
    ensures Best(results, w) && w < |results| && results[w].Some?
    ensures e == EdgeOf(Candidate(names[w], results[w].value, amount), 1)
  {
    hide Offering, Candidates, EdgesFor, TokenFee, CheapestAt, Candidate, EdgeOf;
    var idx := Offering(results, |results|);
    var cs := Candidates(names, results, idx, amount);
    var es := EdgesFor(cs, 1);
    var k :| 0 <= k < |es| && es[k] == e && CheapestAt(es, amount, k, |es|);
    w := idx[k];
    forall i: nat | Offers(results, i)
      ensures results[w].value.fee <= results[i].value.fee && (i < w ==> results[w].value.fee < results[i].value.fee)
    {
      CheaperThan(names, results, amount, idx, k, i);
    }
  }

  lemma CheaperThan(names: seq<string>, results: Results, amount: real, idx: seq<nat>, k: nat, i: nat)
    requires |names| == |results| && k < |idx| && idx == Offering(results, |results|) && Offers(results, i)
    requires var es := EdgesFor(Candidates(names, results, idx, amount), 1); CheapestAt(es, amount, k, |es|)
    ensures var x, y := results[idx[k]].value.fee, results[i].value.fee; x <= y && (i < idx[k] ==> x < y)
  {
    hide Offering, Candidates, EdgesFor, CheapestAt;
    var j :| 0 <= j < |idx| && idx[j] == i;
    CheaperQuote(names, results, amount, idx, k, j);
  }

  lemma CheaperQuote(names: seq<string>, results: Results, amount: real, idx: seq<nat>, k: nat, j: nat)
    requires |names| == |results| && k < |idx| && j < |idx| && idx == Offering(results, |results|)
    requires var es := EdgesFor(Candidates(names, results, idx, amount), 1); CheapestAt(es, amount, k, |es|)
    ensures var x, y := results[idx[k]].value.fee, results[idx[j]].value.fee; x <= y && (idx[j] < idx[k] ==> x < y)
  {
    hide Offering, Candidates, EdgesFor, TokenFee;
    var es := EdgesFor(Candidates(names, results, idx, amount), 1);
    assert es[j].fee == TokenFee(results[idx[j]].value.fee) && es[k].fee == TokenFee(results[idx[k]].value.fee);
    FeesCompare(results[idx[k]].value.fee, results[idx[j]].value.fee);
    FeesCompare(results[idx[j]].value.fee, results[idx[k]].value.fee);
  }

  lemma FeesCompare(a: int, b: int)
    ensures TokenFee(a) <= TokenFee(b) <==> a <= b
  {
  }

  // ---- The stored quotes ----

  /** `big.Int.String`. */
  function IntString(n: int): string {
    Money.Sign(n < 0) + Money.PrintNat(if n < 0 then -n else n)
  }

  function RowOf(q: Quote, selected: bool): QuoteRow {
    QuoteRow(q.providerName, q.originChainId, q.destinationChainId, IntString(q.fee), q.expiresAt, selected)
  }

  /** The row shows the quote: provider, both chain IDs, expiry, and a text that reads back as the fee. */
  ghost predicate RowShows(row: QuoteRow, q: Quote, selected: bool) {
    && row.provider == q.providerName && row.originChainId == q.originChainId
    && row.destinationChainId == q.destinationChainId && row.expiresAt == q.expiresAt
    && Money.SetString(row.fee) == Some(q.fee) && row.selected == selected
  }

  lemma RowOfShows(q: Quote, selected: bool)
    ensures RowShows(RowOf(q, selected), q, selected)
  {
    var n := if q.fee < 0 then -q.fee else q.fee;
    Money.PrintThenRead(n);
    Money.SetStringSigned(q.fee < 0, Money.PrintNat(n));
    hide Money.SetString, Money.PrintNat;
  }

  /** One row per fetched quote, in whatever order the map yields them. */
  method QuoteRows(quotes: map<string, Quote>, winner: string) returns (rows: seq<QuoteRow>, ghost bridges: seq<string>)
    ensures |rows| == |bridges| && NoDuplicates(bridges) && (forall b :: b in bridges <==> b in quotes)
    ensures forall j :: 0 <= j < |rows| ==>
      bridges[j] in quotes && rows[j] == RowOf(quotes[bridges[j]], bridges[j] == winner)
  {
    hide RowOf;
    rows, bridges := [], [];
    var left := quotes.Keys;
    while left != {}
      invariant left <= quotes.Keys && forall b :: b in bridges <==> b in quotes && b !in left
      invariant |rows| == |bridges| && NoDuplicates(bridges)
      invariant forall j :: 0 <= j < |rows| ==>
        bridges[j] in quotes && rows[j] == RowOf(quotes[bridges[j]], bridges[j] == winner)
      decreases |left|
    {
      var b :| b in left;
      rows, bridges := rows + [RowOf(quotes[b], b == winner)], bridges + [b];
      left := left - {b};
    }
  }

  /** The rows stored for a payment: one per available quote, of which `winner`'s alone is selected. */
  ghost predicate Stored(rows: seq<QuoteRow>, results: Results, winner: nat, order: seq<nat>) {
    && |order| == |rows| && NoDuplicates(order) && (forall i: nat :: Offers(results, i) ==> i in order)
    && (forall j :: 0 <= j < |order| ==>
        Offers(results, order[j]) && RowShows(rows[j], results[order[j]].value, order[j] == winner))
  }

  ghost function PlaceOfName(names: seq<string>, b: string): (i: nat)
    requires b in names
    ensures i < |names| && names[i] == b
  {
    var i :| 0 <= i < |names| && names[i] == b;
    i
  }

  lemma RowsAreStored(names: seq<string>, results: Results, quotes: map<string, Quote>, winner: nat,
                      rows: seq<QuoteRow>, bridges: seq<string>)
    returns (order: seq<nat>)
    requires |names| == |results| && NoDuplicates(names) && Indexes(quotes, names, results, |results|)
    requires Best(results, winner)
    requires |rows| == |bridges| && NoDuplicates(bridges) && (forall b :: b in bridges <==> b in quotes)
    requires forall j :: 0 <= j < |rows| ==>
      bridges[j] in quotes && rows[j] == RowOf(quotes[bridges[j]], bridges[j] == names[winner])
    ensures Stored(rows, results, winner, order)
  {
    hide RowOf, RowShows;
    assert forall j :: 0 <= j < |bridges| ==> bridges[j] in names;
    order := seq(|bridges|, j requires 0 <= j < |bridges| => PlaceOfName(names, bridges[j]));
    forall i: nat | Offers(results, i)
      ensures i in order
    {
      var j :| 0 <= j < |bridges| && bridges[j] == names[i];
      assert order[j] == i;
    }
    forall j | 0 <= j < |order|
      ensures Offers(results, order[j]) && RowShows(rows[j], results[order[j]].value, order[j] == winner)
    {
      assert names[order[j]] == bridges[j];
      RowOfShows(results[order[j]].value, order[j] == winner);
    }
  }

  /** What the executor later reads back is the winner's quote. */
  lemma {:induction false} SelectedIsWinner(rows: seq<QuoteRow>, results: Results, winner: nat, order: seq<nat>)
    requires Stored(rows, results, winner, order) && winner in order
    ensures SelectedQuote(rows).Some? && RowShows(SelectedQuote(rows).value, results[winner].value, true)
  {
    var k :| 0 <= k < |order| && order[k] == winner;
    OnlySelected(rows, k);
  }

  lemma {:induction false} OnlySelected(rows: seq<QuoteRow>, k: nat)
    requires k < |rows| && rows[k].selected && forall j :: 0 <= j < k ==> !rows[j].selected
    ensures SelectedQuote(rows) == Some(rows[k])
  {
    if k > 0 { OnlySelected(rows[1..], k - 1); }
  }

  /** No two available quotes name the same provider. */
  ghost predicate NamesDiffer(results: Results) {
    forall i: nat, j: nat :: Offers(results, i) && Offers(results, j) && i != j ==>
      results[i].value.providerName != results[j].value.providerName
  }

  /** Every available quote names the provider it was asked from, as it was registered. */
  ghost predicate NamedAsRegistered(names: seq<string>, results: Results)
    requires |names| == |results|
  {
    forall i: nat :: Offers(results, i) ==> results[i].value.providerName == names[i]
  }

  lemma RegisteredNamesDiffer(names: seq<string>, results: Results)
    requires |names| == |results| && NoDuplicates(names) && NamedAsRegistered(names, results)
    ensures NamesDiffer(results)
  {
  }

  /** The unique constraints accept the rows exactly when the quotes name different providers. */
  lemma InsertableExactlyWhen(rows: seq<QuoteRow>, results: Results, winner: nat, order: seq<nat>)
    requires Stored(rows, results, winner, order)
    ensures QuotesInsertable(rows) <==> NamesDiffer(results)
  {
    hide IntString;
    if QuotesInsertable(rows) {
      forall i: nat, j: nat | Offers(results, i) && Offers(results, j) && i != j
        ensures results[i].value.providerName != results[j].value.providerName
      {
        var a :| 0 <= a < |order| && order[a] == i;
        var b :| 0 <= b < |order| && order[b] == j;
        assert rows[if a < b then a else b].provider != rows[if a < b then b else a].provider;
      }
    }
  }

  /** The one hop of the route: the quote's fee in whole tokens, its fill time, and the full amount as liquidity. */
  ghost predicate HopShows(hop: RouteHop, source: ChainId, destination: ChainId, q: Quote, amount: real) {
    && hop.fromChain == source && hop.toChain == destination
    && hop.fee * 1000000000000000000.0 == q.fee as real && hop.latencyMs == (q.fillTimeSec * 1000) as real
    && hop.liquidity == amount && hop.reliability == 1.0
  }

  lemma HopOfQuote(reply: FindRouteResponse, source: ChainId, destination: ChainId, e: Edge, name: string, q: Quote,
                   amount: real)
    requires |reply.hops| == 1 && Linked(reply.hops, source, destination) && Shows(reply.hops[0], e, amount)
    requires e == EdgeOf(Candidate(name, q, amount), 1) && HopFees(reply.hops) == reply.totalFee
    ensures HopShows(reply.hops[0], source, destination, q, amount) && reply.totalFee == reply.hops[0].fee
  {
    assert reply.hops[1..] == [];
  }

  /** Routing the candidates: with a positive amount there is always a one-hop route, over the best quote. */
  method RouteQuotes(sim: NetworkSimulator, names: seq<string>, results: Results, source: ChainId,
                     destination: ChainId, asset: AssetId, amount: real, cs: seq<CandidateEdge>)
    returns (reply: Result<FindRouteResponse, RpcError>, ghost winner: nat)
    requires sim.Valid() && |names| == |results| && source != destination
    requires cs == Candidates(names, results, Offering(results, |results|), amount) && cs != []
    ensures reply.Ok? <==> amount > 0.0
    ensures reply.Ok? ==>
      && winner < |results| && results[winner].Some? && Best(results, winner)
      && |reply.value.hops| == 1 && reply.value.hops[0].bridgeName == names[winner]
      && HopShows(reply.value.hops[0], source, destination, results[winner].value, amount)
      && reply.value.totalFee == reply.value.hops[0].fee
  {
    hide Offering, Candidates, Candidate, CandidateNetwork, Cheapest, Canonical, Reachable, Linked, HopFees, TotalFee,
      Best, HopShows, EdgeOf;
    winner := 0;
    var request := FindRouteRequest(Some(source), Some(destination), Some(asset), amount, cs);
    ghost var edges;
    reply, edges := FindRoute(sim, request);
    if reply.Err? { return; }
    FullLiquidity(names, results, amount);
    QuoteIsRoute(source, destination, cs, amount);
    winner := Winner(names, results, source, destination, amount, edges);
    HopOfQuote(reply.value, source, destination, edges[0], names[winner], results[winner].value, amount);
  }

  /**
   * The choice of a bridge for a payment between two different chains: with an available quote there is always a
   * one-hop route, over the cheapest quote, the earliest registered one among equals, whatever the sign of the fees.
   */
  method SelectQuote(sim: NetworkSimulator, names: seq<string>, results: Results, source: ChainId,
                     destination: ChainId, asset: AssetId, amount: real)
    returns (r: Result<(FindRouteResponse, seq<QuoteRow>), SelectionError>, ghost winner: nat, ghost order: seq<nat>)
    requires sim.Valid() && |names| == |results| && NoDuplicates(names) && source != destination
    ensures r == Err(NotSupported) <==> names == []
    ensures r == Err(ProvidersUnavailable) <==> names != [] && !Answered(results, |results|)
    ensures r == Err(NoRoute) <==> Answered(results, |results|) && !AnyOffer(results)
    ensures r.Ok? <==> amount > 0.0 && AnyOffer(results)
    ensures r.Ok? ==>
      && Best(results, winner) && Stored(r.value.1, results, winner, order)
      && |r.value.0.hops| == 1 && r.value.0.hops[0].bridgeName == names[winner]
      && SelectedQuote(r.value.1).Some? && RowShows(SelectedQuote(r.value.1).value, results[winner].value, true)
      && HopShows(r.value.0.hops[0], source, destination, results[winner].value, amount)
      && r.value.0.totalFee == r.value.0.hops[0].fee
    ensures r.Ok? ==> (QuotesInsertable(r.value.1) <==> NamesDiffer(results))
    ensures r.Ok? && NamedAsRegistered(names, results) ==> QuotesInsertable(r.value.1)
  {
    hide Offering, Candidates, Candidate, CandidateNetwork, Indexes, RowOf, SelectedQuote, Cheapest, Canonical,
      Reachable, Linked, HopFees, TotalFee,
      Answered, AnyOffer, Offers, Best, Stored, NoDuplicates, QuotesInsertable, NamesDiffer, NamedAsRegistered,
      HopShows, RowShows, Shows, EdgeOf;
    NobodyAnswers(results);
    CandidatesMeanOffers(names, results, amount);
    winner, order := 0, [];
    if names == [] { return Err(NotSupported), 0, []; }
    var cs, quotes, anySucceeded := CollectCandidates(names, results, amount);
    if !anySucceeded { return Err(ProvidersUnavailable), 0, []; }
    if cs == [] { return Err(NoRoute), 0, []; }
    var reply, best := RouteQuotes(sim, names, results, source, destination, asset, amount, cs);
    if reply.Err? { return Err(Rejected(reply.error)), 0, []; }
    winner := best;
    var hop := reply.value.hops[0];
    var rows, bridges := QuoteRows(quotes, hop.bridgeName);
    order := RowsAreStored(names, results, quotes, winner, rows, bridges);
    WinnerIsStored(rows, results, winner, order);
    InsertableExactlyWhen(rows, results, winner, order);
    if NamedAsRegistered(names, results) { RegisteredNamesDiffer(names, results); }
    r := Ok((reply.value, rows));
  }

  lemma NobodyAnswers(results: Results)
    ensures Answered(results, |results|) <== AnyOffer(results)
    ensures results == [] ==> !Answered(results, |results|)
  {
  }

  lemma CandidatesMeanOffers(names: seq<string>, results: Results, amount: real)
    requires |names| == |results|
    ensures Candidates(names, results, Offering(results, |results|), amount) != [] <==> AnyOffer(results)
  {
    hide Offering, Offers, Candidates;
    var idx := Offering(results, |results|);
    if idx != [] { assert Offers(results, idx[0]); }
    if AnyOffer(results) {
      var i: nat :| Offers(results, i);
      InRange(results, i);
    }
  }

  lemma InRange(results: Results, i: nat)
    requires Offers(results, i)
    ensures i < |results|
  {
  }

  lemma WinnerIsStored(rows: seq<QuoteRow>, results: Results, winner: nat, order: seq<nat>)
    requires Stored(rows, results, winner, order) && Best(results, winner)
    ensures SelectedQuote(rows).Some? && RowShows(SelectedQuote(rows).value, results[winner].value, true)
  {
    hide SelectedQuote, RowShows;
    SelectedIsWinner(rows, results, winner, order);
  }

  lemma FullLiquidity(names: seq<string>, results: Results, amount: real)
    requires |names| == |results| && Candidates(names, results, Offering(results, |results|), amount) != []
    ensures Candidates(names, results, Offering(results, |results|), amount)[0].liquidity == amount
  {
    hide Offering, Candidates;
  }

  lemma Winner(names: seq<string>, results: Results, source: ChainId, destination: ChainId, amount: real,
               edges: seq<Edge>)
    returns (w: nat)
    requires |names| == |results| && source != destination
    requires
      var cs := Candidates(names, results, Offering(results, |results|), amount);
      var adj := CandidateNetwork(source, destination, cs);
      Cheapest(adj, amount, 0, edges, 1) && Canonical(adj, amount, 0, edges)
    ensures |edges| == 1 && Best(results, w) && w < |results| && results[w].Some?
    ensures edges[0] == EdgeOf(Candidate(names[w], results[w].value, amount), 1) && edges[0].bridgeName == names[w]
  {
    hide Offering, Candidates, CandidateNetwork, Canonical, IsWalk, Best, FirstCheapest;
    var cs := Candidates(names, results, Offering(results, |results|), amount);
    OneHop(source, destination, cs, amount, edges);
    w := FirstCheapestIsBest(names, results, amount, edges[0]);
  }
}
