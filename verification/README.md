# ChainRoute, verified

A Dafny model of ChainRoute's two hard cores and of the smaller ones that feed them, with proofs about all inputs and all runs.

**The payment execution protocol** (`Payments`, `Database`, `Protocol`). Every store statement or transaction, chain call, clock read
and Kafka append is one atomic step of a state machine. The state holds the tables, the Kafka log (any logged message may be delivered
any number of times), a chain that mines at most one transaction per sender nonce (section 6 of the Ethereum Yellow Paper), the clock,
and one program counter per actor. API calls, outbox publishers, consumers, the recovery sweep, executors and reconcilers interleave
freely, and a crash may drop an actor at any point. `Invariants` and `Safety` give the invariant that every action keeps; `Theorems`
draws the whole-run results under full interleaving; `Provenance` traces every signature, failure and outcome of a run back to the
earlier calls of the very actor that made it, and says exactly what each check and each answer leads to; `SoleDrivers` asks only that no two actors drive one payment, and `NoOverlap`
adds one outcome check per payment, a clock that does not go back and one amount ceiling; `Divergence` builds the runs that show which
assumptions are needed.

**The code itself.** `PostgresStore.Store` is the store as a class whose methods update the tables. `World` is the system as one worker
sees it: before each of the worker's calls, every other actor may do anything the protocol allows. The Go bodies (`Executor`,
`Reconciler`, `Workers`) are methods over it, branch by branch; that they verify means each body is a sequence of protocol steps, their
contracts say which calls were made and what an answer without an error means, and `Workers.WorldIsRun` carries every theorem about
runs over to them.

**The router.** `RoutingGraph`, `Routes`, `SearchSteps` and `Dijkstra`: the lazy-deletion search on arrays and a heap with stale
entries, and the same search as a step relation on labels and heap.
`DeterministicRng` and `NetworkSimulation`: the simulator, which always meets the search's precondition. `RoutingService` and
`QuoteSelection`: the route through candidate quotes, end to end.

**Text, hashes and pages.** `Money`: exact decimal to base-unit conversion. `Words` and `SimulatedExecutor`: FNV-1a on 64-bit words and
the simulated outcome. `Cursor` and `Pagination`: keyset paging against the sorted list.

## Findings

- "At most one mined transaction per payment" does not hold of every deployment: a resumed row is signed with the resuming worker's own
  wallet (go-api/internal/worker/executor.go:430), not the wallet recorded in the row. It holds of a fleet exactly when workers that can
  sign for the same provider share one wallet and one origin chain (`Divergence.OneMinedExactlyWhen`, both directions).
- With two overlapping drivers the stored signature can differ from the transaction that was sent and mined
  (`Divergence.OverlapOverwritesSignature`), because PersistSignedExecution does not look at an existing signature. Under full
  interleaving the stored bytes are final in every run of a fleet exactly when none of its workers can sign for any provider
  (`Divergence.FinalExactlyWhen`); in every run in which no two actors drive one payment they are final whatever the fleet, the clocks and
  the ceilings (`SoleDrivers.SignedBytesAreFinal`), and at most one transaction is ever sent per payment (`SoleDrivers.OneSentPerPayment`).
- `DecimalToBaseUnits` accepts two kinds of strings one would not call decimals: a sign after a leading dot (".-5") and, for a positive
  precision, an empty integer part, up to the empty string. `Money.AcceptedExactly` says exactly which strings pass.
- A cursor survives its round trip exactly when the timestamp text has no comma; RFC 3339 text never has one.
- The route search does not end for every request: with source equal to destination and a candidate of negative fee that carries the
  amount, the heap is non-empty after every number of steps (`SearchSteps.NegativeLoopNeverEnds`). A request is answered if and only if it
  is rejected first, its chains differ, or no candidate with liquidity for the amount has a negative fee
  (`RoutingService.AnsweredExactlyWhen`). Both HTTP handlers reject equal chains before routing (go-api/internal/handler/payments.go:199,
  go-api/internal/handler/routes.go:158).
- The rows of a payment's quotes are accepted by the unique constraints exactly when the available quotes name different providers
  (`QuoteSelection.InsertableExactlyWhen`), which they do when each quote carries its provider's registered name.

## Assumptions

- Money in the router, and fees and metrics in the simulator, are exact reals: no rounding and no NaN.
- Signing is an injective function of the whole transaction, so the transaction stands for its raw bytes and its hash. The wallet is
  dedicated: the chain knows only transactions that were sent.
- A provider's fresh quote is for the amount that was asked; otherwise providers answer anything.
- Fresh payment, event and execution IDs are new.
- Payment IDs are ASCII, as UUIDs are, for the FNV-1a hash of the simulated executor.
- Staleness thresholds are not modelled: a sweep may pick up a row at any time. "No overlap" is the assumption the 30-second handler
  timeout against 120 seconds of staleness is there to give (go-api/cmd/worker/main.go:83-94, go-api/internal/worker/processor.go:136).
- Amounts reach the store as plain decimal numerals (go-api/internal/handler/payments.go:24); two amounts are equal when they denote the
  same number.
- Column widths (NUMERIC(38, 18), BIGINT) do not bound the model's integers; an amount with more than 18 decimals is rejected.
- Errors and timeouts of a call end the actor, before or after the call took effect.

## Model

| member | source | states |
|---|---|---|
| RoutingGraph.Graph.constructor | router/src/graph.cpp:8-17 | a new graph is empty and well formed |
| RoutingGraph.Graph.FindNode | router/src/graph.cpp:19-25 | finds a node's only index, and finds nothing exactly when the node is absent |
| RoutingGraph.Graph.AddNode | router/src/graph.cpp:8-17 | adding a known node changes nothing; a new one is appended with no edges and renumbers no other |
| RoutingGraph.Graph.AddEdge | router/src/graph.cpp:38-46 | rejected exactly when an end is out of range, and then nothing changes; otherwise one edge is appended |
| RoutingGraph.Graph.EdgesFrom | router/src/graph.cpp:48-53 | all edges of a node in insertion order, each ending inside the graph |
| SearchSteps.RunsAgree | router/src/route.cpp:32-52 | the pop-and-scan loop is deterministic: two runs agree at every step |
| SearchSteps.NegativeLoopNeverEnds | router/src/route.cpp:32-52 | on one node with an eligible loop of negative fee the heap is non-empty after every number of steps |
| Dijkstra.ExpandStarts | router/src/route.cpp:32-38 | the popped entry with a current label belongs to a node never expanded before; the invariant survives |
| Dijkstra.ExpandedAtMostOnce | router/src/route.cpp:32-52 | expansions without repetition are at most as many as nodes: the search ends despite stale entries |
| Dijkstra.ExpandedExactly | router/src/route.cpp:32-52 | at the empty heap the expanded nodes are exactly the reachable ones that are not exempt, without repetition |
| Dijkstra.TameHalts | router/src/route.cpp:32-52 | the step relation reaches an empty heap from every source of a tame network |
| Dijkstra.LabelsAreLowerBounds | router/src/route.cpp:32-52 | when the heap is empty, no walk of any length is cheaper than the labels |
| Dijkstra.PredecessorDescends | router/src/route.cpp:58-63 | the predecessor was expanded earlier and its label plus the edge's fee is the label: the chain is acyclic even with zero-fee cycles |
| Dijkstra.RouteIsCheapest | router/src/route.cpp:58-66 | a walk that spends exactly the label is a cheapest walk |
| Dijkstra.FindCheapestRoute | router/src/route.cpp:12-67 | none exactly when no eligible walk exists; otherwise a linked walk, at most as expensive as every eligible walk, with the reported total, using the first cheapest of parallel edges; the passes of the loop are a search from start to empty heap in which the nodes with an eligible way out are expanded exactly when reachable and at most once, and without negative fees so is every node; out-of-range ends rejected in order |
| DeterministicRng.Draw | router/src/sim/deterministic_rng.cpp:27-46 | the byte loops and 64-bit mixing compute the specified draw, which lies in [0, 1) |
| DeterministicRng.Mix | router/src/sim/deterministic_rng.cpp:17-23 | the add, shift, exclusive-or and multiply steps compute the specified mixing, wrapping at 64 bits |
| DeterministicRng.TopBitsAre | router/src/sim/deterministic_rng.cpp:42-45 | the value drawn is the state over 2^64 cut off after 53 bits |
| NetworkSimulation.PairKeyIsInjective | router/src/sim/network_simulator.cpp:65-73 | different ordered chain pairs have different keys |
| NetworkSimulation.PairIsJoined | router/src/sim/network_simulator.cpp:97-106 | a pair is left out exactly when it is a chain and itself or its roll is at least 0.6; otherwise it has one, two or three bridges by thirds of the second roll |
| NetworkSimulation.DrawBridge | router/src/sim/network_simulator.cpp:108-142 | the six rolls of a bridge, each from its own role, give the specified bridge |
| NetworkSimulation.DrawEdge | router/src/sim/network_simulator.cpp:151-200 | the four rolls of a bridge at a tick give the specified edge |
| NetworkSimulation.GeneratePair | router/src/sim/network_simulator.cpp:92-143 | a pair gets exactly its drawn number of bridges, in order; none between a chain and itself |
| NetworkSimulation.GenerateTopology | router/src/sim/network_simulator.cpp:86-149 | the triple loop yields the pairs' bridges in the documented order, all well formed |
| NetworkSimulation.BridgeIsWellFormed | router/src/sim/network_simulator.cpp:108-142 | every bridge keeps its asset, joins two different chains, has an in-range name and base parameters in the documented ranges |
| NetworkSimulation.MetricRange | router/src/sim/network_simulator.cpp:151-158 | noise never takes a metric out of its clamp range, nor to zero or below, nor further from its base than the volatility allows |
| NetworkSimulation.NetworkSimulator.constructor | router/src/sim/network_simulator.cpp:162-162 | the topology is the seed's topology, at tick 0 |
| NetworkSimulation.NetworkSimulator.Tick | router/src/sim/network_simulator.cpp:164-166 | the tick is a 64-bit counter that wraps |
| NetworkSimulation.NetworkSimulator.Snapshot | router/src/sim/network_simulator.cpp:172-203 | a well-formed graph with the ten nodes in order and, out of each node, exactly its bridges' edges in topology order |
| NetworkSimulation.EdgesAreSound | router/src/sim/network_simulator.cpp:182-200 | every edge is a bridge of its node's own chain and asset, each figure within the volatility of that bridge's own base, with positive fee, latency at least 1 and reliability in (0, 1] |
| NetworkSimulation.SnapshotIsTame | router/src/sim/network_simulator.cpp:172-203 | for every seed, tick and amount the snapshot meets the route search's precondition |
| NetworkSimulation.WalksKeepAsset | router/src/sim/network_simulator.cpp:182-200 | no walk of any length changes the asset |
| RoutingService.BuildGraphFromCandidates | cpp-routing-service/src/routing_service.cpp:19-30 | parallel edges from source to destination in request order; a loop when both are the same |
| RoutingService.CandidatesAreTame | cpp-routing-service/src/routing_service.cpp:19-30 | between two chains the candidate graph suits the search for fees of any sign |
| RoutingService.AnsweredExactlyWhen | cpp-routing-service/src/routing_service.cpp:40-88 | a request is answered if and only if it is rejected, its chains differ, or no candidate that carries the amount has a negative fee |
| RoutingService.HopsAreLinked | cpp-routing-service/src/routing_service.cpp:90-101 | the hops lead from chain to chain without a gap, and their fees add up to the route's total |
| RoutingService.HopsShow | cpp-routing-service/src/routing_service.cpp:90-101 | each hop shows its edge's bridge, fee, latency, liquidity and reliability, and carries the amount |
| RoutingService.BuildHops | cpp-routing-service/src/routing_service.cpp:90-101 | the loop turns the route into exactly its hops |
| RoutingService.FindRoute | cpp-routing-service/src/routing_service.cpp:40-105 | which of the five errors, exactly when; otherwise finds a route exactly when one exists, the cheapest one, with linked hops that show their edges, carry the amount and add up to the total; for every request whose search ends at all |
| QuoteSelection.Gather | go-api/internal/handler/payments.go:298-325 | the results do not depend on the order in which providers complete |
| QuoteSelection.CollectCandidates | go-api/internal/handler/payments.go:328-346 | one candidate per available quote, in registration order, each found again by its bridge name |
| QuoteSelection.OneHop | cpp-routing-service/src/routing_service.cpp:19-30 | every route through candidates is a single hop over the first cheapest of them |
| QuoteSelection.FirstCheapestIsBest | router/src/route.cpp:40-51 | the search's tie-break picks the cheapest quote, the earliest registered among equals |
| QuoteSelection.QuoteRows | go-api/internal/handler/payments.go:427-442 | one row per fetched quote in any map order, selected exactly for the winning bridge |
| QuoteSelection.SelectQuote | go-api/internal/handler/payments.go:328-442 | an available quote always gives a one-hop route between the two chains with the quote's fee in whole tokens, its fill time and the full amount; exactly one stored quote is selected, the cheapest available one, ties to the earliest provider, fees of any sign; which error otherwise; the rows are insertable when quotes carry their registered names |
| QuoteSelection.SelectedIsWinner | go-api/internal/postgres/quote_store.go:36-57 | the selected quote read back later shows the winner's provider, chain IDs, expiry and fee |
| QuoteSelection.InsertableExactlyWhen | go-api/internal/postgres/quote_store.go:12-27 | the unique constraints accept the rows if and only if the available quotes name different providers |
| QuoteSelection.RowOfShows | go-api/internal/handler/payments.go:428-441 | a stored row shows the quote's provider, both chain IDs, expiry and selection, and its fee text reads back as the quoted fee |
| Money.DecimalToBaseUnits | go-api/internal/money/convert.go:19-38 | rejected for precision exactly when the fraction is longer than the precision |
| Money.AcceptedExactly | go-api/internal/money/convert.go:19-38 | which strings are accepted, both directions |
| Money.ParseKeepsValue | go-api/internal/money/convert.go:30-37 | an accepted numeral converts to exactly its value in base units |
| Money.FormatThenParse | go-api/internal/money/convert.go:19-63 | for every integer and precision, reading the printed amount gives the integer back |
| Money.ParseThenFormat | go-api/internal/money/convert.go:19-63 | a canonical numeral survives the reverse composition unchanged |
| Money.NormalForm | go-api/internal/money/convert.go:19-63 | the reverse composition gives the one canonical numeral with the same value |
| Money.SameNumberExactly | go-api/internal/postgres/store.go:49-50 | two numerals denote the same number if and only if they convert to the same base units, at every precision that fits both |
| Money.BaseUnitsToDecimal | go-api/internal/money/convert.go:46-63 | the padding loop prints the canonical form, and it reads back as the amount |
| Payments.SlippageBound | go-api/internal/worker/executor.go:219-243 | exactly which fresh fees pass, for every sign of baseline and tolerance: 10000 (fee - baseline) <= max(0, baseline * bps); an unreadable baseline lets no positive fee pass |
| Payments.SlippageCeiling | go-api/internal/worker/executor.go:219-243 | against a baseline that is not negative the bound is 10000 fee <= (10000 + max(0, bps)) baseline |
| Payments.AmountInUnits | go-api/internal/worker/executor.go:138-141 | the base units of an amount are the number it denotes times 10 to the 18th |
| Cursor.RoundTrip | go-api/internal/payment/cursor.go:30-38 | base64url decoding undoes encoding for every byte string |
| Cursor.PublishedVectors | go-api/internal/payment/cursor.go:30-32 | the encodings published in RFC 4648, and the two digits of the URL-safe alphabet |
| Cursor.CursorRoundTrip | go-api/internal/payment/cursor.go:30-44 | a cursor decodes to its parts exactly when the timestamp has no comma, whatever the ID |
| Pagination.MatchingIsTheList | go-api/internal/postgres/store.go:333-360 | the reference list: exactly the wanted rows of the table, in its order |
| Pagination.FitsExactly | go-api/internal/postgres/store.go:340-354 | a row passes the filter if and only if it agrees with each field that is set |
| Pagination.Query | go-api/internal/postgres/store.go:360-383 | the query returns the first rows of the reference list |
| Pagination.ListPayments | go-api/internal/postgres/store.go:315-395 | the page on the fields of its rows: every row has the filter's status, provider, source, destination and mode wherever one is set, stands below the cursor, newest first; the default page size, when there is a next cursor and what it is, and the cursor errors |
| Pagination.NextPage | go-api/internal/postgres/store.go:333-339 | the page after a cursor starts exactly where the page before it ended |
| Pagination.FollowCursors | go-api/internal/postgres/store.go:333-394 | following the cursor to the end terminates and yields the first request's list, newest first, no gap and no repeat: a row of the table is in it if and only if it agrees with each field that is set; for every page size, also while newer payments are added |
| PostgresStore.Store.FindByIdempotencyKey | go-api/internal/postgres/store.go:44-81 | found exactly when the key is taken; Replayed exactly when chains, asset and mode are equal and the amounts denote the same number, Conflict exactly when any of the five differs |
| PostgresStore.Store.InsertPayment | go-api/internal/postgres/store.go:205-283 | payment, hops, quotes and outbox row go in together, or every table is as before; which of the three outcomes |
| PostgresStore.Store.InsertQuotes | go-api/internal/postgres/quote_store.go:12-27 | succeeds exactly when no two rows share a provider or are both selected |
| PostgresStore.Store.MarkOutboxPublished | go-api/internal/postgres/store.go:684-690 | marks that row only |
| PostgresStore.Store.UpdateStatus | go-api/internal/postgres/execution_store.go:206-242 | the guarded update behind MarkSubmitted, CompletePayment and CompleteSubmittedPayment: moves the row and answers true exactly when the guard holds |
| PostgresStore.Store.ClaimPayment | go-api/internal/postgres/store.go:563-578 | claims exactly a ROUTED payment and answers its mode |
| PostgresStore.Store.MarkProcessingFailed | go-api/internal/postgres/quote_store.go:99-113 | fails exactly a PROCESSING payment, with its reason |
| PostgresStore.Store.SeedWalletNonce | go-api/internal/postgres/execution_store.go:23-32 | a known wallet's counter is never touched |
| PostgresStore.Store.TryCreateExecution | go-api/internal/postgres/execution_store.go:66-116 | counter and row move together; a lost race or violated constraint leaves every table unchanged |
| PostgresStore.Store.PersistSignedExecution | go-api/internal/postgres/execution_store.go:164-175 | overwrites the row's signature and nothing else |
| PostgresStore.Store.MarkExecutionBroadcast | go-api/internal/postgres/execution_store.go:180-188 | sets the broadcast mark and nothing else |
| PostgresStore.Store.UpdateExecutionExternalStatus | go-api/internal/postgres/execution_store.go:192-200 | records the outcome and the confirmation and nothing else |
| PostgresStore.Store.GetQuoteByPaymentID | go-api/internal/postgres/quote_store.go:36-57 | the selected quote, if there is one |
| Invariants.NonceIsFree | go-api/internal/postgres/execution_store.go:66-116 | the counter never stands at a nonce some row has, so its unique constraint never fires |
| Invariants.ActorStable | go-api/internal/worker/executor.go:102-467 | what an actor knows between two of its calls survives every step of anyone else |
| Safety.ActionKeeps | go-api/internal/worker/executor.go:102-555 | every action of every actor, the chain and the clock keeps the invariant and undoes nothing |
| Safety.RunSafe | go-api/internal/worker/executor.go:102-555 | the invariant holds in every state of every run |
| Safety.RunEvolves | go-api/internal/postgres/store.go:563-600 | nothing an earlier state established is undone later in the run |
| Theorems.OneMinedPerPayment | go-api/internal/worker/executor.go:418-467 | with one wallet and chain per provider, over every run: two mined transactions are the same exactly when their payments are |
| Theorems.StatusOnlyMovesForward | go-api/internal/postgres/store.go:563-600 | statuses only move forward, terminal ones never move, requests never change |
| Theorems.SubmittedMeansBroadcast | go-api/internal/postgres/execution_store.go:164-240 | SUBMITTED implies a broadcast row with signed bytes and a transaction the chain has seen |
| Theorems.CompletedOnlyAfterFill | go-api/internal/worker/reconciler.go:173-280 | a testnet payment becomes COMPLETED only from SUBMITTED, after a receipt with status ok and a recorded fill |
| Theorems.NoncesFillInterval | go-api/internal/postgres/execution_store.go:66-116 | a wallet's executions hold exactly the nonces from its seed up to its counter |
| Theorems.ExecutionsAreUnique | go-api/internal/postgres/execution_store.go:66-116 | no two executions share a payment, or a nonce of one wallet |
| Theorems.AllocationIsExact | go-api/internal/postgres/execution_store.go:66-116 | from every reachable state, an allocation takes the next nonce with its row, or changes nothing when the wallet is unseeded or the race is lost |
| Theorems.CounterNeverGoesBack | go-api/internal/postgres/execution_store.go:23-32 | the seed is fixed by the first seeding, and the counter never decreases |
| Theorems.SimulatedOutcome | go-api/internal/worker/recovery.go:59-90 | a terminal simulated payment is FAILED exactly when the decimal hash of its ID ends in zero, whatever raced |
| Theorems.FinishedOnce | go-api/internal/postgres/store.go:587-600 | a terminal status is written at most once in a run |
| Theorems.RecoveryLeavesTestnetAlone | go-api/internal/postgres/store.go:610-631 | no step of recovery or of the simulated processor touches a testnet payment |
| Theorems.OutboxEndToEnd | go-api/internal/postgres/store.go:657-693 | one outbox row per payment, published rows are in the log, the log names committed payments, two publishers never hold one row |
| Theorems.ClaimedOnce | go-api/internal/postgres/store.go:563-578 | of all deliveries of a payment, at most one wins the claim |
| Theorems.FirstWriterWins | go-api/internal/postgres/store.go:181-296 | concurrent create calls answer as a sequential first-writer-wins store would: one Created per key; Replayed with its ID if and only if chains, asset and mode are equal and the amounts denote the same number, else Conflict |
| Theorems.MatchesExactly | go-api/internal/postgres/store.go:49-50 | a request matches a stored one if and only if the four fields are equal and the two numerals have the same value |
| Theorems.StoredIsAcceptable | go-api/internal/postgres/store.go:205-241 | no stored payment has equal chains or an amount that is not positive, or two quotes of one provider or two selected ones |
| Provenance.RunVouched | go-api/internal/worker/executor.go:102-377 | at every moment of every run a driver past a check had itself made that check, and passed it |
| Provenance.RunStored | go-api/internal/worker/executor.go:437-452 | whatever an actor is about to look up, send or mark had been in its row before |
| Provenance.RunFounded | go-api/internal/worker/reconciler.go:198-239 | an outcome about to be recorded or completed rests on a receipt or answer its own actor read |
| Provenance.SentWithinTerms | go-api/internal/worker/executor.go:102-467 | every transaction ever sent was signed by an actor that had itself found the routing-time quote unexpired and then a fresh one within tolerance and ceiling; it carries data, target, value and chain of the envelope the worker's signer built then, pays the asked number times 10^18 to the pinned contract, and had been stored in the payment's row before it was sent |
| Provenance.ExpiryDecides | go-api/internal/worker/executor.go:118-129 | with or without a row: a later clock leads to giving up as routing_quote_expired, and only that; otherwise on, if there is a client |
| Provenance.QuoteDecides | go-api/internal/worker/executor.go:150-196 | each reason for giving up, and the envelope that gets a row or a signature, if and only if the fresh quote, the tolerance, the ceiling and the validation say so |
| Provenance.RefusalEnds | go-api/internal/worker/executor.go:118-172 | a driver whose check came out badly ends a PROCESSING payment for that reason with its next call |
| Provenance.FailedForItsReason | go-api/internal/worker/executor.go:118-172 | a payment failed with a reason was PROCESSING and was failed by an actor that had itself met that reason on the routing-time quote |
| Provenance.OutcomeIsFounded | go-api/internal/worker/reconciler.go:173-307 | a testnet payment that ended without a reason was SUBMITTED and ended as a receipt and a provider's answer, read by the completing actor, say |
| Provenance.AnswerIsActedOn | go-api/internal/worker/reconciler.go:207-307 | a definite answer is recorded in the row and completes a SUBMITTED payment with the actor's next two calls: COMPLETED after a fill, FAILED otherwise |
| Provenance.ConfirmedShowsOutcome | go-api/internal/postgres/execution_store.go:192-200 | in every state of every run the confirmed rows are exactly those with an outcome |
| Provenance.NewPaymentIsRouted | go-api/internal/postgres/store.go:205-283 | every payment starts ROUTED, without a failure reason |
| Theorems.CreatedTogether | go-api/internal/postgres/store.go:205-283 | payment, hops, quotes, outbox row and Created answer exist all together or not at all, as the creating call drafted them |
| SimulatedExecutor.Execute | go-api/internal/execution/execution.go:17-24 | the byte loop, front to back, succeeds exactly when the decimal hash does not end in zero, with its reason otherwise |
| SimulatedExecutor.FailsExactly | go-api/internal/execution/execution.go:20-22 | an ID fails if and only if its hash, written in decimal, ends in zero |
| SimulatedExecutor.OneByteApart | go-api/internal/execution/execution.go:18-19 | two IDs that differ in one byte, wherever it stands, never share a hash |
| Words.OneByteSeparates | go-api/internal/execution/execution.go:18-19 | FNV-1a from any state separates texts that differ in one byte: every step can be undone |
| Words.PublishedVectors | go-api/internal/execution/execution.go:18-19 | the published FNV-1a values of the empty text and of "a" |
| SoleDrivers.RunBytes | go-api/internal/worker/executor.go:274-303 | when no two actors drive one payment, every driver knows whether and how its row is signed, and only stored bytes are ever sent |
| SoleDrivers.SignedBytesAreFinal | go-api/internal/worker/executor.go:274-303 | in every such run: once signed, the stored bytes never change, only they are ever sent, and no later driver looks at quote, expiry or slippage |
| SoleDrivers.OneSentPerPayment | go-api/internal/worker/executor.go:523-555 | in every such run at most one transaction is ever sent for a payment, whatever the wallets |
| NoOverlap.RunCareful | go-api/internal/worker/executor.go:102-467 | with one driver and one outcome check per payment, a clock that does not go back and one ceiling, what a driver or checker knows and the state of failed payments hold throughout the run |
| NoOverlap.FailedNeverPays | go-api/internal/worker/executor.go:312-364 | a payment failed with a reason is never signed or sent at any later point |
| NoOverlap.CompletionAlwaysLands | go-api/internal/worker/reconciler.go:273-307 | the completing update always finds the payment SUBMITTED: "affected no rows" is unreachable |
| Divergence.TwoMined | go-api/internal/worker/executor.go:418-430 | two workers with different wallets or chains for one provider can get two transactions mined for one payment |
| Divergence.OneMinedExactlyWhen | go-api/internal/worker/executor.go:418-467 | one mined transaction per payment holds of a fleet if and only if workers share wallet and chain per provider |
| Divergence.OverlapOverwritesSignature | go-api/internal/postgres/execution_store.go:164-175 | overlapping drivers can leave a stored signature that is not the transaction sent and mined |
| Divergence.FinalExactlyWhen | go-api/internal/postgres/execution_store.go:164-175 | under full interleaving stored bytes are final in every run if and only if no worker can sign |
| World.World.TransactionByHash | go-api/internal/worker/executor.go:529-540 | known, confirmed absent or failed lookup, and the next protocol step of each |
| World.World.Now | go-api/internal/worker/executor.go:118-118 | the time compared with the expiry is the clock's at this call |
| World.World.SignTx | go-api/internal/worker/executor.go:428-437 | the signed transaction carries the envelope's data, target, value and chain under the row's nonce and the worker's wallet |
| World.World.SendTransaction | go-api/internal/worker/executor.go:546-554 | an error is ambiguous: the node may have the transaction |
| World.World.TransactionReceipt | go-api/internal/worker/reconciler.go:199-213 | an answer only for a mined transaction, and it says whether it succeeded; reverted, unknown provider or next step |
| World.World.CompletePayment | go-api/internal/postgres/store.go:587-600 | true only for the call that finished the payment, and then the status is the ID's outcome; without an error the payment is past PROCESSING either way |
| World.World.ClaimPayment | go-api/internal/postgres/store.go:563-578 | a mode is answered only to the delivery that won the claim; then the payment is PROCESSING |
| World.World.SeedWalletNonce | go-api/cmd/worker/main.go:156-169 | after every startup the wallet has a counter, and one that had a counter never falls behind it, whatever other workers do meanwhile |
| World.World.Query | go-api/internal/postgres/execution_store.go:248-320 | each row a sweep works on satisfies its WHERE clause in the tables as the query leaves them, and has its own waiting actor |
| World.World.Refetch | go-api/internal/worker/reconciler.go:124-136 | the payment's row as it is stored, only if it is not yet broadcast; a signed row goes to the chain, an unsigned one to the checks |
| Executor.BroadcastWithRecovery | go-api/internal/worker/executor.go:523-555 | only look-ups and sends of the stored transaction; without an error the node has it; a send only after a confirmed absence |
| Executor.BroadcastAndSubmit | go-api/internal/worker/executor.go:274-303 | only FindOnChain, Send, RecordBroadcast and Submit of this row and transaction; without an error the node has the transaction and the payment is past PROCESSING |
| Executor.Prepare | go-api/internal/worker/executor.go:102-190 | the checks of both entry points: nothing but reads and giving the payment up; what passed had the clock read at or before the quote's expiry, a later reading ends in routing_quote_expired; what settled the payment, what is an error |
| Executor.SignAndBroadcastFresh | go-api/internal/worker/executor.go:418-467 | signs only this envelope, stores only what carries it, and whatever it sends it had stored first; without an error its last call is the submit and the payment is past PROCESSING |
| Executor.ExecuteTestnetPayment | go-api/internal/worker/executor.go:102-212 | whatever it sends it had stored first; without an error its last call settled the payment: failed, submitted, or the lost race found the row |
| Executor.DriveExecutionForward | go-api/internal/worker/executor.go:266-377 | a signed row is only looked up, sent, marked and submitted, and without an error the node has its transaction; an unsigned one passes every check again and stores before it sends; without an error its last call settled the payment or met a quote it must not sign against |
| Reconciler.LowestByWallet | go-api/internal/worker/reconciler.go:155-164 | for each wallet with a broadcast candidate, the one with the lowest nonce, the first among equals |
| Reconciler.MarkTerminal | go-api/internal/worker/reconciler.go:273-307 | records the outcome, then completes: true means the payment has that terminal status, false that it was not SUBMITTED |
| Reconciler.CheckAndUpdateOutcome | go-api/internal/worker/reconciler.go:173-239 | whenever an outcome was recorded the transaction is mined, the outcome is the one receipt and provider support, and the payment is terminal, with that outcome if this call completed it |
| Reconciler.RecoverStaleProcessingWithoutExecution | go-api/internal/worker/reconciler.go:96-109 | every payment found is executed to the end, and each one reported without an error is settled |
| Reconciler.DriveCandidate | go-api/internal/worker/reconciler.go:124-138 | drives the row read again, only if it is not broadcast; a signed one is only broadcast; no row means no call |
| Reconciler.DriveStaleNotYetBroadcast | go-api/internal/worker/reconciler.go:118-140 | every candidate is read again and driven by an actor of its own, and each one reported without an error is settled |
| Reconciler.CheckBroadcastOutcomes | go-api/internal/worker/reconciler.go:148-171 | in any order, exactly the lowest-nonce row of each wallet is checked, no other row causes a call, and a completion reported for one is justified |
| Workers.HandleRoutedPayment | go-api/internal/worker/processor.go:107-160 | a lost claim makes no call; a won claim is this delivery's, and without an error a simulated payment is past PROCESSING and a testnet one is settled |
| Workers.ClaimsAgree | go-api/internal/worker/processor.go:97-115 | whatever the workers did, the deliveries that won the claim on a payment are one |
| Workers.PollOnce | go-api/internal/worker/publisher.go:65-81 | true means it published one event and then marked its row, and the row's payment is in the log |
| Workers.CreateOrGetPayment | go-api/internal/postgres/store.go:181-296 | a sequence of protocol steps, and its answer is the one the run recorded |
| Workers.SweepOnce | go-api/internal/worker/recovery.go:59-90 | the payments it counts are distinct, and each has the outcome of executing its ID |
| Workers.WorldIsRun | go-api/internal/worker/processor.go:97-160 | whatever the bodies did, the system is in a state of some run, so the invariant and every run theorem hold of it |

## Left out

- Liveness: the code does not promise that every payment finishes. A crash between the two writes of markTerminal leaves a SUBMITTED
  payment no query selects again, and a slippage failure on an allocated nonce waits for an operator.
- World.World.Query: which rows count as stale is left open; the sweeps' staleness thresholds and the oldest-first choice of the outbox
  poll are over-approximated.
- Reconciler.CheckAndUpdateOutcome: the source's error for a provider without a status checker reads like "no outcome yet".
- The outbox payload's JSON, its trace carrier and the provider reference ID: they are carried along and never decided on.
- checkNonceDivergence and LowestUnconfirmedNonce: a read-only diagnostic.
- LookupByIdempotencyKey in the handler: the same look-up as the first step of CreateOrGetPayment, made once more before routing.
- HTTP and gRPC clients, JSON decoding, request validation before quoting, ABI packing, keys and signatures.
- The text formats of timestamps and UUIDs: parameters of `Pagination`, assumed to read back what they print.
- Rows whose status changes between two pages of a status-filtered list, and rows inserted below the cursor.
- Chain and asset enum conversions, generated protobuf code, dashboard aggregates, metrics, tracing, logging, the benchmark and the
  React frontend.
