/**
 * What holds over whole runs under full interleaving: any number of
 * actors on any row, crashes, redeliveries, ambiguous sends.
 */
module Theorems {
  import opened Common
  import opened Payments
  import opened Database
  import opened Protocol
  import opened Invariants
  import opened Safety
  import Money
  import SimulatedExecutor

  // ---- One transaction per payment ----

  /** `tx` was sent for `p` and mined. */
  ghost predicate MinedFor(s: State, p: PaymentId, tx: Tx) {
    Stamp(p, tx) in s.h.sends && Mined(s.chain, tx)
  }

  /** Workers able to sign for the same provider use the same wallet on the same origin chain. */
  ghost predicate OneWalletPerProvider(fleet: set<Config>) {
    forall c, d, pr :: c in fleet && d in fleet && CanSign(c, pr) && CanSign(d, pr) ==>
      c.wallet == d.wallet && c.originChainId == d.originChainId
  }

  /** Every signature of a payment goes to the slot of its one execution row. */
  lemma SignedInRowSlot(fleet: set<Config>, s: State, st: Stamp)
    requires Inv(fleet, s) && OneWalletPerProvider(fleet) && st in s.h.sends
    ensures st.p in s.db.byPayment && s.db.byPayment[st.p] in s.db.executions && s.db.byPayment[st.p] in s.h.allocator
    ensures var x := s.db.executions[s.db.byPayment[st.p]];
      && SlotOf(st.tx) == Slot(s.h.allocator[x.id].originChainId, x.wallet, x.nonce)
      && (x.wallet, x.nonce) in s.db.byNonce && s.db.byNonce[(x.wallet, x.nonce)] == x.id
      && x.id == s.db.byPayment[st.p] && x.payment == st.p
  {
    hide BaseUnits, SelectedQuote, ExceedsSlippageTolerance, CanSign, Intake, Logged, Answered, Statuses, Actors,
      Publishers;
    assert SigningOk(fleet, s, st, s.h.terms[st]);
    assert RowOk(fleet, s, s.db.byPayment[st.p]);
  }

  /** At most one transaction is ever mined for a payment, and none for two payments. */
  lemma OneMinedPerPayment(fleet: set<Config>, states: seq<State>, acts: seq<Action>, i: nat, p: PaymentId, tx: Tx,
                           p': PaymentId, tx': Tx)
    requires Run(fleet, states, acts) && i < |states| && OneWalletPerProvider(fleet)
    requires MinedFor(states[i], p, tx) && MinedFor(states[i], p', tx')
    ensures p == p' <==> tx == tx'
  {
    hide Inv, Run, OneWalletPerProvider;
    RunSafe(fleet, states, acts, i);
    SignedInRowSlot(fleet, states[i], Stamp(p, tx));
    SignedInRowSlot(fleet, states[i], Stamp(p', tx'));
  }

  // ---- What is sent ----

  /** The quote the payment was created with. */
  ghost predicate RoutedQuote(s: State, p: PaymentId, q: QuoteRow) {
    && p in s.h.createdAt && s.h.createdAt[p] < |s.h.responses|
    && var r := s.h.responses[s.h.createdAt[p]];
    r.answer == Created(p) && SelectedQuote(r.d.quotes) == Some(q)
  }

  /** What the creating call asked for. */
  ghost predicate RoutedRequest(s: State, p: PaymentId, req: Request) {
    && p in s.h.createdAt && s.h.createdAt[p] < |s.h.responses|
    && s.h.responses[s.h.createdAt[p]].answer == Created(p) && s.h.responses[s.h.createdAt[p]].d.req == req
  }

  lemma SentTerms(fleet: set<Config>, s: State, st: Stamp)
    requires Inv(fleet, s) && st in s.h.sends
    ensures st in s.h.terms && s.h.terms[st].cfg in fleet && st.p in s.db.payments && st.p in s.db.quotes
    ensures SelectedQuote(s.db.quotes[st.p]).Some?
    ensures BaseUnits(s.db.payments[st.p].req.amount) == Some(st.tx.value) && Acceptable(s.db.payments[st.p].req)
  {
    hide BaseUnits, SelectedQuote, ExceedsSlippageTolerance, Together, Logged, Answered, Statuses, Actors, Publishers,
      Rows, Acceptable;
    assert SigningOk(fleet, s, st, s.h.terms[st]);
    AcceptedRequest(s, st.p);
  }

  lemma AcceptedRequest(s: State, p: PaymentId)
    requires Intake(s) && p in s.db.payments
    ensures Acceptable(s.db.payments[p].req) && p in s.db.quotes && QuotesInsertable(s.db.quotes[p])
  {
    hide Acceptable, QuotesInsertable, KeysOk, OutboxOk;
  }

  lemma CreatedWith(fleet: set<Config>, s: State, p: PaymentId)
    requires Inv(fleet, s) && p in s.db.payments
    ensures p in s.db.quotes
    ensures SelectedQuote(s.db.quotes[p]).Some? ==> RoutedQuote(s, p, SelectedQuote(s.db.quotes[p]).value)
    ensures RoutedRequest(s, p, s.db.payments[p].req)
  {
    hide BaseUnits, SelectedQuote, Together, Logged, Statuses, Actors, Publishers, Rows, Signatures;
    assert CreationOk(s, p);
  }

  /**
   * What the table never holds: an amount that is not a positive number, equal chains, or two quotes of one provider.
   */
  lemma StoredIsAcceptable(fleet: set<Config>, states: seq<State>, acts: seq<Action>, i: nat, p: PaymentId)
    requires Run(fleet, states, acts) && i < |states| && p in states[i].db.payments
    ensures var req := states[i].db.payments[p].req;
      req.source != req.destination && Money.Numeral(req.amount) && Money.Numerator(req.amount) > 0
    ensures p in states[i].db.quotes
    ensures var rows := states[i].db.quotes[p];
      forall a, b :: 0 <= a < b < |rows| ==>
        rows[a].provider != rows[b].provider && !(rows[a].selected && rows[b].selected)
  {
    hide Run, BaseUnits, Money.Numeral, Money.Numerator, Money.Pow10, Money.FracPart, Together, Logged, Answered, Rows,
      Statuses, Signatures, Actors, Publishers;
    RunSafe(fleet, states, acts, i);
    AcceptedRequest(states[i], p);
    var amount := states[i].db.payments[p].req.amount;
    AmountInUnits(amount);
    PositiveProduct(Money.Numerator(amount), Money.Pow10(18 - |Money.FracPart(amount)|));
  }

  lemma PositiveProduct(x: int, y: int)
    requires y > 0
    ensures x * y > 0 ==> x > 0
  {
    if x <= 0 { assert x * y <= 0; }
  }

  // ---- Statuses ----

  /** A status only moves forward, a terminal one never moves, and the request never changes. */
  lemma StatusOnlyMovesForward(fleet: set<Config>, states: seq<State>, acts: seq<Action>, i: nat, j: nat, p: PaymentId)
    requires Run(fleet, states, acts) && i <= j < |states| && p in states[i].db.payments
    ensures p in states[j].db.payments
    ensures var x, y := states[i].db.payments[p], states[j].db.payments[p];
      && y.req == x.req && Order(x.status) <= Order(y.status)
      && (Terminal(x.status) || Order(x.status) == Order(y.status) ==> y == x)
  {
    hide Run, RowForward, HistoryEvolves;
    RunEvolves(fleet, states, acts, i, j);
    assert Forward(states[i].db.payments[p], states[j].db.payments[p]);
  }

  /** SUBMITTED implies broadcast, which implies signed bytes in the row and a transaction the chain has seen. */
  lemma SubmittedMeansBroadcast(fleet: set<Config>, states: seq<State>, acts: seq<Action>, i: nat, p: PaymentId)
    requires Run(fleet, states, acts) && i < |states| && HasStatus(states[i].db, p, Submitted)
    ensures var s := states[i];
      && s.db.payments[p].req.mode == Testnet
      && p in s.db.byPayment && s.db.byPayment[p] in s.db.executions
      && var x := s.db.executions[s.db.byPayment[p]];
      && x.payment == p && x.broadcast && x.signed.Some?
      && p in s.h.announced && s.h.announced[p] in s.chain.known && s.h.announced[p] in s.h.sentFor
  {
    hide Run, Inv, Outcome;
    RunSafe(fleet, states, acts, i);
    StatusFacts(fleet, states[i], p);
    RowOfPayment(fleet, states[i], p);
    AnnouncedFacts(fleet, states[i], p);
  }

  lemma StatusFacts(fleet: set<Config>, s: State, p: PaymentId)
    requires Inv(fleet, s) && p in s.db.payments
    ensures StatusOk(s, p)
  {
    hide StatusOk, Intake, Logged, Answered, Rows, Signatures, Actors, Publishers;
  }

  lemma AnnouncedFacts(fleet: set<Config>, s: State, p: PaymentId)
    requires Inv(fleet, s) && p in s.h.announced
    ensures s.h.announced[p] in s.chain.known && s.h.announced[p] in s.h.sentFor
  {
    hide StatusOk, Intake, Logged, Answered, Rows, Actors, Publishers, SigningOk;
  }

  lemma RowOfPayment(fleet: set<Config>, s: State, p: PaymentId)
    requires Inv(fleet, s) && p in s.db.byPayment
    ensures s.db.byPayment[p] in s.db.executions && Claimed(s, p)
    ensures var x := s.db.executions[s.db.byPayment[p]];
      x.payment == p && (x.broadcast ==> x.signed.Some? && p in s.h.announced)
  {
    hide BaseUnits, SelectedQuote, CanSign, Intake, Logged, Answered, Statuses, Signatures, Actors, Publishers;
    assert RowOk(fleet, s, s.db.byPayment[p]);
  }

  /** Every action is one justified change; the rest only moves actors and the clock. */
  lemma ActionChange(fleet: set<Config>, s: State, act: Action) returns (c: Change)
    requires Inv(fleet, s) && Enabled(fleet, s, act)
    ensures Justified(fleet, s, c)
    ensures Apply(s, act) == Commit(s, c).(actors := Apply(s, act).actors, clock := Apply(s, act).clock)
    ensures act.Step? ==> act.a in s.actors && c == Effect(s, s.actors[act.a].cfg, s.actors[act.a].pc, act.o).change
    ensures act.Begin? ==> CanBegin(s, act.start) && c == Beginning(s, act.start).change
    ensures !act.Step? && !act.Begin? ==> c == Nothing || c.MineTx? || c.Seed?
  {
    hide Commit, Effect, Beginning, CanBegin, OracleOk, Intake, Logged, Answered, Rows, Statuses, Signatures,
      Publishers, ActorOk;
    match act {
      case Begin(a, cfg, start) =>
        BeginIsGood(fleet, s, cfg, start);
        c := Beginning(s, start).change;
        ActorsOf(s, c);
      case Step(a, o) =>
        var cfg, pc := s.actors[a].cfg, s.actors[a].pc;
        StepIsGood(fleet, s, cfg, pc, o);
        c := Effect(s, cfg, pc, o).change;
        ActorsOf(s, c);
      case Crash(_) => c := Nothing; CommitNothing(s);
      case SetClock(_) => c := Nothing; CommitNothing(s);
      case Mine(tx, ok) => c := MineTx(tx, ok);
      case SeedNonce(w, n) => c := Seed(w, n);
    }
  }

  lemma CommitNothing(s: State)
    ensures Commit(s, Nothing) == s
  {
  }

  /** A payment's row changes in one way per step. */
  lemma StatusChange(fleet: set<Config>, s: State, c: Change, p: PaymentId)
    requires Justified(fleet, s, c) && p in s.db.payments && p in Commit(s, c).db.payments
    requires Commit(s, c).db.payments[p] != s.db.payments[p]
    ensures c.MovePayment? ==>
      && c.p == p && HasStatus(s.db, p, c.from) && MoveOk(s, p, c.from, c.to)
      && Commit(s, c).db.payments[p] == s.db.payments[p].(status := c.to)
    ensures c.FailWith? ==>
      && c.p == p && HasStatus(s.db, p, Processing) && Claimed(s, p)
      && Commit(s, c).db.payments[p] == s.db.payments[p].(status := Failed, failureReason := Some(c.reason))
    ensures c.MovePayment? || c.FailWith?
  {
    hide BaseUnits, SelectedQuote, MoveOk, SigningOk, ResponseOk, Insertable;
  }

  /**
   * A testnet payment becomes COMPLETED only from SUBMITTED, after its
   * transaction was mined successfully and its fill recorded.
   */
  lemma CompletedOnlyAfterFill(fleet: set<Config>, states: seq<State>, acts: seq<Action>, i: nat, p: PaymentId)
    requires Run(fleet, states, acts) && i < |acts|
    requires p in states[i].db.payments && states[i].db.payments[p].req.mode == Testnet
    requires states[i].db.payments[p].status != Completed
    requires HasStatus(states[i + 1].db, p, Completed)
    ensures var s := states[i];
      && s.db.payments[p].status == Submitted
      && p in s.h.filledBy && Stamp(p, s.h.filledBy[p]) in s.h.terms
      && SlotOf(s.h.filledBy[p]) in s.chain.mined
      && s.chain.mined[SlotOf(s.h.filledBy[p])] == Receipt(s.h.filledBy[p], true)
      && p in s.db.byPayment && s.db.byPayment[p] in s.db.executions && s.db.executions[s.db.byPayment[p]].confirmed
  {
    hide Run, Inv, Justified, Commit, Apply, Enabled, Next, Outcome;
    RunNext(fleet, states, acts, i);
    RunSafe(fleet, states, acts, i);
    var c := ActionChange(fleet, states[i], acts[i]);
    StatusChange(fleet, states[i], c, p);
    if p in states[i].h.filledBy { FilledFacts(fleet, states[i], p); }
  }

  lemma RunNext(fleet: set<Config>, states: seq<State>, acts: seq<Action>, i: nat)
    requires Run(fleet, states, acts) && i < |acts|
    ensures |states| == |acts| + 1 && Enabled(fleet, states[i], acts[i]) && states[i + 1] == Apply(states[i], acts[i])
  {
    hide Enabled, Apply;
    assert Next(fleet, states[i], acts[i], states[i + 1]);
  }

  lemma FilledFacts(fleet: set<Config>, s: State, p: PaymentId)
    requires Inv(fleet, s) && p in s.h.filledBy
    ensures Stamp(p, s.h.filledBy[p]) in s.h.terms && MinedOk(s.chain, s.h.filledBy[p])
  {
    hide StatusOk, Intake, Logged, Answered, Rows, Actors, Publishers, Signatures, MinedOk;
  }

  // ---- Nonces ----

  /** Some execution of wallet `w` holds nonce `n`. */
  ghost predicate NonceUsed(db: Db, w: Wallet, n: int) {
    exists id :: id in db.executions && db.executions[id].wallet == w && db.executions[id].nonce == n
  }

  /** A wallet's executions hold exactly the nonces from its seed up to its counter. */
  lemma NoncesFillInterval(fleet: set<Config>, states: seq<State>, acts: seq<Action>, i: nat, w: Wallet, n: int)
    requires Run(fleet, states, acts) && i < |states| && w in states[i].db.wallets
    ensures w in states[i].h.seeds
    ensures NonceUsed(states[i].db, w, n) <==> states[i].h.seeds[w] <= n < states[i].db.wallets[w]
  {
    hide Run, BaseUnits, SelectedQuote, CanSign, Claimed, Intake, Logged, Answered, Statuses, Signatures, Actors,
      Publishers, RowOk;
    RunSafe(fleet, states, acts, i);
    var s := states[i];
    if s.h.seeds[w] <= n < s.db.wallets[w] {
      assert (w, n) in s.db.byNonce;
    }
    if NonceUsed(s.db, w, n) {
      var id :| id in s.db.executions && s.db.executions[id].wallet == w && s.db.executions[id].nonce == n;
      RowKeys(fleet, s, id);
    }
  }

  lemma RowKeys(fleet: set<Config>, s: State, id: ExecId)
    requires Inv(fleet, s) && id in s.db.executions
    ensures var x := s.db.executions[id];
      && x.payment in s.db.byPayment && s.db.byPayment[x.payment] == id
      && (x.wallet, x.nonce) in s.db.byNonce && s.db.byNonce[(x.wallet, x.nonce)] == id
      && x.wallet in s.db.wallets && x.wallet in s.h.seeds && s.h.seeds[x.wallet] <= x.nonce < s.db.wallets[x.wallet]
  {
    hide BaseUnits, SelectedQuote, CanSign, Intake, Logged, Answered, Statuses, Signatures, Actors, Publishers;
    assert RowOk(fleet, s, id);
  }

  /** Two executions never share a payment, nor a nonce of the same wallet. */
  lemma ExecutionsAreUnique(fleet: set<Config>, states: seq<State>, acts: seq<Action>, i: nat, id: ExecId, id': ExecId)
    requires Run(fleet, states, acts) && i < |states| && id in states[i].db.executions && id' in states[i].db.executions
    ensures var x, y := states[i].db.executions[id], states[i].db.executions[id'];
      x.payment == y.payment || (x.wallet == y.wallet && x.nonce == y.nonce) ==> id == id'
  {
    hide Inv, Run;
    RunSafe(fleet, states, acts, i);
    RowKeys(fleet, states[i], id);
    RowKeys(fleet, states[i], id');
  }

  /**
   * The allocation transaction takes the next nonce with its row, or leaves
   * every table as it was; the nonce is never taken twice.
   */
  lemma AllocationIsExact(fleet: set<Config>, s: State, a: ActorId, o: Oracle)
    requires Inv(fleet, s) && Enabled(fleet, s, Step(a, o)) && s.actors[a].pc.CreateExecution?
    ensures AllocatesOrNothing(s.db, Apply(s, Step(a, o)).db, s.actors[a].pc.p, s.actors[a].cfg.wallet, o.exec)
  {
    hide Inv, Apply, AllocatesOrNothing;
    var w := s.actors[a].cfg.wallet;
    CreatesForPayment(fleet, s, a);
    if w in s.db.wallets { FreeNonce(fleet, s, w); }
    AllocationStep(s, a, o);
  }

  lemma CreatesForPayment(fleet: set<Config>, s: State, a: ActorId)
    requires Inv(fleet, s) && a in s.actors && s.actors[a].pc.CreateExecution?
    ensures s.actors[a].pc.p in s.db.payments
  {
    hide BaseUnits, SelectedQuote, Intake, Logged, Answered, Rows, Statuses, Signatures, Publishers;
  }

  lemma FreeNonce(fleet: set<Config>, s: State, w: Wallet)
    requires Inv(fleet, s) && w in s.db.wallets
    ensures (w, s.db.wallets[w]) !in s.db.byNonce
  {
    hide Intake, Logged, Answered, Rows, Statuses, Signatures, Actors, Publishers;
    NonceIsFree(fleet, s, w);
  }

  ghost predicate AllocatesOrNothing(db: Db, db': Db, p: PaymentId, w: Wallet, id: ExecId) {
    if w !in db.wallets || p in db.byPayment then db' == db
    else
      && db'.wallets == db.wallets[w := db.wallets[w] + 1]
      && db'.byPayment == db.byPayment[p := id] && id in db'.executions
      && db'.executions == db.executions[id := db'.executions[id]]
      && db'.executions[id].payment == p && db'.executions[id].wallet == w
      && db'.executions[id].nonce == db.wallets[w] && db'.executions[id].signed.None?
  }

  lemma AllocationStep(s: State, a: ActorId, o: Oracle)
    requires a in s.actors && s.actors[a].pc.CreateExecution?
    requires var w := s.actors[a].cfg.wallet;
      s.actors[a].pc.p in s.db.payments && (w in s.db.wallets ==> (w, s.db.wallets[w]) !in s.db.byNonce)
    ensures AllocatesOrNothing(s.db, Apply(s, Step(a, o)).db, s.actors[a].pc.p, s.actors[a].cfg.wallet, o.exec)
  {
    hide BaseUnits;
  }

  /** A wallet's seed is the value of its first seeding, forever, and its counter never goes back. */
  lemma CounterNeverGoesBack(fleet: set<Config>, states: seq<State>, acts: seq<Action>, i: nat, j: nat, w: Wallet)
    requires Run(fleet, states, acts) && i <= j < |states| && w in states[i].db.wallets
    ensures w in states[j].db.wallets && states[i].db.wallets[w] <= states[j].db.wallets[w]
    ensures w in states[i].h.seeds && w in states[j].h.seeds && states[j].h.seeds[w] == states[i].h.seeds[w]
  {
    hide Run, RowForward, Forward, RowOk, Intake, Logged, Answered, Statuses, Signatures, Actors, Publishers;
    RunEvolves(fleet, states, acts, i, j);
    RunSafe(fleet, states, acts, i);
  }

  // ---- Simulated payments ----

  /** Whatever raced, a simulated payment that is terminal has the outcome of executing its ID. */
  lemma SimulatedOutcome(fleet: set<Config>, states: seq<State>, acts: seq<Action>, i: nat, p: PaymentId)
    requires Run(fleet, states, acts) && i < |states|
    requires p in states[i].db.payments && states[i].db.payments[p].req.mode == Simulated
    requires Terminal(states[i].db.payments[p].status)
    ensures states[i].db.payments[p].status == Outcome(p) && states[i].db.payments[p].failureReason.None?
    ensures states[i].db.payments[p].status == Failed <==> SimulatedExecutor.FailsByLastDigit(p)
    ensures p !in states[i].db.byPayment
  {
    hide Run, Outcome, Inv, SimulatedExecutor.FailsByLastDigit;
    RunSafe(fleet, states, acts, i);
    StatusFacts(fleet, states[i], p);
    if p in states[i].db.byPayment { RowOfPayment(fleet, states[i], p); }
  }

  /** The step at `i` gives `p` a terminal status. */
  ghost predicate Finishes(states: seq<State>, i: nat, p: PaymentId) {
    && i + 1 < |states| && p in states[i].db.payments && p in states[i + 1].db.payments
    && !Terminal(states[i].db.payments[p].status) && Terminal(states[i + 1].db.payments[p].status)
  }

  /** A terminal status is written at most once, in either mode. */
  lemma FinishedOnce(fleet: set<Config>, states: seq<State>, acts: seq<Action>, i: nat, j: nat, p: PaymentId)
    requires Run(fleet, states, acts) && Finishes(states, i, p) && Finishes(states, j, p)
    ensures i == j
  {
    if i < j { StatusOnlyMovesForward(fleet, states, acts, i + 1, j, p); }
    if j < i { StatusOnlyMovesForward(fleet, states, acts, j + 1, i, p); }
  }

  /** Neither the recovery sweep nor the simulated processor ever touches a testnet payment. */
  lemma RecoveryLeavesTestnetAlone(fleet: set<Config>, states: seq<State>, acts: seq<Action>, i: nat, p: PaymentId)
    requires Run(fleet, states, acts) && i < |acts| && p in states[i].db.payments
    requires states[i].db.payments[p].req.mode == Testnet
    requires (acts[i].Begin? && acts[i].start.RecoverStale?)
      || (acts[i].Step? && acts[i].a in states[i].actors && states[i].actors[acts[i].a].pc.CompleteSimulated?)
    ensures p in states[i + 1].db.payments && states[i + 1].db.payments[p] == states[i].db.payments[p]
  {
    hide Run, Inv, Outcome, Apply, Enabled;
    RunNext(fleet, states, acts, i);
    RunSafe(fleet, states, acts, i);
    if acts[i].Step? {
      CompletionIsSimulated(fleet, states[i], acts[i].a, acts[i].o, p);
    } else {
      SweepStarts(states[i], acts[i]);
    }
  }

  lemma SweepStarts(s: State, act: Action)
    requires act.Begin? && act.start.RecoverStale?
    ensures Apply(s, act).db == s.db
  {
  }

  lemma CompletionIsSimulated(fleet: set<Config>, s: State, a: ActorId, o: Oracle, p: PaymentId)
    requires Inv(fleet, s) && a in s.actors && s.actors[a].pc.CompleteSimulated?
    requires p in s.db.payments && s.db.payments[p].req.mode == Testnet
    ensures var s' := Apply(s, Step(a, o)); p in s'.db.payments && s'.db.payments[p] == s.db.payments[p]
  {
    hide Inv, Apply;
    SimulatedActor(fleet, s, a);
    CompletionStep(s, a, o);
  }

  lemma SimulatedActor(fleet: set<Config>, s: State, a: ActorId)
    requires Inv(fleet, s) && a in s.actors && s.actors[a].pc.CompleteSimulated?
    ensures s.actors[a].pc.p in s.db.payments && s.db.payments[s.actors[a].pc.p].req.mode == Simulated
  {
    hide BaseUnits, SelectedQuote, Intake, Logged, Answered, Rows, Statuses, Signatures, Publishers;
  }

  lemma CompletionStep(s: State, a: ActorId, o: Oracle)
    requires a in s.actors && s.actors[a].pc.CompleteSimulated?
    ensures var p := s.actors[a].pc.p; Apply(s, Step(a, o)).db == MoveStatus(s.db, p, Processing, Outcome(p))
  {
    hide Outcome, MoveStatus, Effect, Commit;
    var actor := s.actors[a];
    CompletionTurn(s, actor.cfg, actor.pc.p, o);
  }

  lemma CompletionTurn(s: State, cfg: Config, p: PaymentId, o: Oracle)
    ensures Effect(s, cfg, CompleteSimulated(p), o) == Turn(MovePayment(p, Processing, Outcome(p)), None)
    ensures Commit(s, MovePayment(p, Processing, Outcome(p))).db == MoveStatus(s.db, p, Processing, Outcome(p))
  {
    hide Outcome, MoveStatus;
  }

  // ---- The outbox ----

  /** Each payment has exactly one outbox row; published rows are in the log; the log names only committed payments. */
  lemma OutboxEndToEnd(fleet: set<Config>, states: seq<State>, acts: seq<Action>, i: nat)
    requires Run(fleet, states, acts) && i < |states|
    ensures var s := states[i];
      && (forall p <- s.db.payments :: exists e :: e in s.db.outbox && s.db.outbox[e].payment == p)
      && (forall e, e' :: e in s.db.outbox && e' in s.db.outbox && s.db.outbox[e].payment == s.db.outbox[e'].payment ==>
          e == e')
      && (forall e <- s.db.outbox :: s.db.outbox[e].payment in s.db.payments)
      && (forall e <- s.db.outbox :: s.db.outbox[e].published ==> s.db.outbox[e].payment in s.log)
      && (forall p <- s.log :: p in s.db.payments)
      && (forall a, b, e :: a in s.actors && b in s.actors && Holds(s.actors[a].pc, e) && Holds(s.actors[b].pc, e) ==>
          a == b)
  {
    hide Run, BaseUnits, Answered, Rows, Statuses, Signatures, Actors;
    RunSafe(fleet, states, acts, i);
    var s := states[i];
    forall p | p in s.db.payments
      ensures exists e :: e in s.db.outbox && s.db.outbox[e].payment == p
    {
      assert s.h.eventOf[p] in s.db.outbox;
    }
  }

  /** The delivery at step `i` wins the claim on `p`. */
  ghost predicate WinsClaim(states: seq<State>, acts: seq<Action>, i: nat, p: PaymentId) {
    i < |acts| && i < |states| && acts[i].Begin? && acts[i].start == Deliver(p) && HasStatus(states[i].db, p, Routed)
  }

  /** Across all duplicates, at most one delivery wins the claim. */
  lemma ClaimedOnce(fleet: set<Config>, states: seq<State>, acts: seq<Action>, i: nat, j: nat, p: PaymentId)
    requires Run(fleet, states, acts) && WinsClaim(states, acts, i, p) && WinsClaim(states, acts, j, p)
    ensures i == j
  {
    if i < j { ClaimMoves(fleet, states, acts, i, p); StatusOnlyMovesForward(fleet, states, acts, i + 1, j, p); }
    if j < i { ClaimMoves(fleet, states, acts, j, p); StatusOnlyMovesForward(fleet, states, acts, j + 1, i, p); }
  }

  lemma ClaimMoves(fleet: set<Config>, states: seq<State>, acts: seq<Action>, i: nat, p: PaymentId)
    requires Run(fleet, states, acts) && WinsClaim(states, acts, i, p)
    ensures HasStatus(states[i + 1].db, p, Processing)
  {
    assert Next(fleet, states[i], acts[i], states[i + 1]);
  }

  // ---- First writer wins ----

  /**
   * What a sequential store would answer, given the answers it gave
   * before: the first call on a key creates, the rest compare.
   */
  ghost predicate Sequential(prior: seq<Response>, r: Response) {
    && (r.answer.Created? <==> forall b :: 0 <= b < |prior| ==>
        !(prior[b].answer.Created? && prior[b].d.req.key == r.d.req.key))
    && (forall b :: 0 <= b < |prior| && prior[b].answer.Created? && prior[b].d.req.key == r.d.req.key ==>
      && (r.answer == Replayed(prior[b].answer.id) <==> SameRequest(prior[b].d.req, r.d.req))
      && (r.answer == Conflict <==> !SameRequest(prior[b].d.req, r.d.req)))
  }

  /**
   * Equal chains, asset and mode, and two numerals of the same value: equal once each is scaled by the other's digits.
   */
  ghost predicate SameRequest(x: Request, y: Request) {
    && x.source == y.source && x.destination == y.destination && x.asset == y.asset && x.mode == y.mode
    && Money.Numeral(x.amount) && Money.Numeral(y.amount)
    && Money.Numerator(x.amount) * Money.Pow10(|Money.FracPart(y.amount)|) ==
       Money.Numerator(y.amount) * Money.Pow10(|Money.FracPart(x.amount)|)
  }

  lemma MatchesExactly(x: Request, y: Request)
    ensures Matches(x, y) <==> SameRequest(x, y)
  {
    hide Money.Numerator, Money.Pow10, Money.Numeral, Money.FracPart;
  }

  /** Concurrent create calls answer as if they ran one by one. */
  lemma FirstWriterWins(fleet: set<Config>, states: seq<State>, acts: seq<Action>, i: nat, n: nat)
    requires Run(fleet, states, acts) && i < |states| && n < |states[i].h.responses|
    ensures Sequential(states[i].h.responses[..n], states[i].h.responses[n])
  {
    hide Run, Inv, Matches, SameRequest;
    RunSafe(fleet, states, acts, i);
    var s := states[i];
    var r := s.h.responses[n];
    if !r.answer.Created? {
      var b := AnsweredAfter(fleet, s, n);
      assert s.h.responses[..n][b] == s.h.responses[b];
    }
    forall b | 0 <= b < n && s.h.responses[b].answer.Created? && s.h.responses[b].d.req.key == r.d.req.key
      ensures r.answer == if SameRequest(s.h.responses[b].d.req, r.d.req)
        then Replayed(s.h.responses[b].answer.id) else Conflict
    {
      MatchesExactly(s.h.responses[b].d.req, r.d.req);
      AnswerAfter(fleet, s, b, n);
    }
  }

  lemma AnsweredAfter(fleet: set<Config>, s: State, n: nat) returns (b: nat)
    requires Inv(fleet, s) && n < |s.h.responses| && !s.h.responses[n].answer.Created?
    ensures b < n && s.h.responses[b].answer.Created? && s.h.responses[b].d.req.key == s.h.responses[n].d.req.key
  {
    hide BaseUnits, Matches, Logged, Rows, Statuses, Signatures, Actors, Publishers;
    assert ResponseOk(s, s.h.responses[n], n);
    var id := s.db.byKey[s.h.responses[n].d.req.key];
    assert CreationOk(s, id);
    b := s.h.createdAt[id];
  }

  lemma AnswerAfter(fleet: set<Config>, s: State, b: nat, n: nat)
    requires Inv(fleet, s) && b < n < |s.h.responses| && s.h.responses[b].answer.Created?
    requires s.h.responses[b].d.req.key == s.h.responses[n].d.req.key
    ensures var x, r := s.h.responses[b], s.h.responses[n];
      r.answer == if Matches(x.d.req, r.d.req) then Replayed(x.answer.id) else Conflict
  {
    hide BaseUnits, Matches, Logged, Rows, Statuses, Signatures, Actors, Publishers;
    var x, r := s.h.responses[b], s.h.responses[n];
    assert ResponseOk(s, x, b) && ResponseOk(s, r, n);
    assert CreationOk(s, x.answer.id);
  }

  /**
   * A payment, its hops, its quotes and its outbox row exist all
   * together or not at all, as the creating call drafted them.
   */
  lemma CreatedTogether(fleet: set<Config>, states: seq<State>, acts: seq<Action>, i: nat, p: PaymentId)
    requires Run(fleet, states, acts) && i < |states|
    ensures var s := states[i];
      && (p in s.db.payments <==> p in s.db.hops) && (p in s.db.payments <==> p in s.db.quotes)
      && (p in s.db.payments <==> exists e :: e in s.db.outbox && s.db.outbox[e].payment == p)
      && (p in s.db.payments <==> exists n :: 0 <= n < |s.h.responses| && s.h.responses[n].answer == Created(p))
      && (forall n :: 0 <= n < |s.h.responses| && s.h.responses[n].answer == Created(p) ==>
        s.h.responses[n].d == Draft(s.db.payments[p].req, s.db.hops[p], s.db.quotes[p]))
  {
    hide Run, BaseUnits, Matches, Logged, Rows, Statuses, Signatures, Actors, Publishers;
    RunSafe(fleet, states, acts, i);
    var s := states[i];
    if p in s.db.payments {
      assert CreationOk(s, p);
      assert s.h.eventOf[p] in s.db.outbox;
    }
    forall n | 0 <= n < |s.h.responses| && s.h.responses[n].answer == Created(p)
      ensures p in s.db.payments && s.h.createdAt[p] == n
    {
      assert ResponseOk(s, s.h.responses[n], n);
    }
  }
}
