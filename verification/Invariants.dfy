/** What every step of the protocol keeps, under full interleaving. */
module Invariants {
  import opened Common
  import opened Payments
  import opened Database
  import opened Protocol
  import Money

  ghost predicate Extends<K, V>(m: map<K, V>, m': map<K, V>) {
    forall k <- m :: k in m' && m'[k] == m[k]
  }

  /** A payment keeps its request, only moves forward, and stays put once terminal. */
  ghost predicate Forward(x: Payment, y: Payment) {
    y == x || (y.req == x.req && !Terminal(x.status) && Order(x.status) < Order(y.status))
  }

  /** A row keeps its identity and never loses its signature, its broadcast mark or its confirmation. */
  ghost predicate RowForward(x: Execution, y: Execution) {
    && y.id == x.id && y.payment == x.payment && y.provider == x.provider && y.wallet == x.wallet && y.nonce == x.nonce
    && (x.signed.Some? ==> y.signed.Some?) && (x.broadcast ==> y.broadcast) && (x.confirmed ==> y.confirmed)
  }

  ghost predicate DbEvolves(a: Db, b: Db) {
    && (forall p <- a.payments :: p in b.payments && Forward(a.payments[p], b.payments[p]))
    && Extends(a.byKey, b.byKey) && Extends(a.hops, b.hops) && Extends(a.quotes, b.quotes)
    && (forall e <- a.outbox ::
        && e in b.outbox && b.outbox[e].payment == a.outbox[e].payment
        && (a.outbox[e].published ==> b.outbox[e].published))
    && (forall id <- a.executions :: id in b.executions && RowForward(a.executions[id], b.executions[id]))
    && Extends(a.byPayment, b.byPayment) && Extends(a.byNonce, b.byNonce)
    && (forall w <- a.wallets :: w in b.wallets && a.wallets[w] <= b.wallets[w])
  }

  ghost predicate HistoryEvolves(a: History, b: History) {
    && a.responses <= b.responses && Extends(a.createdAt, b.createdAt) && Extends(a.eventOf, b.eventOf)
    && Extends(a.seeds, b.seeds) && Extends(a.allocator, b.allocator)
    && a.terms.Keys <= b.terms.Keys && a.sends <= b.sends && a.sentFor.Keys <= b.sentFor.Keys
    && a.announced.Keys <= b.announced.Keys && a.filledBy.Keys <= b.filledBy.Keys
  }

  /** What no step undoes. */
  ghost predicate Evolves(s: State, s': State) {
    && DbEvolves(s.db, s'.db)
    && s.log <= s'.log
    && s.chain.known <= s'.chain.known && Extends(s.chain.mined, s'.chain.mined)
    && HistoryEvolves(s.h, s'.h)
  }

  /** A configuration that can carry a payment quoted by `pr` all the way to a signature. */
  predicate CanSign(cfg: Config, pr: Provider) {
    && pr in cfg.providers && pr in cfg.signers && pr in cfg.contracts
    && (cfg.maxAmount.Some? ==> cfg.maxAmount.value >= 1)
  }

  ghost predicate Claimed(s: State, p: PaymentId) {
    p in s.db.payments && s.db.payments[p].req.mode == Testnet && s.db.payments[p].status != Routed
  }

  ghost predicate QuoteIs(s: State, p: PaymentId, q: QuoteRow) {
    p in s.db.quotes && SelectedQuote(s.db.quotes[p]) == Some(q)
  }

  /** The row an actor read is still there, and has only moved forward since. */
  ghost predicate RowRead(s: State, x: Execution) {
    x.id in s.db.executions && RowForward(x, s.db.executions[x.id])
  }

  ghost predicate RowRead?(s: State, p: PaymentId, row: Option<Execution>) {
    row.Some? ==> RowRead(s, row.value) && row.value.payment == p && row.value.signed.None?
  }

  /**
   * The pinned contract, the origin chain, the payment's exact amount under the ceiling, and a fee within tolerance.
   */
  ghost predicate TermsOk(s: State, p: PaymentId, cfg: Config, chainId: int, to: Address, value: int, fee: int) {
    && Claimed(s, p)
    && p in s.db.quotes && SelectedQuote(s.db.quotes[p]).Some?
    && var q := SelectedQuote(s.db.quotes[p]).value;
    && chainId == cfg.originChainId
    && CanSign(cfg, q.provider) && to == cfg.contracts[q.provider]
    && BaseUnits(s.db.payments[p].req.amount) == Some(value) && Within(cfg.maxAmount, value)
    && !ExceedsSlippageTolerance(q.fee, fee, cfg.slippageBps)
  }

  ghost predicate EnvelopeOk(s: State, p: PaymentId, cfg: Config, env: TxEnvelope, fee: int) {
    TermsOk(s, p, cfg, env.chainId, env.to, env.value, fee)
  }

  /** A signature: its terms held, and it carries its execution row's nonce. */
  ghost predicate SigningOk(fleet: set<Config>, s: State, st: Stamp, t: Terms) {
    && t.cfg in fleet
    && TermsOk(s, st.p, t.cfg, st.tx.chainId, st.tx.to, st.tx.value, t.fee)
    && st.tx.sender == t.cfg.wallet
    && st.p in s.db.byPayment && s.db.byPayment[st.p] in s.db.executions
    && st.tx.nonce == s.db.executions[s.db.byPayment[st.p]].nonce
  }

  /** What an actor knows at each of its calls. */
  ghost predicate ActorOk(s: State, cfg: Config, pc: Pc) {
    match pc
    case Lookup(d) => true
    case Insert(d) => true
    case Reread(d) => KeyTaken(s.db, d)
    case PublishEvent(e) => e in s.db.outbox
    case MarkEvent(e) => e in s.db.outbox && s.db.outbox[e].payment in s.log
    case CompleteSimulated(p) =>
      p in s.db.payments && s.db.payments[p].req.mode == Simulated && s.db.payments[p].status != Routed
    case ReadQuote(p, row) => Claimed(s, p) && RowRead?(s, p, row)
    case CheckExpiry(p, row, q) => Claimed(s, p) && RowRead?(s, p, row) && QuoteIs(s, p, q)
    case ReadPayment(p, row, q) =>
      Claimed(s, p) && RowRead?(s, p, row) && QuoteIs(s, p, q) && q.provider in cfg.providers
    case FetchQuote(p, row, q, amount) =>
      Claimed(s, p) && RowRead?(s, p, row) && QuoteIs(s, p, q) && q.provider in cfg.providers
      && BaseUnits(s.db.payments[p].req.amount) == Some(amount)
    case FailPayment(p, reason) => Claimed(s, p)
    case CreateExecution(p, q, env, fee) => QuoteIs(s, p, q) && EnvelopeOk(s, p, cfg, env, fee)
    case Sign(x, env, fee) => RowRead(s, x) && EnvelopeOk(s, x.payment, cfg, env, fee)
    case Persist(x, tx) => RowRead(s, x) && Stamp(x.payment, tx) in s.h.terms
    case FindOnChain(x, tx) => RowRead(s, x) && Stamp(x.payment, tx) in s.h.terms && s.db.executions[x.id].signed.Some?
    case Send(x, tx) => RowRead(s, x) && Stamp(x.payment, tx) in s.h.terms && s.db.executions[x.id].signed.Some?
    case RecordBroadcast(x, tx) =>
      RowRead(s, x) && Stamp(x.payment, tx) in s.h.terms && s.db.executions[x.id].signed.Some? && tx in s.chain.known
    case Submit(x) => RowRead(s, x) && s.db.executions[x.id].broadcast
    case Repair(x, tx) => CheckOk(s, x, tx)
    case ReadReceipt(x, tx) => CheckOk(s, x, tx)
    case AskProvider(x, tx) => CheckOk(s, x, tx) && MinedOk(s.chain, tx)
    case RecordOutcome(x, tx, e, terminal) =>
      && CheckOk(s, x, tx) && Terminal(terminal) && (terminal == Completed ==> e == Filled)
      && (e == Filled ==> MinedOk(s.chain, tx))
    case Complete(x, terminal) =>
      && RowRead(s, x) && Terminal(terminal) && s.db.executions[x.id].confirmed
      && (terminal == Completed ==> x.payment in s.h.filledBy)
  }

  ghost predicate CheckOk(s: State, x: Execution, tx: Tx) {
    RowRead(s, x) && s.db.executions[x.id].broadcast && Stamp(x.payment, tx) in s.h.terms
  }

  /** Payments, their idempotency keys, their hops, quotes and outbox rows appear together, one of each. */
  ghost predicate Together(payments: map<PaymentId, Payment>, byKey: map<Key, PaymentId>,
                           hops: map<PaymentId, seq<Hop>>,
                           quotes: map<PaymentId, seq<QuoteRow>>, outbox: map<EventId, OutboxRow>,
                           eventOf: map<PaymentId, EventId>, createdAt: map<PaymentId, nat>) {
    && KeysOk(payments, byKey)
    && hops.Keys == payments.Keys && quotes.Keys == payments.Keys && eventOf.Keys == payments.Keys
    && createdAt.Keys == payments.Keys
    && OutboxOk(payments, outbox, eventOf)
    && (forall p <- payments :: Acceptable(payments[p].req) && QuotesInsertable(quotes[p]))
  }

  /** Keys and payments match one to one. */
  ghost predicate KeysOk(payments: map<PaymentId, Payment>, byKey: map<Key, PaymentId>) {
    && (forall k <- byKey :: byKey[k] in payments && payments[byKey[k]].req.key == k)
    && (forall p <- payments :: payments[p].req.key in byKey && byKey[payments[p].req.key] == p)
  }

  /** Outbox rows and payments match one to one. */
  ghost predicate OutboxOk(payments: map<PaymentId, Payment>, outbox: map<EventId, OutboxRow>,
                           eventOf: map<PaymentId, EventId>) {
    && (forall e <- outbox ::
        outbox[e].payment in payments && outbox[e].payment in eventOf && eventOf[outbox[e].payment] == e)
    && (forall p <- payments :: p in eventOf && eventOf[p] in outbox && outbox[eventOf[p]].payment == p)
  }

  ghost predicate Intake(s: State) {
    Together(s.db.payments, s.db.byKey, s.db.hops, s.db.quotes, s.db.outbox, s.h.eventOf, s.h.createdAt)
  }

  /** Published rows are in the Kafka log, and the log only names committed payments. */
  ghost predicate LogOk(payments: map<PaymentId, Payment>, outbox: map<EventId, OutboxRow>, log: seq<PaymentId>) {
    && (forall p <- log :: p in payments)
    && (forall e <- outbox :: outbox[e].published ==> outbox[e].payment in log)
  }

  ghost predicate Logged(s: State) {
    LogOk(s.db.payments, s.db.outbox, s.log)
  }

  ghost predicate ResponseOk(s: State, r: Response, i: nat) {
    match r.answer
    case Created(id) => id in s.db.payments && id in s.h.createdAt && s.h.createdAt[id] == i
    case Replayed(id) =>
      AfterCreation(s, r.d, i) && s.db.byKey[r.d.req.key] == id && Matches(s.db.payments[id].req, r.d.req)
    case Conflict => AfterCreation(s, r.d, i) && !Matches(s.db.payments[s.db.byKey[r.d.req.key]].req, r.d.req)
  }

  /** The key was taken by an earlier answer. */
  ghost predicate AfterCreation(s: State, d: Draft, i: nat) {
    KeyTaken(s.db, d) && s.db.byKey[d.req.key] in s.h.createdAt && s.h.createdAt[s.db.byKey[d.req.key]] < i
  }

  ghost predicate CreationOk(s: State, p: PaymentId)
    requires p in s.db.payments
  {
    && p in s.h.createdAt && p in s.db.hops && p in s.db.quotes
    && s.h.createdAt[p] < |s.h.responses|
    && s.h.responses[s.h.createdAt[p]] ==
       Response(Draft(s.db.payments[p].req, s.db.hops[p], s.db.quotes[p]), Created(p))
  }

  /** Every payment is what exactly one create call asked for, and every answer agrees with it. */
  ghost predicate Answered(s: State) {
    && (forall p <- s.db.payments :: CreationOk(s, p))
    && (forall i :: 0 <= i < |s.h.responses| ==> ResponseOk(s, s.h.responses[i], i))
  }

  ghost predicate RowOk(fleet: set<Config>, s: State, id: ExecId)
    requires id in s.db.executions
  {
    var x, db := s.db.executions[id], s.db;
    && x.id == id && Claimed(s, x.payment)
    && x.payment in db.byPayment && db.byPayment[x.payment] == id
    && (x.wallet, x.nonce) in db.byNonce && db.byNonce[(x.wallet, x.nonce)] == id
    && x.wallet in db.wallets && x.wallet in s.h.seeds && s.h.seeds[x.wallet] <= x.nonce < db.wallets[x.wallet]
    && id in s.h.allocator && s.h.allocator[id] in fleet && s.h.allocator[id].wallet == x.wallet
    && x.payment in db.quotes && SelectedQuote(db.quotes[x.payment]).Some?
    && SelectedQuote(db.quotes[x.payment]).value.provider == x.provider && CanSign(s.h.allocator[id], x.provider)
    && (x.signed.Some? ==> Stamp(x.payment, x.signed.value) in s.h.terms)
    && (x.broadcast ==> x.signed.Some? && x.payment in s.h.announced)
  }

  /**
   * One execution per payment, one per nonce, and the nonces of a
   * wallet fill the interval from its seed to its counter.
   */
  ghost predicate Rows(fleet: set<Config>, s: State) {
    var db := s.db;
    && (forall id <- db.executions :: RowOk(fleet, s, id))
    && (forall p <- db.byPayment :: db.byPayment[p] in db.executions && db.executions[db.byPayment[p]].payment == p)
    && (forall k <- db.byNonce :: db.byNonce[k] in db.executions && db.executions[db.byNonce[k]].wallet == k.0
                                  && db.executions[db.byNonce[k]].nonce == k.1)
    && db.wallets.Keys == s.h.seeds.Keys && db.executions.Keys == s.h.allocator.Keys
    && (forall w <- db.wallets :: s.h.seeds[w] <= db.wallets[w])
    && (forall w, n :: w in db.wallets && s.h.seeds[w] <= n < db.wallets[w] ==> (w, n) in db.byNonce)
  }

  ghost predicate StatusOk(s: State, p: PaymentId)
    requires p in s.db.payments
  {
    var x, db := s.db.payments[p], s.db;
    && (x.req.mode == Simulated ==>
        x.failureReason.None? && (x.status == Routed || x.status == Processing || x.status == Outcome(p)))
    && (x.failureReason.Some? ==> x.status == Failed)
    && (x.req.mode == Testnet && x.status == Submitted ==>
      p in db.byPayment && db.byPayment[p] in db.executions && db.executions[db.byPayment[p]].broadcast)
    && (x.req.mode == Testnet && Terminal(x.status) && x.failureReason.None? ==>
      p in db.byPayment && db.byPayment[p] in db.executions && db.executions[db.byPayment[p]].confirmed)
    && (x.req.mode == Testnet && x.status == Completed ==> p in s.h.filledBy)
  }

  ghost predicate Statuses(s: State) {
    && (forall p <- s.db.payments :: StatusOk(s, p))
    && (forall p <- s.h.filledBy :: Stamp(p, s.h.filledBy[p]) in s.h.terms && MinedOk(s.chain, s.h.filledBy[p]))
    && (forall p <- s.h.announced :: Stamp(p, s.h.announced[p]) in s.h.terms && s.h.announced[p] in s.chain.known)
  }

  /** Every signature honours its terms; the chain only knows what was sent, and only mines what it knows. */
  ghost predicate Signatures(fleet: set<Config>, s: State) {
    && (forall st <- s.h.terms :: SigningOk(fleet, s, st, s.h.terms[st]))
    && (forall st <- s.h.sends :: st in s.h.terms)
    && (forall tx <- s.h.sentFor :: Stamp(s.h.sentFor[tx], tx) in s.h.sends)
    && (forall tx <- s.chain.known :: tx in s.h.sentFor)
    && (forall k <- s.chain.mined :: s.chain.mined[k].tx in s.chain.known && SlotOf(s.chain.mined[k].tx) == k)
  }

  ghost predicate Actors(fleet: set<Config>, s: State) {
    forall a <- s.actors :: s.actors[a].cfg in fleet && ActorOk(s, s.actors[a].cfg, s.actors[a].pc)
  }

  /** Two publishers never hold the same outbox row, and a held row is not yet published. */
  ghost predicate Publishers(s: State) {
    && (forall a, e :: a in s.actors && Holds(s.actors[a].pc, e) ==> e in s.db.outbox && !s.db.outbox[e].published)
    && (forall a, b, e :: a in s.actors && b in s.actors && Holds(s.actors[a].pc, e) && Holds(s.actors[b].pc, e) ==>
        a == b)
  }

  ghost predicate Inv(fleet: set<Config>, s: State) {
    && Intake(s) && Logged(s) && Answered(s) && Rows(fleet, s) && Statuses(s) && Signatures(fleet, s)
    && Actors(fleet, s) && Publishers(s)
  }

  lemma InvStarts(fleet: set<Config>)
    ensures Inv(fleet, START)
  {
  }

  /** The calls after the allocation: the actor holds a row. */
  predicate HoldsRow(pc: Pc) {
    || pc.Sign? || pc.Persist? || pc.FindOnChain? || pc.Send? || pc.RecordBroadcast? || pc.Submit?
    || pc.Repair? || pc.ReadReceipt? || pc.AskProvider? || pc.RecordOutcome? || pc.Complete?
  }

  lemma RowHolderStable(s: State, s': State, cfg: Config, pc: Pc)
    requires Evolves(s, s') && ActorOk(s, cfg, pc) && HoldsRow(pc)
    ensures ActorOk(s', cfg, pc)
  {
  }

  lemma OtherStable(s: State, s': State, cfg: Config, pc: Pc)
    requires Evolves(s, s') && ActorOk(s, cfg, pc) && !HoldsRow(pc)
    ensures ActorOk(s', cfg, pc)
  {
  }

  /** What an actor knows survives every step of anyone. */
  lemma ActorStable(s: State, s': State, cfg: Config, pc: Pc)
    requires Evolves(s, s') && ActorOk(s, cfg, pc)
    ensures ActorOk(s', cfg, pc)
  {
    hide Evolves, ActorOk, HoldsRow;
    if HoldsRow(pc) { RowHolderStable(s, s', cfg, pc); } else { OtherStable(s, s', cfg, pc); }
  }

  lemma SigningStable(fleet: set<Config>, s: State, s': State, st: Stamp, t: Terms)
    requires Evolves(s, s') && SigningOk(fleet, s, st, t)
    ensures SigningOk(fleet, s', st, t)
  {
  }

  /** When a change may happen. */
  ghost predicate Justified(fleet: set<Config>, s: State, c: Change) {
    match c
    case Nothing => true
    case Reply(d, answer) => !answer.Created? && ResponseOk(s, Response(d, answer), |s.h.responses|)
    case Create(d, id, event) => !KeyTaken(s.db, d) && Insertable(d) && id !in s.db.payments && event !in s.db.outbox
    case Append(event) => event in s.db.outbox
    case Publish(event) => event in s.db.outbox && s.db.outbox[event].payment in s.log
    case MovePayment(p, from, to) => HasStatus(s.db, p, from) ==> MoveOk(s, p, from, to)
    case FailWith(p, reason) => Claimed(s, p)
    case NewRow(row, cfg) =>
      && row == Execution(row.id, row.payment, row.provider, row.wallet, row.nonce, None, false, Pending, false)
      && row.id !in s.db.executions && Claimed(s, row.payment) && row.payment !in s.db.byPayment
      && row.wallet in s.db.wallets && row.nonce == s.db.wallets[row.wallet]
      && cfg in fleet && cfg.wallet == row.wallet && CanSign(cfg, row.provider)
      && row.payment in s.db.quotes && SelectedQuote(s.db.quotes[row.payment]).Some?
      && SelectedQuote(s.db.quotes[row.payment]).value.provider == row.provider
    case SignTx(p, tx, terms) => SigningOk(fleet, s, Stamp(p, tx), terms)
    case StoreTx(id, tx) => id in s.db.executions && Stamp(s.db.executions[id].payment, tx) in s.h.terms
    case SendTx(p, tx, accepted) => Stamp(p, tx) in s.h.terms
    case Announce(id, p, tx) =>
      && id in s.db.executions && s.db.executions[id].payment == p && s.db.executions[id].signed.Some?
      && Stamp(p, tx) in s.h.terms && tx in s.chain.known
    case RecordExt(id, p, e, tx) =>
      id in s.db.executions && (e == Filled ==> Stamp(p, tx) in s.h.terms && MinedOk(s.chain, tx))
    case MineTx(tx, ok) => tx in s.chain.known && SlotOf(tx) !in s.chain.mined
    case Seed(w, n) => true
  }

  /** The four ways a status moves without a failure reason. */
  ghost predicate MoveOk(s: State, p: PaymentId, from: Status, to: Status)
    requires p in s.db.payments
  {
    var simulated := s.db.payments[p].req.mode == Simulated;
    || (from == Routed && to == Processing)
    || (from == Processing && simulated && to == Outcome(p))
    || (from == Processing && !simulated && to == Submitted
        && p in s.db.byPayment && s.db.byPayment[p] in s.db.executions
        && s.db.executions[s.db.byPayment[p]].broadcast)
    || (from == Submitted && !simulated && Terminal(to) && p in s.db.byPayment && s.db.byPayment[p] in s.db.executions
        && s.db.executions[s.db.byPayment[p]].confirmed && (to == Completed ==> p in s.h.filledBy))
  }

  // ---- Nothing is undone ----

  lemma EvolvesReflexive(db: Db, h: History)
    ensures DbEvolves(db, db) && HistoryEvolves(h, h)
  {
  }

  lemma PaymentUpdateEvolves(db: Db, p: PaymentId, x: Payment)
    requires p in db.payments && Forward(db.payments[p], x)
    ensures DbEvolves(db, db.(payments := db.payments[p := x]))
  {
  }

  lemma RowUpdateEvolves(db: Db, id: ExecId, x: Execution)
    requires id in db.executions && RowForward(db.executions[id], x)
    ensures DbEvolves(db, db.(executions := db.executions[id := x]))
  {
  }

  lemma InsertEvolves(db: Db, d: Draft, id: PaymentId, event: EventId)
    requires id !in db.payments && id !in db.hops && id !in db.quotes && event !in db.outbox && d.req.key !in db.byKey
    ensures DbEvolves(db, InsertPayment(db, d, id, event))
  {
  }

  lemma CreateEvolves(s: State, d: Draft, p: PaymentId, event: EventId)
    requires Intake(s) && !KeyTaken(s.db, d) && p !in s.db.payments && event !in s.db.outbox
    ensures DbEvolves(s.db, InsertPayment(s.db, d, p, event))
  {
    hide BaseUnits, DbEvolves;
    InsertEvolves(s.db, d, p, event);
  }

  lemma InsertRowEvolves(db: Db, row: Execution)
    requires row.id !in db.executions && row.payment !in db.byPayment && (row.wallet, row.nonce) !in db.byNonce
    requires row.wallet in db.wallets ==> db.wallets[row.wallet] <= row.nonce + 1
    ensures DbEvolves(db, InsertRow(db, row))
  {
  }

  lemma PublishEvolves(db: Db, event: EventId)
    ensures DbEvolves(db, MarkPublished(db, event))
  {
    hide DbEvolves;
    EvolvesReflexive(db, START.h);
    if event in db.outbox { OutboxUpdateEvolves(db, event, db.outbox[event].(published := true)); }
  }

  lemma OutboxUpdateEvolves(db: Db, event: EventId, row: OutboxRow)
    requires event in db.outbox && row == db.outbox[event].(published := true)
    ensures DbEvolves(db, db.(outbox := db.outbox[event := row]))
  {
    hide Forward, RowForward;
    ForwardReflexive(db);
  }

  lemma SeedEvolves(db: Db, w: Wallet, n: int)
    ensures DbEvolves(db, SeedWallet(db, w, n))
  {
    hide DbEvolves;
    EvolvesReflexive(db, START.h);
    if w !in db.wallets { NewWalletEvolves(db, w, n); }
  }

  lemma NewWalletEvolves(db: Db, w: Wallet, n: int)
    requires w !in db.wallets
    ensures DbEvolves(db, db.(wallets := db.wallets[w := n]))
  {
    hide Forward, RowForward;
    ForwardReflexive(db);
  }

  lemma ForwardReflexive(db: Db)
    ensures forall p <- db.payments :: Forward(db.payments[p], db.payments[p])
    ensures forall id <- db.executions :: RowForward(db.executions[id], db.executions[id])
  {
  }

  /** The counter always stands at a nonce no row has: the unique constraint on it never fires. */
  lemma NonceIsFree(fleet: set<Config>, s: State, w: Wallet)
    requires Rows(fleet, s) && w in s.db.wallets
    ensures (w, s.db.wallets[w]) !in s.db.byNonce
  {
    hide BaseUnits, SelectedQuote, CanSign;
    var k := (w, s.db.wallets[w]);
    assert k in s.db.byNonce ==> RowOk(fleet, s, s.db.byNonce[k]);
  }

  lemma CommitEvolvesDb(fleet: set<Config>, s: State, c: Change)
    requires Intake(s) && Rows(fleet, s) && Justified(fleet, s, c)
    ensures DbEvolves(s.db, Commit(s, c).db)
  {
    hide DbEvolves, Rows, SigningOk, ResponseOk, BaseUnits, SelectedQuote, Outcome, Together, InsertPayment, InsertRow,
      MarkPublished, SeedWallet;
    match c
    case Create(d, p, event) => CreateEvolves(s, d, p, event);
    case Publish(event) => PublishEvolves(s.db, event);
    case Seed(w, n) => SeedEvolves(s.db, w, n);
    case MovePayment(p, from, to) =>
      EvolvesReflexive(s.db, s.h);
      if HasStatus(s.db, p, from) { PaymentUpdateEvolves(s.db, p, s.db.payments[p].(status := to)); }
    case FailWith(p, reason) =>
      EvolvesReflexive(s.db, s.h);
      if HasStatus(s.db, p, Processing) {
        PaymentUpdateEvolves(s.db, p, s.db.payments[p].(status := Failed, failureReason := Some(reason)));
      }
    case NewRow(row, _) =>
      NonceIsFree(fleet, s, row.wallet);
      InsertRowEvolves(s.db, row);
    case StoreTx(id, tx) => RowUpdateEvolves(s.db, id, s.db.executions[id].(signed := Some(tx)));
    case Announce(id, _, _) => RowUpdateEvolves(s.db, id, s.db.executions[id].(broadcast := true));
    case RecordExt(id, _, e, _) => RowUpdateEvolves(s.db, id, s.db.executions[id].(external := e, confirmed := true));
    case _ => EvolvesReflexive(s.db, s.h);
  }

  lemma FreshIds(fleet: set<Config>, s: State, c: Change)
    requires Intake(s) && Rows(fleet, s) && Justified(fleet, s, c)
    ensures c.Create? ==> c.p !in s.h.createdAt && c.p !in s.h.eventOf
    ensures c.NewRow? ==> c.row.id !in s.h.allocator
    ensures c.Seed? && c.w !in s.db.wallets ==> c.w !in s.h.seeds
  {
    hide RowOk, BaseUnits, SelectedQuote, SigningOk, ResponseOk, MoveOk;
  }

  lemma CommitEvolvesHistory(s: State, c: Change)
    requires c.Create? ==> c.p !in s.h.createdAt && c.p !in s.h.eventOf
    requires c.NewRow? ==> c.row.id !in s.h.allocator
    requires c.Seed? && c.w !in s.db.wallets ==> c.w !in s.h.seeds
    ensures HistoryEvolves(s.h, Commit(s, c).h)
  {
    hide InsertPayment, MarkPublished, MoveStatus, FailProcessing, InsertRow, PersistSigned, MarkBroadcast,
      RecordExternal, SeedWallet;
  }

  lemma CommitEvolvesChain(s: State, c: Change)
    requires c.MineTx? ==> SlotOf(c.tx) !in s.chain.mined
    ensures s.log <= Commit(s, c).log && s.chain.known <= Commit(s, c).chain.known
    ensures Extends(s.chain.mined, Commit(s, c).chain.mined)
  {
  }

  lemma NewSlot(fleet: set<Config>, s: State, c: Change)
    requires Justified(fleet, s, c)
    ensures c.MineTx? ==> SlotOf(c.tx) !in s.chain.mined
  {
    hide BaseUnits, SelectedQuote, SigningOk, ResponseOk, MoveOk;
  }

  lemma CommitEvolves(fleet: set<Config>, s: State, c: Change)
    requires Intake(s) && Rows(fleet, s) && Justified(fleet, s, c)
    ensures Evolves(s, Commit(s, c))
  {
    hide DbEvolves, HistoryEvolves, Rows, Justified, Intake, Commit;
    NewSlot(fleet, s, c);
    CommitEvolvesDb(fleet, s, c);
    FreshIds(fleet, s, c);
    CommitEvolvesHistory(s, c);
    CommitEvolvesChain(s, c);
  }

  // ---- Intake ----

  lemma NewKey(payments: map<PaymentId, Payment>, byKey: map<Key, PaymentId>, p: PaymentId, x: Payment)
    requires KeysOk(payments, byKey) && p !in payments && x.req.key !in byKey
    ensures KeysOk(payments[p := x], byKey[x.req.key := p])
  {
  }

  lemma NewEvent(payments: map<PaymentId, Payment>, outbox: map<EventId, OutboxRow>, eventOf: map<PaymentId, EventId>,
                 p: PaymentId, x: Payment, event: EventId)
    requires OutboxOk(payments, outbox, eventOf) && p !in payments && event !in outbox
    ensures OutboxOk(payments[p := x], outbox[event := OutboxRow(p, false)], eventOf[p := event])
  {
  }

  lemma CreatedState(s: State, d: Draft, p: PaymentId, event: EventId)
    ensures var s' := Commit(s, Create(d, p, event));
      && s'.db == InsertPayment(s.db, d, p, event) && s'.h.eventOf == s.h.eventOf[p := event]
      && s'.h.createdAt == s.h.createdAt[p := |s.h.responses|]
  {
    hide InsertPayment;
  }

  lemma CreateTogether(s: State, d: Draft, p: PaymentId, event: EventId)
    requires Intake(s) && !KeyTaken(s.db, d) && Insertable(d) && p !in s.db.payments && event !in s.db.outbox
    ensures Intake(Commit(s, Create(d, p, event)))
  {
    hide BaseUnits, KeysOk, OutboxOk, Commit, QuotesInsertable, Acceptable;
    var x := Payment(d.req, Routed, None);
    FreeKey(s, d);
    NewKey(s.db.payments, s.db.byKey, p, x);
    NewEvent(s.db.payments, s.db.outbox, s.h.eventOf, p, x, event);
    CreatedState(s, d, p, event);
  }

  lemma FreeKey(s: State, d: Draft)
    requires Intake(s) && !KeyTaken(s.db, d)
    ensures d.req.key !in s.db.byKey
  {
    hide BaseUnits, OutboxOk, Acceptable, QuotesInsertable;
  }

  lemma UpdateTogether(s: State, p: PaymentId, x: Payment)
    requires Intake(s) && p in s.db.payments && x.req == s.db.payments[p].req
    ensures Intake(s.(db := s.db.(payments := s.db.payments[p := x])))
  {
    hide BaseUnits, KeysOk, OutboxOk, Acceptable, QuotesInsertable;
    SameKeys(s.db.payments, s.db.byKey, p, x);
    SameEvents(s.db.payments, s.db.outbox, s.h.eventOf, p, x);
  }

  lemma SameKeys(payments: map<PaymentId, Payment>, byKey: map<Key, PaymentId>, p: PaymentId, x: Payment)
    requires KeysOk(payments, byKey) && p in payments && x.req == payments[p].req
    ensures KeysOk(payments[p := x], byKey)
  {
  }

  lemma SameEvents(payments: map<PaymentId, Payment>, outbox: map<EventId, OutboxRow>,
                   eventOf: map<PaymentId, EventId>, p: PaymentId, x: Payment)
    requires OutboxOk(payments, outbox, eventOf) && p in payments
    ensures OutboxOk(payments[p := x], outbox, eventOf)
  {
  }

  lemma PublishTogether(s: State, event: EventId)
    requires Intake(s)
    ensures Intake(Commit(s, Publish(event)))
  {
    hide BaseUnits, KeysOk, Acceptable, QuotesInsertable;
  }

  lemma CreateFacts(fleet: set<Config>, s: State, c: Change)
    requires Justified(fleet, s, c)
    ensures c.Create? ==> !KeyTaken(s.db, c.d) && Insertable(c.d) && c.p !in s.db.payments && c.event !in s.db.outbox
  {
    hide SigningOk, ResponseOk, MoveOk, BaseUnits, SelectedQuote, CanSign, Insertable;
  }

  lemma MoveTogether(s: State, p: PaymentId, from: Status, to: Status)
    requires Intake(s)
    ensures Intake(Commit(s, MovePayment(p, from, to)))
  {
    hide Together;
    if HasStatus(s.db, p, from) { UpdateTogether(s, p, s.db.payments[p].(status := to)); }
  }

  lemma FailTogether(s: State, p: PaymentId, reason: string)
    requires Intake(s)
    ensures Intake(Commit(s, FailWith(p, reason)))
  {
    hide Together;
    if HasStatus(s.db, p, Processing) {
      UpdateTogether(s, p, s.db.payments[p].(status := Failed, failureReason := Some(reason)));
    }
  }

  /** The other changes do not touch these tables. */
  lemma RowTogether(s: State, c: Change)
    requires Intake(s) && (c.NewRow? || c.StoreTx? || c.Announce? || c.RecordExt? || c.Seed?)
    ensures Intake(Commit(s, c))
  {
    hide Together, PersistSigned, MarkBroadcast, RecordExternal, SeedWallet, InsertRow;
    match c {
      case NewRow(row, _) => InsertKeepsPayments(s.db, row);
      case StoreTx(id, tx) => PersistKeepsPayments(s.db, id, tx);
      case Announce(id, _, _) => MarkKeepsPayments(s.db, id);
      case RecordExt(id, _, e, _) => RecordKeepsPayments(s.db, id, e);
      case Seed(w, n) => SeedKeepsPayments(s.db, w, n);
    }
  }

  ghost predicate SamePayments(a: Db, b: Db) {
    b.payments == a.payments && b.byKey == a.byKey && b.hops == a.hops && b.quotes == a.quotes && b.outbox == a.outbox
  }

  lemma InsertKeepsPayments(db: Db, row: Execution)
    ensures SamePayments(db, InsertRow(db, row))
  {
  }

  lemma PersistKeepsPayments(db: Db, id: ExecId, tx: Tx)
    ensures SamePayments(db, PersistSigned(db, id, tx))
  {
  }

  lemma MarkKeepsPayments(db: Db, id: ExecId)
    ensures SamePayments(db, MarkBroadcast(db, id))
  {
  }

  lemma RecordKeepsPayments(db: Db, id: ExecId, e: ExternalStatus)
    ensures SamePayments(db, RecordExternal(db, id, e))
  {
  }

  lemma SeedKeepsPayments(db: Db, w: Wallet, n: int)
    ensures SamePayments(db, SeedWallet(db, w, n))
  {
  }

  lemma OtherTogether(s: State, c: Change)
    requires Intake(s) && (c.Nothing? || c.Reply? || c.Append? || c.SignTx? || c.SendTx? || c.MineTx?)
    ensures Intake(Commit(s, c))
  {
    hide Together;
  }

  lemma CommitIntake(fleet: set<Config>, s: State, c: Change)
    requires Intake(s) && Justified(fleet, s, c)
    ensures Intake(Commit(s, c))
  {
    hide Intake, Justified, Commit, Insertable, KeyTaken;
    match c {
      case Create(d, p, event) => CreateFacts(fleet, s, c); CreateTogether(s, d, p, event);
      case Publish(event) => PublishTogether(s, event);
      case MovePayment(p, from, to) => MoveTogether(s, p, from, to);
      case FailWith(p, reason) => FailTogether(s, p, reason);
      case _ =>
        if c.NewRow? || c.StoreTx? || c.Announce? || c.RecordExt? || c.Seed? {
          RowTogether(s, c);
        } else {
          OtherTogether(s, c);
        }
    }
  }

  lemma AppendLogged(s: State, event: EventId)
    requires Intake(s) && Logged(s) && event in s.db.outbox
    ensures Logged(Commit(s, Append(event)))
  {
    hide BaseUnits, Acceptable, QuotesInsertable;
  }

  lemma PublishLogged(s: State, event: EventId)
    requires Logged(s) && event in s.db.outbox && s.db.outbox[event].payment in s.log
    ensures Logged(Commit(s, Publish(event)))
  {
  }

  lemma CommitLogged(fleet: set<Config>, s: State, c: Change)
    requires Intake(s) && Logged(s) && Justified(fleet, s, c)
    ensures Logged(Commit(s, c))
  {
    hide Together, SigningOk, ResponseOk, MoveOk, BaseUnits, SelectedQuote, LogOk;
    match c
    case Create(d, p, event) => PaymentsLogged(s, InsertPayment(s.db, d, p, event));
    case Append(event) => AppendLogged(s, event);
    case Publish(event) => PublishLogged(s, event);
    case MovePayment(p, from, to) => PaymentsLogged(s, MoveStatus(s.db, p, from, to));
    case FailWith(p, reason) => PaymentsLogged(s, FailProcessing(s.db, p, reason));
    case _ =>
  }

  lemma PaymentsLogged(s: State, db: Db)
    requires Logged(s) && s.db.payments.Keys <= db.payments.Keys
    requires forall e <- db.outbox :: db.outbox[e].published ==> e in s.db.outbox && s.db.outbox[e] == db.outbox[e]
    ensures LogOk(db.payments, db.outbox, s.log)
  {
  }

  // ---- Answers ----

  lemma ResponseStable(s: State, s': State, r: Response, i: nat)
    requires Evolves(s, s') && ResponseOk(s, r, i)
    ensures ResponseOk(s', r, i)
  {
    hide BaseUnits, RowForward;
  }

  lemma CreationStable(s: State, s': State, p: PaymentId)
    requires Evolves(s, s') && p in s.db.payments && CreationOk(s, p)
    ensures p in s'.db.payments && CreationOk(s', p)
  {
    hide BaseUnits, RowForward;
  }

  lemma CommitAnswered(fleet: set<Config>, s: State, c: Change)
    requires Intake(s) && Answered(s) && Justified(fleet, s, c) && Evolves(s, Commit(s, c))
    ensures Answered(Commit(s, c))
  {
    hide SigningOk, BaseUnits, SelectedQuote, ResponseOk, CreationOk, Evolves, MoveOk;
    var s' := Commit(s, c);
    forall p | p in s'.db.payments
      ensures CreationOk(s', p)
    {
      if p in s.db.payments { CreationStable(s, s', p); } else { NewPayment(s, c, p); }
    }
    forall i | 0 <= i < |s'.h.responses|
      ensures ResponseOk(s', s'.h.responses[i], i)
    {
      if i < |s.h.responses| { ResponseStable(s, s', s.h.responses[i], i); } else { NewResponse(fleet, s, c, i); }
    }
  }

  lemma NewPayment(s: State, c: Change, p: PaymentId)
    requires p in Commit(s, c).db.payments && p !in s.db.payments
    ensures CreationOk(Commit(s, c), p)
  {
  }

  /** A change gives at most one answer, and only these two give one. */
  lemma AnswerOf(s: State, c: Change, i: nat)
    requires |s.h.responses| <= i < |Commit(s, c).h.responses|
    ensures i == |s.h.responses| && (c.Reply? || c.Create?)
    ensures Commit(s, c).h.responses[i] == Response(c.d, if c.Reply? then c.answer else Created(c.p))
  {
    hide InsertPayment, MarkPublished, MoveStatus, FailProcessing, InsertRow, PersistSigned, MarkBroadcast,
      RecordExternal, SeedWallet;
  }

  lemma ReplyIsJustified(fleet: set<Config>, s: State, c: Change)
    requires Justified(fleet, s, c) && c.Reply?
    ensures ResponseOk(s, Response(c.d, c.answer), |s.h.responses|)
  {
    hide ResponseOk;
  }

  lemma CreationIsAnswered(s: State, d: Draft, p: PaymentId, event: EventId)
    ensures ResponseOk(Commit(s, Create(d, p, event)), Response(d, Created(p)), |s.h.responses|)
  {
  }

  lemma NewResponse(fleet: set<Config>, s: State, c: Change, i: nat)
    requires Justified(fleet, s, c) && |s.h.responses| <= i < |Commit(s, c).h.responses| && Evolves(s, Commit(s, c))
    ensures ResponseOk(Commit(s, c), Commit(s, c).h.responses[i], i)
  {
    hide Commit, Justified, Evolves, ResponseOk;
    AnswerOf(s, c, i);
    if c.Reply? {
      ReplyIsJustified(fleet, s, c);
      ResponseStable(s, Commit(s, c), Response(c.d, c.answer), i);
    } else {
      CreationIsAnswered(s, c.d, c.p, c.event);
    }
  }

  // ---- Rows ----

  lemma RowStable(fleet: set<Config>, s: State, s': State, id: ExecId)
    requires Evolves(s, s') && id in s.db.executions && RowOk(fleet, s, id)
    requires s'.db.executions[id] == s.db.executions[id]
    ensures RowOk(fleet, s', id)
  {
    hide BaseUnits, SelectedQuote;
  }

  lemma RowsKept(fleet: set<Config>, s: State, s': State)
    requires Rows(fleet, s) && Evolves(s, s') && s'.db.executions.Keys == s.db.executions.Keys
    requires forall id <- s'.db.executions :: RowOk(fleet, s', id)
    requires s'.db.byPayment == s.db.byPayment && s'.db.byNonce == s.db.byNonce && s'.db.wallets == s.db.wallets
    requires s'.h.seeds == s.h.seeds && s'.h.allocator == s.h.allocator
    ensures Rows(fleet, s')
  {
    hide RowOk, BaseUnits;
  }

  lemma NewRowOk(fleet: set<Config>, s: State, row: Execution, cfg: Config)
    requires Rows(fleet, s) && Justified(fleet, s, NewRow(row, cfg))
    ensures RowOk(fleet, Commit(s, NewRow(row, cfg)), row.id)
  {
    hide BaseUnits, SelectedQuote, CanSign;
  }

  lemma NewRowIndexes(fleet: set<Config>, s: State, row: Execution, cfg: Config)
    requires Rows(fleet, s) && Justified(fleet, s, NewRow(row, cfg))
    ensures var db := Commit(s, NewRow(row, cfg)).db;
      && db.executions == s.db.executions[row.id := row]
      && (forall p <- db.byPayment :: db.byPayment[p] in db.executions && db.executions[db.byPayment[p]].payment == p)
      && (forall k <- db.byNonce :: db.byNonce[k] in db.executions && db.executions[db.byNonce[k]].wallet == k.0
                                    && db.executions[db.byNonce[k]].nonce == k.1)
  {
    hide RowOk, BaseUnits, SelectedQuote, CanSign;
  }

  lemma NewRowCounters(fleet: set<Config>, s: State, row: Execution, cfg: Config)
    requires Rows(fleet, s) && Justified(fleet, s, NewRow(row, cfg))
    ensures var s' := Commit(s, NewRow(row, cfg));
      && s'.db.wallets.Keys == s'.h.seeds.Keys && s'.db.executions.Keys == s'.h.allocator.Keys
      && (forall w <- s'.db.wallets :: s'.h.seeds[w] <= s'.db.wallets[w])
      && (forall w, n :: w in s'.db.wallets && s'.h.seeds[w] <= n < s'.db.wallets[w] ==> (w, n) in s'.db.byNonce)
  {
    hide RowOk, BaseUnits, SelectedQuote, CanSign;
  }

  lemma NewRowRows(fleet: set<Config>, s: State, row: Execution, cfg: Config)
    requires Rows(fleet, s) && Justified(fleet, s, NewRow(row, cfg)) && Evolves(s, Commit(s, NewRow(row, cfg)))
    ensures Rows(fleet, Commit(s, NewRow(row, cfg)))
  {
    hide BaseUnits, SelectedQuote, CanSign, RowOk, Evolves, Commit, Justified;
    var s' := Commit(s, NewRow(row, cfg));
    NewRowOk(fleet, s, row, cfg);
    NewRowIndexes(fleet, s, row, cfg);
    NewRowCounters(fleet, s, row, cfg);
    forall id | id in s'.db.executions
      ensures RowOk(fleet, s', id)
    {
      if id != row.id { RowStable(fleet, s, s', id); }
    }
  }

  lemma SeedRows(fleet: set<Config>, s: State, w: Wallet, n: int)
    requires Rows(fleet, s) && Evolves(s, Commit(s, Seed(w, n)))
    ensures Rows(fleet, Commit(s, Seed(w, n)))
  {
    hide BaseUnits, SelectedQuote, CanSign, RowOk, Evolves;
    var s' := Commit(s, Seed(w, n));
    forall id | id in s'.db.executions
      ensures RowOk(fleet, s', id)
    {
      RowStable(fleet, s, s', id);
    }
  }

  /** Only a new row and a new wallet touch the indexes and counters. */
  lemma IndexesKept(s: State, c: Change)
    requires !c.NewRow? && !c.Seed?
    ensures var s' := Commit(s, c);
      && s'.db.executions.Keys == s.db.executions.Keys && s'.db.byPayment == s.db.byPayment
      && s'.db.byNonce == s.db.byNonce
      && s'.db.wallets == s.db.wallets
  {
    hide MoveStatus, FailProcessing, PersistSigned, MarkBroadcast, RecordExternal, HasStatus;
    match c {
      case MovePayment(p, from, to) => MoveKeepsIndexes(s.db, p, from, to);
      case FailWith(p, reason) => FailKeepsIndexes(s.db, p, reason);
      case StoreTx(id, tx) => PersistKeepsIndexes(s.db, id, tx);
      case Announce(id, _, _) => MarkKeepsIndexes(s.db, id);
      case RecordExt(id, _, e, _) => RecordKeepsIndexes(s.db, id, e);
      case _ =>
    }
  }

  ghost predicate SameIndexes(a: Db, b: Db) {
    && b.executions.Keys == a.executions.Keys && b.byPayment == a.byPayment
    && b.byNonce == a.byNonce && b.wallets == a.wallets
  }

  lemma MoveKeepsIndexes(db: Db, p: PaymentId, from: Status, to: Status)
    ensures SameIndexes(db, MoveStatus(db, p, from, to))
  {
  }

  lemma FailKeepsIndexes(db: Db, p: PaymentId, reason: string)
    ensures SameIndexes(db, FailProcessing(db, p, reason))
  {
  }

  lemma PersistKeepsIndexes(db: Db, id: ExecId, tx: Tx)
    ensures SameIndexes(db, PersistSigned(db, id, tx))
  {
  }

  lemma MarkKeepsIndexes(db: Db, id: ExecId)
    ensures SameIndexes(db, MarkBroadcast(db, id))
  {
  }

  lemma RecordKeepsIndexes(db: Db, id: ExecId, e: ExternalStatus)
    ensures SameIndexes(db, RecordExternal(db, id, e))
  {
  }

  lemma BookKept(s: State, c: Change)
    requires !c.NewRow? && !c.Seed?
    ensures Commit(s, c).h.seeds == s.h.seeds && Commit(s, c).h.allocator == s.h.allocator
  {
    hide InsertPayment, MarkPublished, MoveStatus, FailProcessing, PersistSigned, MarkBroadcast, RecordExternal;
  }

  lemma UpdatedRow(fleet: set<Config>, s: State, c: Change, id: ExecId)
    requires id in s.db.executions && RowOk(fleet, s, id) && Justified(fleet, s, c) && Evolves(s, Commit(s, c))
    requires (c.StoreTx? || c.Announce? || c.RecordExt?) && c.id == id
    ensures RowOk(fleet, Commit(s, c), id)
  {
    hide BaseUnits, SelectedQuote, CanSign, MoveOk;
  }

  lemma OtherRow(s: State, c: Change, id: ExecId)
    requires id in s.db.executions && !c.NewRow? && !((c.StoreTx? || c.Announce? || c.RecordExt?) && c.id == id)
    ensures id in Commit(s, c).db.executions && Commit(s, c).db.executions[id] == s.db.executions[id]
  {
  }

  lemma EachRow(fleet: set<Config>, s: State)
    requires Rows(fleet, s)
    ensures forall id <- s.db.executions :: RowOk(fleet, s, id)
  {
    hide RowOk;
  }

  lemma CommitRows(fleet: set<Config>, s: State, c: Change)
    requires Rows(fleet, s) && Justified(fleet, s, c) && Evolves(s, Commit(s, c))
    ensures Rows(fleet, Commit(s, c))
  {
    hide BaseUnits, SelectedQuote, Evolves, CanSign, Justified, Commit, RowOk, Rows;
    var s' := Commit(s, c);
    EachRow(fleet, s);
    if c.NewRow? {
      NewRowRows(fleet, s, c.row, c.cfg);
    } else if c.Seed? {
      SeedRows(fleet, s, c.w, c.n);
    } else {
      IndexesKept(s, c);
      BookKept(s, c);
      forall id | id in s'.db.executions
        ensures RowOk(fleet, s', id)
      {
        if (c.StoreTx? || c.Announce? || c.RecordExt?) && c.id == id {
          UpdatedRow(fleet, s, c, id);
        } else {
          OtherRow(s, c, id);
          RowStable(fleet, s, s', id);
        }
      }
      RowsKept(fleet, s, s');
    }
  }

  // ---- Statuses ----

  lemma StatusStable(s: State, s': State, p: PaymentId)
    requires Evolves(s, s') && p in s.db.payments && StatusOk(s, p) && s'.db.payments[p] == s.db.payments[p]
    ensures StatusOk(s', p)
  {
    hide BaseUnits, Outcome;
  }

  lemma MovedStatus(fleet: set<Config>, s: State, c: Change, p: PaymentId)
    requires Rows(fleet, s) && Justified(fleet, s, c) && Evolves(s, Commit(s, c)) && p in Commit(s, c).db.payments
    requires p in s.db.payments ==> StatusOk(s, p) && Commit(s, c).db.payments[p] != s.db.payments[p]
    ensures StatusOk(Commit(s, c), p)
  {
    hide BaseUnits, SelectedQuote, ResponseOk, SigningOk, Outcome, RowOk, Evolves, Rows;
  }

  lemma CommitStatuses(fleet: set<Config>, s: State, c: Change)
    requires Rows(fleet, s) && Statuses(s) && Justified(fleet, s, c) && Evolves(s, Commit(s, c))
    ensures Statuses(Commit(s, c))
  {
    hide Rows, Justified, Commit, Evolves, StatusOk, MinedOk;
    var s' := Commit(s, c);
    CommitProofs(fleet, s, c);
    forall p | p in s'.db.payments
      ensures StatusOk(s', p)
    {
      if p in s.db.payments && s'.db.payments[p] == s.db.payments[p] {
        StatusStable(s, s', p);
      } else {
        MovedStatus(fleet, s, c, p);
      }
    }
  }

  /** The recorded fills and announcements stay backed by the chain. */
  lemma CommitProofs(fleet: set<Config>, s: State, c: Change)
    requires Statuses(s) && Justified(fleet, s, c) && Evolves(s, Commit(s, c))
    ensures var s' := Commit(s, c);
      && (forall p <- s'.h.filledBy :: Stamp(p, s'.h.filledBy[p]) in s'.h.terms && MinedOk(s'.chain, s'.h.filledBy[p]))
      && (forall p <- s'.h.announced ::
          Stamp(p, s'.h.announced[p]) in s'.h.terms && s'.h.announced[p] in s'.chain.known)
  {
    hide BaseUnits, SelectedQuote, ResponseOk, SigningOk, StatusOk, DbEvolves, MoveOk;
  }

  // ---- Signatures ----

  lemma CommitSignings(fleet: set<Config>, s: State, c: Change)
    requires Signatures(fleet, s) && Justified(fleet, s, c) && Evolves(s, Commit(s, c))
    ensures forall st <- Commit(s, c).h.terms :: SigningOk(fleet, Commit(s, c), st, Commit(s, c).h.terms[st])
  {
    hide BaseUnits, SelectedQuote, ResponseOk, SigningOk, Evolves, MoveOk;
    var s' := Commit(s, c);
    forall st | st in s'.h.terms
      ensures SigningOk(fleet, s', st, s'.h.terms[st])
    {
      SigningStable(fleet, s, s', st, s'.h.terms[st]);
    }
  }

  lemma CommitSends(fleet: set<Config>, s: State, c: Change)
    requires Signatures(fleet, s) && Justified(fleet, s, c)
    ensures var s' := Commit(s, c);
      && (forall st <- s'.h.sends :: st in s'.h.terms)
      && (forall tx <- s'.h.sentFor :: Stamp(s'.h.sentFor[tx], tx) in s'.h.sends)
      && (forall tx <- s'.chain.known :: tx in s'.h.sentFor)
      && (forall k <- s'.chain.mined :: s'.chain.mined[k].tx in s'.chain.known && SlotOf(s'.chain.mined[k].tx) == k)
  {
    hide BaseUnits, SelectedQuote, ResponseOk, SigningOk, MoveOk;
  }

  lemma CommitSignatures(fleet: set<Config>, s: State, c: Change)
    requires Signatures(fleet, s) && Justified(fleet, s, c) && Evolves(s, Commit(s, c))
    ensures Signatures(fleet, Commit(s, c))
  {
    hide SigningOk, Commit, Justified, Evolves;
    CommitSignings(fleet, s, c);
    CommitSends(fleet, s, c);
  }

  // ---- Actors ----

  /** A step's change is justified, and its next call's knowledge holds afterwards. */
  ghost predicate StepGood(fleet: set<Config>, s: State, cfg: Config, t: Turn) {
    && Justified(fleet, s, t.change)
    && (t.next.Some? ==> ActorOk(Commit(s, t.change), cfg, t.next.value))
  }

  ghost predicate Ready(fleet: set<Config>, s: State, cfg: Config, pc: Pc, o: Oracle) {
    Intake(s) && Answered(s) && Rows(fleet, s) && cfg in fleet && ActorOk(s, cfg, pc) && OracleOk(s, pc, o)
  }

  lemma TakenEarlier(s: State, d: Draft)
    requires Answered(s) && KeyTaken(s.db, d)
    ensures AfterCreation(s, d, |s.h.responses|)
  {
    hide BaseUnits;
    assert CreationOk(s, s.db.byKey[d.req.key]);
  }

  /** The row of a payment is the one its index entry names. */
  lemma RowFacts(fleet: set<Config>, s: State, x: Execution)
    requires Rows(fleet, s) && RowRead(s, x)
    ensures x.payment in s.db.byPayment && s.db.byPayment[x.payment] == x.id && x.id in s.db.executions
    ensures Claimed(s, x.payment) && s.db.executions[x.id].payment == x.payment
    ensures s.db.executions[x.id].nonce == x.nonce
    ensures s.db.executions[x.id].broadcast ==> s.db.executions[x.id].signed.Some?
  {
    hide BaseUnits, SelectedQuote, CanSign;
    assert RowOk(fleet, s, x.id);
  }

  lemma AmountIsPositive(s: State, p: PaymentId)
    requires Intake(s) && p in s.db.payments
    ensures BaseUnits(s.db.payments[p].req.amount).Some? && BaseUnits(s.db.payments[p].req.amount).value > 0
  {
    hide BaseUnits, Money.Numeral, QuotesInsertable;
  }

  lemma IntakeStep(fleet: set<Config>, s: State, cfg: Config, pc: Pc, o: Oracle)
    requires Ready(fleet, s, cfg, pc, o)
    requires pc.Lookup? || pc.Insert? || pc.Reread? || pc.PublishEvent? || pc.MarkEvent? || pc.CompleteSimulated?
    ensures StepGood(fleet, s, cfg, Effect(s, cfg, pc, o))
  {
    hide BaseUnits, Outcome, Matches, Rows, Together, Insertable, Answered;
    if (pc.Lookup? || pc.Reread?) && KeyTaken(s.db, pc.d) { TakenEarlier(s, pc.d); }
  }

  lemma PrepareStep(fleet: set<Config>, s: State, cfg: Config, pc: Pc, o: Oracle)
    requires Ready(fleet, s, cfg, pc, o)
    requires pc.ReadQuote? || pc.CheckExpiry? || pc.ReadPayment? || pc.FailPayment?
    ensures StepGood(fleet, s, cfg, Effect(s, cfg, pc, o))
  {
    hide BaseUnits, SelectedQuote, Rows, Together, RowForward, Answered;
  }

  lemma QuoteStep(fleet: set<Config>, s: State, cfg: Config, pc: Pc, o: Oracle)
    requires Ready(fleet, s, cfg, pc, o) && pc.FetchQuote?
    ensures StepGood(fleet, s, cfg, Effect(s, cfg, pc, o))
  {
    hide BaseUnits, SelectedQuote, ExceedsSlippageTolerance, Rows, Answered, Together, RowForward;
    AmountIsPositive(s, pc.p);
  }

  lemma CreateStep(fleet: set<Config>, s: State, cfg: Config, pc: Pc, o: Oracle)
    requires Ready(fleet, s, cfg, pc, o) && pc.CreateExecution?
    ensures StepGood(fleet, s, cfg, Effect(s, cfg, pc, o))
  {
    hide BaseUnits, SelectedQuote, ExceedsSlippageTolerance, Rows, Answered, Together, CanSign, Insertable, ResponseOk,
      SigningOk, KeyTaken, AnswerFor, AfterQuote, Outcome, MinedOk, MoveOk;
  }

  lemma SignStep(fleet: set<Config>, s: State, cfg: Config, pc: Pc, o: Oracle)
    requires Ready(fleet, s, cfg, pc, o) && pc.Sign?
    ensures StepGood(fleet, s, cfg, Effect(s, cfg, pc, o))
  {
    hide BaseUnits, SelectedQuote, ExceedsSlippageTolerance, Rows, Answered, Together, CanSign;
    RowFacts(fleet, s, pc.x);
  }

  lemma BroadcastStep(fleet: set<Config>, s: State, cfg: Config, pc: Pc, o: Oracle)
    requires Ready(fleet, s, cfg, pc, o) && (pc.Persist? || pc.FindOnChain? || pc.Send?)
    ensures StepGood(fleet, s, cfg, Effect(s, cfg, pc, o))
  {
    hide Rows, Together, Answered;
  }

  lemma AnnounceStep(fleet: set<Config>, s: State, cfg: Config, pc: Pc, o: Oracle)
    requires Ready(fleet, s, cfg, pc, o) && pc.RecordBroadcast?
    ensures StepGood(fleet, s, cfg, Effect(s, cfg, pc, o))
  {
    hide Rows, Together, Answered, BaseUnits, SelectedQuote, CanSign;
    RowFacts(fleet, s, pc.x);
  }

  lemma SubmitStep(fleet: set<Config>, s: State, cfg: Config, pc: Pc, o: Oracle)
    requires Ready(fleet, s, cfg, pc, o) && (pc.Submit? || pc.Repair?)
    ensures StepGood(fleet, s, cfg, Effect(s, cfg, pc, o))
  {
    hide Rows, Together, Answered, BaseUnits, SelectedQuote, CanSign;
    RowFacts(fleet, s, pc.x);
  }

  lemma LookStep(fleet: set<Config>, s: State, cfg: Config, pc: Pc, o: Oracle)
    requires Ready(fleet, s, cfg, pc, o) && (pc.ReadReceipt? || pc.AskProvider?)
    ensures StepGood(fleet, s, cfg, Effect(s, cfg, pc, o))
  {
    hide Rows, Together, Answered, BaseUnits, SelectedQuote, CanSign, RowForward;
  }

  lemma OutcomeStep(fleet: set<Config>, s: State, cfg: Config, pc: Pc, o: Oracle)
    requires Ready(fleet, s, cfg, pc, o) && pc.RecordOutcome?
    ensures StepGood(fleet, s, cfg, Effect(s, cfg, pc, o))
  {
    hide Rows, Together, Answered, BaseUnits, SelectedQuote, CanSign, MinedOk;
    RowFacts(fleet, s, pc.x);
  }

  lemma CompleteStep(fleet: set<Config>, s: State, cfg: Config, pc: Pc, o: Oracle)
    requires Ready(fleet, s, cfg, pc, o) && pc.Complete?
    ensures StepGood(fleet, s, cfg, Effect(s, cfg, pc, o))
  {
    hide Rows, Together, Answered, BaseUnits, SelectedQuote, CanSign, MinedOk;
    RowFacts(fleet, s, pc.x);
  }
}
