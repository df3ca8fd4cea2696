/**
 * The payment protocol as a state machine: every store call, chain call, clock read and delivery is one atomic step.
 */
module Protocol {
  import opened Common
  import opened Payments
  import opened Database

  type ActorId = nat

  /**
   * Where a transaction can be mined; the chain mines at most one per slot (section 6 of the Ethereum Yellow Paper).
   */
  datatype Slot = Slot(chainId: int, sender: Wallet, nonce: int)

  datatype Receipt = Receipt(tx: Tx, ok: bool)

  datatype Chain = Chain(known: set<Tx>, mined: map<Slot, Receipt>)

  function SlotOf(tx: Tx): Slot {
    Slot(tx.chainId, tx.sender, tx.nonce)
  }

  predicate Mined(c: Chain, tx: Tx) {
    SlotOf(tx) in c.mined && c.mined[SlotOf(tx)].tx == tx
  }

  predicate MinedOk(c: Chain, tx: Tx) {
    SlotOf(tx) in c.mined && c.mined[SlotOf(tx)] == Receipt(tx, true)
  }

  /** The next call an actor will make, with the local variables it holds. `x` is the execution row as it was read. */
  datatype Pc =
    // API: CreateOrGetPayment
    | Lookup(d: Draft)
    | Insert(d: Draft)
    | Reread(d: Draft)
    // Outbox publisher, holding the row lock
    | PublishEvent(event: EventId)
    | MarkEvent(event: EventId)
    // Processor and recovery, simulated mode
    | CompleteSimulated(p: PaymentId)
    // Executor
    | ReadQuote(p: PaymentId, row: Option<Execution>)
    | CheckExpiry(p: PaymentId, row: Option<Execution>, q: QuoteRow)
    | ReadPayment(p: PaymentId, row: Option<Execution>, q: QuoteRow)
    | FetchQuote(p: PaymentId, row: Option<Execution>, q: QuoteRow, amount: int)
    | FailPayment(p: PaymentId, reason: string)
    | CreateExecution(p: PaymentId, q: QuoteRow, env: TxEnvelope, fee: int)
    | Sign(x: Execution, env: TxEnvelope, fee: int)
    | Persist(x: Execution, tx: Tx)
    | FindOnChain(x: Execution, tx: Tx)
    | Send(x: Execution, tx: Tx)
    | RecordBroadcast(x: Execution, tx: Tx)
    | Submit(x: Execution)
    // Reconciler, outcome check
    | Repair(x: Execution, tx: Tx)
    | ReadReceipt(x: Execution, tx: Tx)
    | AskProvider(x: Execution, tx: Tx)
    | RecordOutcome(x: Execution, tx: Tx, e: ExternalStatus, terminal: Status)
    | Complete(x: Execution, terminal: Status)

  datatype Actor = Actor(cfg: Config, pc: Pc)

  /** A signing: which payment, which transaction. */
  datatype Stamp = Stamp(p: PaymentId, tx: Tx)

  /** The terms a transaction was signed under. */
  datatype Terms = Terms(fee: int, cfg: Config)

  datatype Answer = Created(id: PaymentId) | Replayed(id: PaymentId) | Conflict

  datatype Response = Response(d: Draft, answer: Answer)

  /** What happened so far, beyond what the tables still show. */
  datatype History = History(
    responses: seq<Response>, createdAt: map<PaymentId, nat>, eventOf: map<PaymentId, EventId>,
    seeds: map<Wallet, int>, allocator: map<ExecId, Config>,
    terms: map<Stamp, Terms>, sends: set<Stamp>, sentFor: map<Tx, PaymentId>,
    announced: map<PaymentId, Tx>, filledBy: map<PaymentId, Tx>)

  datatype State = State(db: Db, log: seq<PaymentId>, chain: Chain, clock: int, actors: map<ActorId, Actor>, h: History)

  const START := State(EMPTY, [], Chain({}, map[]), 0, map[],
                       History([], map[], map[], map[], map[], map[], {}, map[], map[], map[]))

  /** Everything the environment decides in a step; each step uses the part it needs. */
  datatype Oracle = Oracle(
    payment: PaymentId, event: EventId, exec: ExecId,
    offer: FreshQuote, built: Option<TxEnvelope>, gas: int, gasPrice: int,
    found: bool, accepted: bool, ok: bool, external: ExternalStatus)

  datatype Start =
    | CallCreate(d: Draft)
    | PollOutbox(event: EventId)
    | Deliver(p: PaymentId)
    | RecoverStale(p: PaymentId)
    | ExecuteStale(p: PaymentId)
    | DriveForward(id: ExecId)
    | CheckOutcome(id: ExecId)

  datatype Action =
    | Begin(a: ActorId, cfg: Config, start: Start)
    | Step(a: ActorId, o: Oracle)
    | Crash(a: ActorId)
    | Mine(tx: Tx, ok: bool)
    | SetClock(t: int)
    | SeedNonce(w: Wallet, n: int)

  /** The one shared effect of a step: a statement or transaction on the tables, a Kafka append, or a chain call. */
  datatype Change =
    | Nothing
    | Reply(d: Draft, answer: Answer)
    | Create(d: Draft, p: PaymentId, event: EventId)
    | Append(event: EventId)
    | Publish(event: EventId)
    | MovePayment(p: PaymentId, from: Status, to: Status)
    | FailWith(p: PaymentId, reason: string)
    | NewRow(row: Execution, cfg: Config)
    | SignTx(p: PaymentId, tx: Tx, terms: Terms)
    | StoreTx(id: ExecId, tx: Tx)
    | SendTx(p: PaymentId, tx: Tx, accepted: bool)
    | Announce(id: ExecId, p: PaymentId, tx: Tx)
    | RecordExt(id: ExecId, p: PaymentId, e: ExternalStatus, tx: Tx)
    | MineTx(tx: Tx, ok: bool)
    | Seed(w: Wallet, n: int)

  /** A change takes effect, and is entered in the history. */
  function Commit(s: State, c: Change): State {
    match c
    case Nothing => s
    case Reply(d, answer) => s.(h := s.h.(responses := s.h.responses + [Response(d, answer)]))
    case Create(d, id, event) =>
      s.(db := InsertPayment(s.db, d, id, event),
         h := s.h.(responses := s.h.responses + [Response(d, Created(id))],
                   createdAt := s.h.createdAt[id := |s.h.responses|],
                   eventOf := s.h.eventOf[id := event]))
    case Append(event) => if event in s.db.outbox then s.(log := s.log + [s.db.outbox[event].payment]) else s
    case Publish(event) => s.(db := MarkPublished(s.db, event))
    case MovePayment(p, from, to) => s.(db := MoveStatus(s.db, p, from, to))
    case FailWith(p, reason) => s.(db := FailProcessing(s.db, p, reason))
    case NewRow(row, cfg) => s.(db := InsertRow(s.db, row), h := s.h.(allocator := s.h.allocator[row.id := cfg]))
    case SignTx(p, tx, terms) => s.(h := s.h.(terms := s.h.terms[Stamp(p, tx) := terms]))
    case StoreTx(id, tx) => s.(db := PersistSigned(s.db, id, tx))
    case SendTx(p, tx, accepted) =>
      s.(chain := s.chain.(known := if accepted then s.chain.known + {tx} else s.chain.known),
         h := s.h.(sends := s.h.sends + {Stamp(p, tx)}, sentFor := s.h.sentFor[tx := p]))
    case Announce(id, p, tx) => s.(db := MarkBroadcast(s.db, id), h := s.h.(announced := s.h.announced[p := tx]))
    case RecordExt(id, p, e, tx) =>
      s.(db := RecordExternal(s.db, id, e), h := if e == Filled then s.h.(filledBy := s.h.filledBy[p := tx]) else s.h)
    case MineTx(tx, ok) => s.(chain := s.chain.(mined := s.chain.mined[SlotOf(tx) := Receipt(tx, ok)]))
    case Seed(w, n) =>
      s.(db := SeedWallet(s.db, w, n), h := if w in s.db.wallets then s.h else s.h.(seeds := s.h.seeds[w := n]))
  }

  /** A step: its shared effect, and the actor's next call if it goes on. */
  datatype Turn = Turn(change: Change, next: Option<Pc>)

  function Goto(pc: Pc): Turn {
    Turn(Nothing, Some(pc))
  }

  const STOP := Turn(Nothing, None)

  predicate KeyTaken(db: Db, d: Draft) {
    d.req.key in db.byKey && db.byKey[d.req.key] in db.payments
  }

  /** The answer to a create call whose key is taken. */
  function AnswerFor(db: Db, d: Draft): Answer
    requires KeyTaken(db, d)
  {
    var id := db.byKey[d.req.key];
    if Matches(db.payments[id].req, d.req) then Replayed(id) else Conflict
  }

  /** The checks between the fresh quote and the nonce, in the order of the code; they differ for a resumed row. */
  function AfterQuote(cfg: Config, p: PaymentId, row: Option<Execution>, q: QuoteRow, amount: int, o: Oracle): Turn {
    var slipped := o.offer.available && ExceedsSlippageTolerance(q.fee, o.offer.fee, cfg.slippageBps);
    if row.None? && !o.offer.available then Goto(FailPayment(p, "route_unavailable"))
    else if row.None? && slipped then Goto(FailPayment(p, "fee_slippage_exceeded"))
    else if !o.offer.available || slipped then STOP
    else if !Within(cfg.maxAmount, amount) then Goto(FailPayment(p, "amount_exceeds_guardrail"))
    else if q.provider !in cfg.signers || o.built.None? || !ValidEnvelope(cfg, o.built.value, q, o.offer) then STOP
    else
      match row
      case None => Goto(CreateExecution(p, q, o.built.value, o.offer.fee))
      case Some(x) => Goto(Sign(x, o.built.value, o.offer.fee))
  }

  /** The transaction signed for a row: its nonce, the worker's wallet, the validated envelope. */
  function TxFor(cfg: Config, x: Execution, env: TxEnvelope, o: Oracle): Tx {
    Tx(env.chainId, cfg.wallet, x.nonce, env.to, env.value, env.data, o.gas, o.gasPrice)
  }

  /** One call of an actor. */
  function Effect(s: State, cfg: Config, pc: Pc, o: Oracle): Turn {
    match pc
    case Lookup(d) => if KeyTaken(s.db, d) then Turn(Reply(d, AnswerFor(s.db, d)), None) else Goto(Insert(d))
    case Insert(d) =>
      if KeyTaken(s.db, d) then Goto(Reread(d))
      else if !Insertable(d) then STOP
      else Turn(Create(d, o.payment, o.event), None)
    case Reread(d) => if KeyTaken(s.db, d) then Turn(Reply(d, AnswerFor(s.db, d)), None) else STOP
    case PublishEvent(e) => Turn(Append(e), Some(MarkEvent(e)))
    case MarkEvent(e) => Turn(Publish(e), None)
    case CompleteSimulated(p) => Turn(MovePayment(p, Processing, Outcome(p)), None)
    case ReadQuote(p, row) =>
      var q := if p in s.db.quotes then SelectedQuote(s.db.quotes[p]) else None;
      if q.Some? then Goto(CheckExpiry(p, row, q.value)) else STOP
    case CheckExpiry(p, row, q) =>
      if s.clock > q.expiresAt then Goto(FailPayment(p, "routing_quote_expired"))
      else if q.provider in cfg.providers then Goto(ReadPayment(p, row, q)) else STOP
    case ReadPayment(p, row, q) =>
      var amount := if p in s.db.payments then BaseUnits(s.db.payments[p].req.amount) else None;
      if amount.Some? then Goto(FetchQuote(p, row, q, amount.value)) else STOP
    case FetchQuote(p, row, q, amount) => AfterQuote(cfg, p, row, q, amount, o)
    case FailPayment(p, reason) => Turn(FailWith(p, reason), None)
    case CreateExecution(p, q, env, fee) =>
      (match Allocate(s.db, o.exec, p, q.provider, cfg.wallet)
       case Allocated(row) => Turn(NewRow(row, cfg), Some(Sign(row, env, fee)))
       case _ => STOP)
    case Sign(x, env, fee) =>
      var tx := TxFor(cfg, x, env, o);
      Turn(SignTx(x.payment, tx, Terms(fee, cfg)), Some(Persist(x, tx)))
    case Persist(x, tx) => Turn(StoreTx(x.id, tx), Some(FindOnChain(x, tx)))
    case FindOnChain(x, tx) => Goto(if o.found then RecordBroadcast(x, tx) else Send(x, tx))
    case Send(x, tx) => Turn(SendTx(x.payment, tx, o.accepted), if o.ok then Some(RecordBroadcast(x, tx)) else None)
    case RecordBroadcast(x, tx) => Turn(Announce(x.id, x.payment, tx), Some(Submit(x)))
    case Submit(x) => Turn(MovePayment(x.payment, Processing, Submitted), None)
    case Repair(x, tx) => Turn(MovePayment(x.payment, Processing, Submitted), Some(ReadReceipt(x, tx)))
    case ReadReceipt(x, tx) =>
      if !o.found then STOP
      else if !MinedOk(s.chain, tx) then Goto(RecordOutcome(x, tx, Reverted, Failed))
      else if x.provider in cfg.checkers then Goto(AskProvider(x, tx)) else STOP
    case AskProvider(x, tx) =>
      (match o.external
       case Pending => STOP
       case Filled => Goto(RecordOutcome(x, tx, Filled, Completed))
       case other => Goto(RecordOutcome(x, tx, other, Failed)))
    case RecordOutcome(x, tx, e, terminal) => Turn(RecordExt(x.id, x.payment, e, tx), Some(Complete(x, terminal)))
    case Complete(x, terminal) => Turn(MovePayment(x.payment, Submitted, terminal), None)
  }

  /** What the environment is held to: fresh IDs are new, quotes echo the amount asked for, the chain does not lie. */
  predicate OracleOk(s: State, pc: Pc, o: Oracle) {
    match pc
    case Insert(d) => o.payment !in s.db.payments && o.event !in s.db.outbox
    case FetchQuote(_, _, _, amount) => o.offer.available ==> o.offer.input == amount
    case CreateExecution(_, _, _, _) => o.exec !in s.db.executions
    case FindOnChain(_, tx) => o.found ==> tx in s.chain.known
    case Send(_, _) => o.ok ==> o.accepted
    case ReadReceipt(_, tx) => o.found ==> Mined(s.chain, tx)
    case _ => true
  }

  predicate Holds(pc: Pc, e: EventId) {
    pc == PublishEvent(e) || pc == MarkEvent(e)
  }

  /** Whether an actor can start here: the guard of the query or claim that gives it its work. */
  predicate CanBegin(s: State, start: Start) {
    match start
    case CallCreate(_) => true
    case PollOutbox(e) =>
      e in s.db.outbox && !s.db.outbox[e].published && forall b <- s.actors :: !Holds(s.actors[b].pc, e)
    case Deliver(p) => p in s.log
    case RecoverStale(p) => HasStatus(s.db, p, Processing) && s.db.payments[p].req.mode == Simulated
    case ExecuteStale(p) =>
      HasStatus(s.db, p, Processing) && s.db.payments[p].req.mode == Testnet && p !in s.db.byPayment
    case DriveForward(id) => id in s.db.executions && !s.db.executions[id].broadcast
    case CheckOutcome(id) =>
      && id in s.db.executions && s.db.executions[id].broadcast && !s.db.executions[id].confirmed
      && s.db.executions[id].signed.Some?
  }

  /** The claim of a delivery, or where a sweep's actor starts. */
  function Beginning(s: State, start: Start): Turn
    requires CanBegin(s, start)
  {
    match start
    case CallCreate(d) => Goto(Lookup(d))
    case PollOutbox(e) => Goto(PublishEvent(e))
    case Deliver(p) =>
      if !HasStatus(s.db, p, Routed) then STOP
      else if s.db.payments[p].req.mode == Simulated
        then Turn(MovePayment(p, Routed, Processing), Some(CompleteSimulated(p)))
      else Turn(MovePayment(p, Routed, Processing), Some(ReadQuote(p, None)))
    case RecoverStale(p) => Goto(CompleteSimulated(p))
    case ExecuteStale(p) => Goto(ReadQuote(p, None))
    case DriveForward(id) =>
      var x := s.db.executions[id];
      Goto(match x.signed case Some(tx) => FindOnChain(x, tx) case None => ReadQuote(x.payment, Some(x)))
    case CheckOutcome(id) => Goto(Repair(s.db.executions[id], s.db.executions[id].signed.value))
  }

  predicate Enabled(fleet: set<Config>, s: State, act: Action) {
    match act
    case Begin(a, cfg, start) => a !in s.actors && cfg in fleet && CanBegin(s, start)
    case Step(a, o) => a in s.actors && OracleOk(s, s.actors[a].pc, o)
    case Crash(a) => a in s.actors
    case Mine(tx, _) => tx in s.chain.known && SlotOf(tx) !in s.chain.mined
    case SetClock(_) => true
    case SeedNonce(_, _) => true
  }

  function Continue(s: State, a: ActorId, cfg: Config, m: Turn): State {
    var s' := Commit(s, m.change);
    s'.(actors := if m.next.Some? then s.actors[a := Actor(cfg, m.next.value)] else s.actors - {a})
  }

  function Apply(s: State, act: Action): State {
    match act
    case Begin(a, cfg, start) => if CanBegin(s, start) then Continue(s, a, cfg, Beginning(s, start)) else s
    case Step(a, o) =>
      if a in s.actors then Continue(s, a, s.actors[a].cfg, Effect(s, s.actors[a].cfg, s.actors[a].pc, o)) else s
    case Crash(a) => s.(actors := s.actors - {a})
    case Mine(tx, ok) => Commit(s, MineTx(tx, ok))
    case SetClock(t) => s.(clock := t)
    case SeedNonce(w, n) => Commit(s, Seed(w, n))
  }

  ghost predicate Next(fleet: set<Config>, s: State, act: Action, s': State) {
    Enabled(fleet, s, act) && s' == Apply(s, act)
  }

  /** A run: states linked by actions, from the empty database. */
  ghost predicate Run(fleet: set<Config>, states: seq<State>, acts: seq<Action>) {
    && |states| == |acts| + 1
    && states[0] == START
    && forall i :: 0 <= i < |acts| ==> Next(fleet, states[i], acts[i], states[i + 1])
  }
}
