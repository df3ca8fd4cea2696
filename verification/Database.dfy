/** The tables, and each store statement or transaction as a function of them (go-api/internal/postgres). */
module Database {
  import opened Common
  import opened Payments

  /** Everything one POST persists. */
  datatype Draft = Draft(req: Request, hops: seq<Hop>, quotes: seq<QuoteRow>)

  /** The tables, with the unique indexes the statements rely on. */
  datatype Db = Db(
    payments: map<PaymentId, Payment>, byKey: map<Key, PaymentId>,
    hops: map<PaymentId, seq<Hop>>, quotes: map<PaymentId, seq<QuoteRow>>,
    outbox: map<EventId, OutboxRow>,
    executions: map<ExecId, Execution>, byPayment: map<PaymentId, ExecId>, byNonce: map<(Wallet, int), ExecId>,
    wallets: map<Wallet, int>)

  const EMPTY := Db(map[], map[], map[], map[], map[], map[], map[], map[], map[])

  /** The table constraints a new payment must meet. */
  predicate Insertable(d: Draft) {
    Acceptable(d.req) && QuotesInsertable(d.quotes)
  }

  /** The whole creation transaction: payment, hops, quotes and outbox row. */
  function InsertPayment(db: Db, d: Draft, id: PaymentId, event: EventId): Db {
    db.(payments := db.payments[id := Payment(d.req, Routed, None)],
        byKey := db.byKey[d.req.key := id],
        hops := db.hops[id := d.hops],
        quotes := db.quotes[id := d.quotes],
        outbox := db.outbox[event := OutboxRow(id, false)])
  }

  function MarkPublished(db: Db, event: EventId): Db {
    if event in db.outbox then db.(outbox := db.outbox[event := db.outbox[event].(published := true)]) else db
  }

  predicate HasStatus(db: Db, p: PaymentId, s: Status) {
    p in db.payments && db.payments[p].status == s
  }

  /** `UPDATE payments SET status = to WHERE id = p AND status = from`. */
  function MoveStatus(db: Db, p: PaymentId, from: Status, to: Status): Db {
    if HasStatus(db, p, from) then db.(payments := db.payments[p := db.payments[p].(status := to)]) else db
  }

  function FailProcessing(db: Db, p: PaymentId, reason: string): Db {
    if HasStatus(db, p, Processing)
    then db.(payments := db.payments[p := db.payments[p].(status := Failed, failureReason := Some(reason))])
    else db
  }

  function SeedWallet(db: Db, w: Wallet, initial: int): Db {
    if w in db.wallets then db else db.(wallets := db.wallets[w := initial])
  }

  datatype Allocation = Allocated(row: Execution) | AlreadyExists | Unseeded | ConstraintViolated

  /** What the allocation transaction answers. */
  function Allocate(db: Db, id: ExecId, p: PaymentId, provider: Provider, w: Wallet): Allocation {
    if w !in db.wallets then Unseeded
    else if p in db.byPayment then AlreadyExists
    else if p !in db.payments || (w, db.wallets[w]) in db.byNonce then ConstraintViolated
    else Allocated(Execution(id, p, provider, w, db.wallets[w], None, false, Pending, false))
  }

  /** The row and its nonce are taken together. */
  function InsertRow(db: Db, row: Execution): Db {
    db.(wallets := db.wallets[row.wallet := row.nonce + 1],
        executions := db.executions[row.id := row],
        byPayment := db.byPayment[row.payment := row.id],
        byNonce := db.byNonce[(row.wallet, row.nonce) := row.id])
  }

  /** `UPDATE payment_executions ... WHERE id = id`. */
  function PersistSigned(db: Db, id: ExecId, tx: Tx): Db {
    if id in db.executions then db.(executions := db.executions[id := db.executions[id].(signed := Some(tx))]) else db
  }

  function MarkBroadcast(db: Db, id: ExecId): Db {
    if id in db.executions then db.(executions := db.executions[id := db.executions[id].(broadcast := true)]) else db
  }

  function RecordExternal(db: Db, id: ExecId, e: ExternalStatus): Db {
    if id in db.executions
    then db.(executions := db.executions[id := db.executions[id].(external := e, confirmed := true)])
    else db
  }
}
