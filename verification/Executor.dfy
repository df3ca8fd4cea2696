/** The testnet executor (go-api/internal/worker/executor.go): each body is a sequence of protocol steps. */
module Executor {
  import opened Common
  import opened Payments
  import opened Database
  import opened Protocol
  import opened Traces
  import opened World
  import opened Provenance

  /** A call that only brings the bytes of a signed row out. */
  predicate Broadcasts(pc: Pc, x: Execution, tx: Tx) {
    pc == FindOnChain(x, tx) || pc == Send(x, tx) || pc == RecordBroadcast(x, tx) || pc == Submit(x)
  }

  /** Everything called since `before` only brought the bytes of a signed row out. */
  ghost predicate OnlyBroadcast(before: seq<Pc>, now: seq<Pc>, x: Execution, tx: Tx) {
    before <= now && forall i :: |before| <= i < |now| ==> Broadcasts(now[i], x, tx)
  }

  /**
   * The executor may stop after this call without an error: the payment is past PROCESSING, or it has a row, or a
   * resumed row met a quote it must not be signed against.
   */
  predicate Settles(db: Db, p: PaymentId, pc: Pc) {
    match pc
    case FailPayment(q, _) => q == p && Past(db, p)
    case Submit(x) => x.payment == p && Past(db, p)
    case CreateExecution(q, _, _, _) => q == p && p in db.byPayment
    case FetchQuote(q, row, _, _) => q == p && row.Some?
    case _ => false
  }

  /** The last of these calls settles the payment. */
  ghost predicate SettledBy(calls: seq<Pc>, db: Db, p: PaymentId) {
    calls != [] && Settles(db, p, calls[|calls| - 1])
  }

  /** A settled payment stays settled. */
  lemma StaysSettled(w: World, seen: seq<Action>, db: Db, calls: seq<Pc>, p: PaymentId)
    requires w.Valid() && seen <= w.acts && After(seen).db == db && SettledBy(calls, db, p)
    ensures SettledBy(calls, w.store.View(), p)
  {
    hide w.Valid, After, Past;
    StillSo(w, seen);
  }

  /** Since `before` calls were made, and the last of them settles the payment. */
  ghost predicate Settled(before: seq<Pc>, now: seq<Pc>, db: Db, p: PaymentId) {
    before <= now && |before| < |now| && SettledBy(now, db, p)
  }

  /** A call that only checks the payment, or gives it up. */
  predicate Checks(pc: Pc, p: PaymentId) {
    (pc.ReadQuote? || pc.CheckExpiry? || pc.ReadPayment? || pc.FetchQuote? || pc.FailPayment?) && pc.p == p
  }

  ghost predicate OnlyChecks(before: seq<Pc>, now: seq<Pc>, p: PaymentId) {
    before <= now && forall i :: |before| <= i < |now| ==> Checks(now[i], p)
  }

  /** Whatever was sent since `before` had been stored first, by the same actor and for the same row. */
  ghost predicate StoredFirst(before: seq<Pc>, now: seq<Pc>) {
    && before <= now
    && forall i :: |before| <= i < |now| && now[i].Send? ==>
      exists j :: |before| <= j < i && now[j] == Persist(now[i].x, now[i].tx)
  }

  /**
   * A call on the way from a checked envelope to the chain: only the
   * envelope is signed, and only what carries it is stored.
   */
  predicate Signs(pc: Pc, x: Execution, env: TxEnvelope, fee: int, cfg: Config) {
    || pc == Sign(x, env, fee)
    || ((pc.Persist? || pc.FindOnChain? || pc.Send? || pc.RecordBroadcast?) && pc.x == x && Carries(pc.tx, env, x, cfg))
    || pc == Submit(x)
  }

  ghost predicate OnlySigns(before: seq<Pc>, now: seq<Pc>, x: Execution, env: TxEnvelope, fee: int, cfg: Config) {
    before <= now && forall i :: |before| <= i < |now| ==> Signs(now[i], x, env, fee, cfg)
  }

  /** The whole pre-signing checkpoint; it needs no nonce. */
  function BuildValidatedEnvelope(cfg: Config, q: QuoteRow, o: Oracle): Option<TxEnvelope> {
    if q.provider in cfg.signers && o.built.Some? && ValidEnvelope(cfg, o.built.value, q, o.offer)
    then o.built
    else None
  }

  /** Look on the chain first; send the stored bytes only after a confirmed absence. */
  method BroadcastWithRecovery(w: World, a: ActorId, cfg: Config, x: Execution, tx: Tx, mine: set<ActorId>)
    returns (ok: bool)
    requires w.Valid() && w.At(a, cfg, FindOnChain(x, tx)) && a in mine
    modifies w, w.store
    ensures w.Ran(old(w.actors), old(w.acts), a, mine)
    ensures w.Went(a, cfg, if ok then Some(RecordBroadcast(x, tx)) else None)
    ensures OnlyBroadcast(old(Calls(w.acts, a)), Calls(w.acts, a), x, tx)
    ensures ok ==> tx in w.chain.known
  {
    hide w.Valid, Calls;
    var known := w.TransactionByHash(a, cfg, x, tx, mine);
    if known.None? { return false; }
    if known.value { return true; }
    ok := w.SendTransaction(a, cfg, x, tx, mine);
  }

  /** Broadcast, then the two separate writes that record it; without an error the node has the transaction. */
  method BroadcastAndSubmit(w: World, a: ActorId, cfg: Config, x: Execution, tx: Tx, mine: set<ActorId>)
    returns (r: Result<(), string>)
    requires w.Valid() && w.At(a, cfg, FindOnChain(x, tx)) && a in mine
    modifies w, w.store
    ensures w.Ran(old(w.actors), old(w.acts), a, mine) && a !in w.actors
    ensures OnlyBroadcast(old(Calls(w.acts, a)), Calls(w.acts, a), x, tx)
    ensures r.Ok? ==> tx in w.chain.known
    ensures r.Ok? ==> Settled(old(Calls(w.acts, a)), Calls(w.acts, a), w.store.View(), x.payment)
  {
    hide w.Valid, After, Calls, Past, Mined;
    var ok := BroadcastWithRecovery(w, a, cfg, x, tx, mine);
    if !ok { return Err("broadcast execution"); }
    ghost var seen := w.acts;
    StateNow(w);
    ok := w.MarkExecutionBroadcast(a, cfg, x, tx, mine);
    if !ok { return Err("mark execution broadcast"); }
    ok := w.MarkSubmitted(a, cfg, x, mine);
    if !ok { return Err("mark payment submitted"); }
    StillSo(w, seen);
    r := Ok(());
  }

  /** Sign with the allocated nonce and persist the bytes before anything is sent. */
  method SignAndBroadcastFresh(w: World, a: ActorId, cfg: Config, x: Execution, env: TxEnvelope, fee: int,
                               mine: set<ActorId>) returns (r: Result<(), string>)
    requires w.Valid() && w.At(a, cfg, Sign(x, env, fee)) && a in mine
    modifies w, w.store
    ensures w.Ran(old(w.actors), old(w.acts), a, mine) && a !in w.actors
    ensures StoredFirst(old(Calls(w.acts, a)), Calls(w.acts, a))
    ensures OnlySigns(old(Calls(w.acts, a)), Calls(w.acts, a), x, env, fee, cfg)
    ensures r.Ok? ==> Settled(old(Calls(w.acts, a)), Calls(w.acts, a), w.store.View(), x.payment)
  {
    hide w.Valid, Calls;
    ghost var before := Calls(w.acts, a);
    var signed := w.SignTx(a, cfg, x, env, fee, mine);
    if signed.None? { return Err("sign tx"); }
    var ok := w.PersistSignedExecution(a, cfg, x, signed.value, mine);
    if !ok { return Err("persist signed execution"); }
    ghost var stored := Calls(w.acts, a);
    r := BroadcastAndSubmit(w, a, cfg, x, signed.value, mine);
    FreshIsStored(before, stored, Calls(w.acts, a), x, signed.value);
  }

  lemma FreshIsStored(before: seq<Pc>, stored: seq<Pc>, now: seq<Pc>, x: Execution, tx: Tx)
    requires before < stored && stored[|stored| - 1] == Persist(x, tx)
    requires forall i :: |before| <= i < |stored| ==> !stored[i].Send?
    requires OnlyBroadcast(stored, now, x, tx)
    ensures StoredFirst(before, now)
  {
    assert now[|stored| - 1] == Persist(x, tx);
  }

  /** A reading of the clock for the expiry check of quote `q`. */
  datatype Reading = Reading(q: QuoteRow, now: int)

  datatype Prepared = Broken(error: string) | Over | Passed(q: QuoteRow, env: TxEnvelope, fee: int)

  /** Where the checks lead: a new payment needs its row and nonce, a resumed row is signed. */
  function AfterChecks(p: PaymentId, row: Option<Execution>, r: Prepared): Option<Pc> {
    if !r.Passed? then None
    else match row
      case None => Some(CreateExecution(p, r.q, r.env, r.fee))
      case Some(x) => Some(Sign(x, r.env, r.fee))
  }

  /**
   * The checks both entry points make before anything is signed; only a payment without a row fails on its fresh quote.
   */
  method Prepare(w: World, a: ActorId, cfg: Config, p: PaymentId, row: Option<Execution>, mine: set<ActorId>)
    returns (r: Prepared, ghost read: Option<Reading>)
    requires w.Valid() && w.At(a, cfg, ReadQuote(p, row)) && a in mine
    modifies w, w.store
    ensures w.Ran(old(w.actors), old(w.acts), a, mine)
    ensures w.Went(a, cfg, AfterChecks(p, row, r))
    ensures OnlyChecks(old(Calls(w.acts, a)), Calls(w.acts, a), p)
    ensures r.Over? ==> Settled(old(Calls(w.acts, a)), Calls(w.acts, a), w.store.View(), p)
    ensures read.Some? ==> ExpiryRead(old(w.acts), w.acts, a, p, row, read.value.q, read.value.now)
    ensures r.Passed? ==> read.Some? && read.value.q == r.q && read.value.now <= r.q.expiresAt
    ensures r.Over? && read.Some? && read.value.now > read.value.q.expiresAt ==>
      Calls(w.acts, a)[|Calls(w.acts, a)| - 1] == FailPayment(p, "routing_quote_expired")
    ensures r.Over? ==> read.Some?
  {
    hide w.Valid, Calls, SettledBy, ExpiryRead;
    ghost var first := w.acts;
    var found := w.GetQuoteByPaymentID(a, cfg, p, row, mine);
    if found.None? { return Broken("no selected quote"), None; }
    var q := found.value;
    ghost var done := w.acts;
    var now := w.Now(a, cfg, p, row, q, mine);
    read := Some(Reading(q, now));
    ReadEarlier(first, done, w.acts, a, p, row, q, now);
    ghost var seen := w.acts;
    if now > q.expiresAt {
      r := GiveUp(w, a, cfg, p, "routing_quote_expired", mine);
    } else if q.provider !in cfg.providers {
      r := Broken("no client for the provider");
    } else {
      r := CheckAmount(w, a, cfg, p, row, q, mine);
    }
    ReadStays(first, seen, w.acts, a, p, row, q, now);
  }

  /** The checks from the amount on. */
  method CheckAmount(w: World, a: ActorId, cfg: Config, p: PaymentId, row: Option<Execution>, q: QuoteRow,
                     mine: set<ActorId>) returns (r: Prepared)
    requires w.Valid() && w.At(a, cfg, ReadPayment(p, row, q)) && a in mine
    modifies w, w.store
    ensures w.Ran(old(w.actors), old(w.acts), a, mine)
    ensures w.Went(a, cfg, AfterChecks(p, row, r))
    ensures OnlyChecks(old(Calls(w.acts, a)), Calls(w.acts, a), p)
    ensures r.Over? ==> Settled(old(Calls(w.acts, a)), Calls(w.acts, a), w.store.View(), p)
    ensures r.Passed? ==> r.q == q
  {
    hide w.Valid, BaseUnits, Calls, SettledBy;
    var text := w.GetAmount(a, cfg, p, row, q, mine);
    if text.None? { return Broken("payment not found"); }
    var amount := BaseUnits(text.value);
    if amount.None? { return Broken("convert amount"); }
    r := Requote(w, a, cfg, p, row, q, amount.value, mine);
  }

  /** The checks from the fresh quote on. */
  method Requote(w: World, a: ActorId, cfg: Config, p: PaymentId, row: Option<Execution>, q: QuoteRow, amount: int,
                 mine: set<ActorId>) returns (r: Prepared)
    requires w.Valid() && w.At(a, cfg, FetchQuote(p, row, q, amount)) && a in mine
    modifies w, w.store
    ensures w.Ran(old(w.actors), old(w.acts), a, mine)
    ensures w.Went(a, cfg, AfterChecks(p, row, r))
    ensures OnlyChecks(old(Calls(w.acts, a)), Calls(w.acts, a), p)
    ensures r.Over? ==> Settled(old(Calls(w.acts, a)), Calls(w.acts, a), w.store.View(), p)
    ensures r.Passed? ==> r.q == q
  {
    hide w.Valid, ExceedsSlippageTolerance, ValidEnvelope, Calls;
    var fetched := w.FreshQuote(a, cfg, p, row, q, amount, mine);
    if fetched.None? { return Broken("fetch fresh quote"); }
    var o := fetched.value;
    if !o.offer.available {
      if row.Some? { return Over; }
      r := GiveUp(w, a, cfg, p, "route_unavailable", mine);
      return;
    }
    if ExceedsSlippageTolerance(q.fee, o.offer.fee, cfg.slippageBps) {
      if row.Some? { return Over; }
      r := GiveUp(w, a, cfg, p, "fee_slippage_exceeded", mine);
      return;
    }
    if !Within(cfg.maxAmount, amount) {
      r := GiveUp(w, a, cfg, p, "amount_exceeds_guardrail", mine);
      return;
    }
    var env := BuildValidatedEnvelope(cfg, q, o);
    if env.None? { return Broken("envelope"); }
    r := Passed(q, env.value, o.offer.fee);
  }

  /** Give the payment up with a reason. */
  method GiveUp(w: World, a: ActorId, cfg: Config, p: PaymentId, reason: string, mine: set<ActorId>)
    returns (r: Prepared)
    requires w.Valid() && w.At(a, cfg, FailPayment(p, reason)) && a in mine
    modifies w, w.store
    ensures w.Ran(old(w.actors), old(w.acts), a, mine) && a !in w.actors && !r.Passed?
    ensures OnlyChecks(old(Calls(w.acts, a)), Calls(w.acts, a), p)
    ensures r.Over? ==> Settled(old(Calls(w.acts, a)), Calls(w.acts, a), w.store.View(), p)
    ensures r.Over? ==> Calls(w.acts, a)[|Calls(w.acts, a)| - 1] == FailPayment(p, reason)
  {
    hide w.Valid, Calls;
    var ok := w.MarkProcessingFailed(a, cfg, p, reason, mine);
    r := if ok then Over else Broken("mark payment failed");
  }

  /** Every check happens before the nonce is allocated; a lost race is a safe no-op. */
  method ExecuteTestnetPayment(w: World, a: ActorId, cfg: Config, p: PaymentId, mine: set<ActorId>)
    returns (r: Result<(), string>)
    requires w.Valid() && w.At(a, cfg, ReadQuote(p, None)) && a in mine
    modifies w, w.store
    ensures w.Ran(old(w.actors), old(w.acts), a, mine) && a !in w.actors
    ensures StoredFirst(old(Calls(w.acts, a)), Calls(w.acts, a))
    ensures r.Ok? ==> Settled(old(Calls(w.acts, a)), Calls(w.acts, a), w.store.View(), p)
  {
    hide w.Valid, Calls, OnlySigns, ExpiryRead;
    var checked, _ := Prepare(w, a, cfg, p, None, mine);
    match checked {
      case Broken(error) => return Err(error);
      case Over => return Ok(());
      case Passed(q, env, fee) =>
        var made := w.TryCreateExecution(a, cfg, p, q, env, fee, mine);
        if made.None? { return Err("try create execution"); }
        match made.value {
          case Allocated(row) => r := SignAndBroadcastFresh(w, a, cfg, row, env, fee, mine);
          case AlreadyExists => return Ok(());
          case Unseeded => return Err("wallet has no nonce counter");
          case ConstraintViolated => return Err("insert execution row");
        }
    }
  }

  /** Resume a row: a signed one only has its bytes broadcast, an unsigned one passes every check again. */
  method DriveExecutionForward(w: World, a: ActorId, cfg: Config, x: Execution, mine: set<ActorId>)
    returns (r: Result<(), string>)
    requires w.Valid() && a in mine
    requires w.At(a, cfg, if x.signed.Some? then FindOnChain(x, x.signed.value) else ReadQuote(x.payment, Some(x)))
    modifies w, w.store
    ensures w.Ran(old(w.actors), old(w.acts), a, mine) && a !in w.actors
    ensures x.signed.None? ==> StoredFirst(old(Calls(w.acts, a)), Calls(w.acts, a))
    ensures x.signed.Some? ==> OnlyBroadcast(old(Calls(w.acts, a)), Calls(w.acts, a), x, x.signed.value)
    ensures r.Ok? ==> Settled(old(Calls(w.acts, a)), Calls(w.acts, a), w.store.View(), x.payment)
    ensures r.Ok? && x.signed.Some? ==> x.signed.value in w.chain.known
  {
    hide w.Valid, Calls, OnlySigns, ExpiryRead;
    if x.signed.Some? {
      r := BroadcastAndSubmit(w, a, cfg, x, x.signed.value, mine);
      return;
    }
    var checked, _ := Prepare(w, a, cfg, x.payment, Some(x), mine);
    match checked {
      case Broken(error) => return Err(error);
      case Over => return Ok(());
      case Passed(q, env, fee) => r := SignAndBroadcastFresh(w, a, cfg, x, env, fee, mine);
    }
  }
}
