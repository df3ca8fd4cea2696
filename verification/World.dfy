/** The running system as a worker sees it: its own calls, with every other actor free to act in between. */
module World {
  import opened Common
  import opened Payments
  import opened Database
  import opened Protocol
  import opened Invariants
  import opened Safety
  import opened Theorems
  import opened Traces
  import opened PostgresStore
  import opened Provenance
  import SimulatedExecutor

  /** The actors in `keys` are where they were. */
  ghost predicate Same(before: map<ActorId, Actor>, now: map<ActorId, Actor>, keys: set<ActorId>) {
    forall b <- keys :: (b in before <==> b in now) && (b in before ==> now[b] == before[b])
  }

  /** The actors in `keys` have made no further call. */
  ghost predicate SameCalls(done: seq<Action>, acts: seq<Action>, keys: set<ActorId>) {
    forall b <- keys :: Calls(acts, b) == Calls(done, b)
  }

  /** The calls of `b` once `act` has happened in state `s`. */
  ghost function CallsAfter(done: seq<Action>, s: State, act: Action, b: ActorId): seq<Pc> {
    if act.Step? && act.a == b && b in s.actors then Calls(done, b) + [s.actors[b].pc] else Calls(done, b)
  }

  /** Who an action belongs to. */
  predicate Concerns(act: Action, keys: set<ActorId>) {
    match act
    case Begin(a, _, _) => a in keys
    case Step(a, _) => a in keys
    case Crash(a) => a in keys
    case _ => false
  }

  lemma ActorsAfter(s: State, act: Action, keys: set<ActorId>)
    requires !Concerns(act, keys)
    ensures Same(s.actors, Apply(s, act).actors, keys)
  {
    hide Effect, Beginning, CanBegin, Commit;
    match act {
      case Begin(a, cfg, start) => if CanBegin(s, start) { ActorsOf(s, Beginning(s, start).change); }
      case Step(a, o) => if a in s.actors { ActorsOf(s, Effect(s, s.actors[a].cfg, s.actors[a].pc, o).change); }
      case Mine(tx, ok) => ActorsOf(s, MineTx(tx, ok));
      case SeedNonce(w, n) => ActorsOf(s, Seed(w, n));
      case _ =>
    }
  }

  lemma QuoteIsLocal(cfg: Config, p: PaymentId, row: Option<Execution>, q: QuoteRow, amount: int, o: Oracle)
    ensures AfterQuote(cfg, p, row, q, amount, o).change == Nothing
  {
    hide ExceedsSlippageTolerance, ValidEnvelope;
  }

  lemma PersistTurn(s: State, cfg: Config, x: Execution, tx: Tx, o: Oracle)
    ensures Effect(s, cfg, Persist(x, tx), o) == Turn(StoreTx(x.id, tx), Some(FindOnChain(x, tx)))
    ensures Commit(s, StoreTx(x.id, tx)).db == PersistSigned(s.db, x.id, tx)
  {
    hide PersistSigned;
  }

  lemma BroadcastTurn(s: State, cfg: Config, x: Execution, tx: Tx, o: Oracle)
    ensures Effect(s, cfg, RecordBroadcast(x, tx), o) == Turn(Announce(x.id, x.payment, tx), Some(Submit(x)))
    ensures Commit(s, Announce(x.id, x.payment, tx)).db == MarkBroadcast(s.db, x.id)
  {
    hide MarkBroadcast;
  }

  lemma OutcomeTurn(s: State, cfg: Config, x: Execution, tx: Tx, e: ExternalStatus, terminal: Status, o: Oracle)
    ensures Effect(s, cfg, RecordOutcome(x, tx, e, terminal), o) ==
      Turn(RecordExt(x.id, x.payment, e, tx), Some(Complete(x, terminal)))
    ensures Commit(s, RecordExt(x.id, x.payment, e, tx)).db == RecordExternal(s.db, x.id, e)
  {
    hide RecordExternal;
  }

  /** A guarded status update, and the call after it. */
  predicate Moves(pc: Pc, p: PaymentId, from: Status, to: Status, next: Option<Pc>) {
    match pc
    case CompleteSimulated(q) => q == p && from == Processing && to == Outcome(p) && next.None?
    case Submit(x) => x.payment == p && from == Processing && to == Submitted && next.None?
    case Repair(x, tx) => x.payment == p && from == Processing && to == Submitted && next == Some(ReadReceipt(x, tx))
    case Complete(x, terminal) => x.payment == p && from == Submitted && to == terminal && next.None?
    case _ => false
  }

  lemma MoveTurn(s: State, cfg: Config, pc: Pc, p: PaymentId, from: Status, to: Status, next: Option<Pc>, o: Oracle)
    requires Moves(pc, p, from, to, next)
    ensures Effect(s, cfg, pc, o) == Turn(MovePayment(p, from, to), next) && OracleOk(s, pc, o)
    ensures Commit(s, MovePayment(p, from, to)).db == MoveStatus(s.db, p, from, to)
  {
    hide MoveStatus, Outcome;
  }

  /** After the update the row is past the status it was moved from, whether or not it was this call that moved it. */
  lemma MovedPast(fleet: set<Config>, s: State, a: ActorId, p: PaymentId, from: Status, to: Status, next: Option<Pc>)
    requires Inv(fleet, s) && a in s.actors && Moves(s.actors[a].pc, p, from, to, next)
    ensures HasStatus(s.db, p, from) ==> HasStatus(MoveStatus(s.db, p, from, to), p, to) && !Finished(s.db, p)
    ensures !HasStatus(s.db, p, from) ==> MoveStatus(s.db, p, from, to) == s.db
    ensures from == Processing ==> Past(MoveStatus(s.db, p, from, to), p)
  {
    hide Inv, Outcome;
    if from == Processing { WasClaimed(fleet, s, a, p); }
  }

  lemma OutcomeOf(p: PaymentId)
    ensures Outcome(p) == if SimulatedExecutor.Succeeds(p) then Completed else Failed
  {
    hide SimulatedExecutor.Succeeds;
  }

  lemma AllocationTurn(s: State, cfg: Config, p: PaymentId, q: QuoteRow, env: TxEnvelope, fee: int, o: Oracle)
    ensures
      var made := Allocate(s.db, o.exec, p, q.provider, cfg.wallet);
      var t := Effect(s, cfg, CreateExecution(p, q, env, fee), o);
      if made.Allocated? then
        && t.next == Some(Sign(made.row, env, fee)) && made.row.payment == p
        && Commit(s, t.change).db == InsertRow(s.db, made.row)
      else
        t == STOP && Commit(s, Nothing) == s && (made.AlreadyExists? ==> p in s.db.byPayment)
  {
    hide InsertRow;
  }

  predicate Finished(db: Db, p: PaymentId) {
    p in db.payments && Terminal(db.payments[p].status)
  }

  /** What is finished stays as it is, as long as the run goes on. */
  lemma StaysFinished(fleet: set<Config>, done: seq<Action>, acts: seq<Action>, p: PaymentId)
    requires Possible(fleet, acts) && done <= acts && Finished(After(done).db, p)
    ensures Finished(After(acts).db, p) && After(acts).db.payments[p] == After(done).db.payments[p]
  {
    hide Possible, After, Run;
    PossibleIsRun(fleet, acts);
    StatesOfPrefix(done, acts);
    StatusOnlyMovesForward(fleet, StatesOf(acts), acts, |done|, |acts|, p);
  }

  /** The payment has left ROUTED and PROCESSING behind. */
  predicate Past(db: Db, p: PaymentId) {
    p in db.payments && Order(db.payments[p].status) > Order(Processing)
  }

  /** The call is about a payment that was claimed. */
  predicate About(pc: Pc, p: PaymentId) {
    match pc
    case CompleteSimulated(q) => q == p
    case FailPayment(q, _) => q == p
    case Submit(x) => x.payment == p
    case Repair(x, _) => x.payment == p
    case _ => false
  }

  lemma WasClaimed(fleet: set<Config>, s: State, a: ActorId, p: PaymentId)
    requires Inv(fleet, s) && a in s.actors && About(s.actors[a].pc, p)
    ensures p in s.db.payments && s.db.payments[p].status != Routed
  {
    hide BaseUnits, SelectedQuote, Intake, Logged, Answered, Rows, Statuses, Signatures, Publishers;
    var pc := s.actors[a].pc;
    if pc.Submit? || pc.Repair? { ReadRow(fleet, s, pc.x.id); }
  }

  /** What the node has seen, what is mined and what is past PROCESSING stays so. */
  lemma NothingUndone(fleet: set<Config>, done: seq<Action>, acts: seq<Action>)
    requires Possible(fleet, acts) && done <= acts
    ensures forall tx <- After(done).chain.known :: tx in After(acts).chain.known
    ensures forall k <- After(done).chain.mined ::
      k in After(acts).chain.mined && After(acts).chain.mined[k] == After(done).chain.mined[k]
    ensures forall p :: Past(After(done).db, p) ==> Past(After(acts).db, p)
    ensures forall p <- After(done).db.byPayment :: p in After(acts).db.byPayment
    ensures forall w <- After(done).db.wallets ::
      w in After(acts).db.wallets && After(done).db.wallets[w] <= After(acts).db.wallets[w]
  {
    hide Possible, After, Run, HistoryEvolves, RowForward;
    PossibleIsRun(fleet, acts);
    StatesOfPrefix(done, acts);
    RunEvolves(fleet, StatesOf(acts), acts, |done|, |acts|);
  }

  /** The delivery of `p` at step `i` wins the claim. */
  ghost predicate ClaimsAt(acts: seq<Action>, i: nat, p: PaymentId) {
    i < |acts| && acts[i].Begin? && acts[i].start == Deliver(p) && HasStatus(After(acts[..i]).db, p, Routed)
  }

  /** Since `done`, actor `a` has won the claim on `p`. */
  ghost predicate Wins(done: seq<Action>, acts: seq<Action>, a: ActorId, p: PaymentId) {
    exists i :: |done| <= i < |acts| && ClaimsAt(acts, i, p) && acts[i].a == a
  }

  lemma WinsHere(done: seq<Action>, now: seq<Action>, a: ActorId, cfg: Config, p: PaymentId)
    requires done <= now && HasStatus(After(now).db, p, Routed)
    ensures Wins(done, now + [Begin(a, cfg, Deliver(p))], a, p)
  {
    hide After;
    var acts := now + [Begin(a, cfg, Deliver(p))];
    assert acts[..|now|] == now;
    assert ClaimsAt(acts, |now|, p);
  }

  lemma WinsStays(done: seq<Action>, now: seq<Action>, acts: seq<Action>, a: ActorId, p: PaymentId)
    requires Wins(done, now, a, p) && now <= acts
    ensures Wins(done, acts, a, p)
  {
    hide After;
    var i :| |done| <= i < |now| && ClaimsAt(now, i, p) && now[i].a == a;
    assert acts[..i] == now[..i];
    assert ClaimsAt(acts, i, p);
  }

  /** Since `done`, actor `a` has read the clock as `now` to check the quote's expiry. */
  ghost predicate ExpiryRead(done: seq<Action>, acts: seq<Action>, a: ActorId, p: PaymentId, row: Option<Execution>,
                             q: QuoteRow, now: int) {
    exists i :: |done| <= i < |acts| && ReadsAt(acts, i, a, p, row, q, now)
  }

  ghost predicate ReadsAt(acts: seq<Action>, i: nat, a: ActorId, p: PaymentId, row: Option<Execution>, q: QuoteRow,
                          now: int) {
    && i < |acts| && acts[i].Step? && acts[i].a == a
    && var s := After(acts[..i]);
    a in s.actors && s.actors[a].pc == CheckExpiry(p, row, q) && s.clock == now
  }

  lemma ReadsHere(done: seq<Action>, now: seq<Action>, a: ActorId, cfg: Config, p: PaymentId, row: Option<Execution>,
                  q: QuoteRow, clock: int, o: Oracle)
    requires done <= now && After(now).clock == clock
    requires a in After(now).actors && After(now).actors[a] == Actor(cfg, CheckExpiry(p, row, q))
    ensures ExpiryRead(done, now + [Step(a, o)], a, p, row, q, clock)
  {
    hide After;
    var acts := now + [Step(a, o)];
    assert acts[..|now|] == now;
    assert ReadsAt(acts, |now|, a, p, row, q, clock);
  }

  lemma ReadStays(done: seq<Action>, now: seq<Action>, acts: seq<Action>, a: ActorId, p: PaymentId,
                  row: Option<Execution>, q: QuoteRow, clock: int)
    requires ExpiryRead(done, now, a, p, row, q, clock) && now <= acts
    ensures ExpiryRead(done, acts, a, p, row, q, clock)
  {
    hide After;
    var i :| |done| <= i < |now| && ReadsAt(now, i, a, p, row, q, clock);
    assert acts[..i] == now[..i];
    assert ReadsAt(acts, i, a, p, row, q, clock);
  }

  lemma ReadEarlier(first: seq<Action>, done: seq<Action>, acts: seq<Action>, a: ActorId, p: PaymentId,
                    row: Option<Execution>, q: QuoteRow, clock: int)
    requires ExpiryRead(done, acts, a, p, row, q, clock) && first <= done
    ensures ExpiryRead(first, acts, a, p, row, q, clock)
  {
    hide ReadsAt;
  }

  lemma ClaimView(s: State, p: PaymentId)
    requires p in s.log
    ensures Commit(s, Beginning(s, Deliver(p)).change).db == MoveStatus(s.db, p, Routed, Processing)
  {
  }

  lemma WorldIsSafe(fleet: set<Config>, acts: seq<Action>)
    requires Possible(fleet, acts)
    ensures Inv(fleet, After(acts))
  {
    hide Possible, After, Run, Inv;
    PossibleIsRun(fleet, acts);
    RunSafe(fleet, StatesOf(acts), acts, |acts|);
  }

  datatype Sweep = RecoverPayments | ExecutePayments | CheckOutcomes

  datatype Work = Work(a: ActorId, pc: Pc)

  function Owners(work: seq<Work>): set<ActorId> {
    set w <- work :: w.a
  }

  predicate Asks(kind: Sweep, start: Start) {
    match kind
    case RecoverPayments => start.RecoverStale?
    case ExecutePayments => start.ExecuteStale?
    case CheckOutcomes => start.CheckOutcome?
  }

  /** Where the actors of a sweep start. */
  predicate Found(kind: Sweep, pc: Pc) {
    match kind
    case RecoverPayments => pc.CompleteSimulated?
    case ExecutePayments => pc.ReadQuote? && pc.row.None?
    case CheckOutcomes => pc.Repair? && pc.x.broadcast
  }

  /** The row behind the call satisfies the sweep's WHERE clause. */
  ghost predicate Meets(db: Db, pc: Pc) {
    match pc
    case CompleteSimulated(p) => HasStatus(db, p, Processing) && db.payments[p].req.mode == Simulated
    case ReadQuote(p, _) => HasStatus(db, p, Processing) && db.payments[p].req.mode == Testnet && p !in db.byPayment
    case Repair(x, tx) =>
      && x.id in db.executions && db.executions[x.id] == x
      && x.broadcast && !x.confirmed && x.signed == Some(tx)
    case _ => false
  }

  lemma SweepBegins(s: State, kind: Sweep, start: Start)
    requires CanBegin(s, start) && Asks(kind, start)
    requires start.CheckOutcome? ==> s.db.executions[start.id].id == start.id
    ensures var t := Beginning(s, start);
      && t.change == Nothing && t.next.Some? && Found(kind, t.next.value) && Meets(s.db, t.next.value)
      && Commit(s, Nothing) == s
  {
  }

  lemma RowHasItsId(fleet: set<Config>, s: State, id: ExecId)
    requires Inv(fleet, s) && id in s.db.executions
    ensures s.db.executions[id].id == id
  {
    hide Intake, Logged, Answered, Rows, Statuses, Signatures, Publishers, Actors;
    ReadRow(fleet, s, id);
  }

  lemma PublishedIsLogged(fleet: set<Config>, s: State, a: ActorId, event: EventId)
    requires Inv(fleet, s) && a in s.actors && s.actors[a].pc == MarkEvent(event)
    ensures event in s.db.outbox && s.db.outbox[event].payment in s.log
  {
    hide BaseUnits, SelectedQuote, Intake, Logged, Answered, Rows, Statuses, Signatures, Publishers;
  }

  class World {
    const fleet: set<Config>
    const store: Store
    var log: seq<PaymentId>
    var chain: Chain
    var clock: int
    var actors: map<ActorId, Actor>
    var h: History
    var acts: seq<Action>

    function State(): State
      reads this, store
    {
      Protocol.State(store.View(), log, chain, clock, actors, h)
    }

    /** The system got here by a run of the protocol. */
    ghost predicate Valid()
      reads this, store
    {
      Possible(fleet, acts) && State() == After(acts)
    }

    predicate At(a: ActorId, cfg: Config, pc: Pc)
      reads this
    {
      a in actors && actors[a] == Actor(cfg, pc)
    }

    /** The run went on, and only actor `a` of `mine` moved. */
    ghost predicate Ran(before: map<ActorId, Actor>, done: seq<Action>, a: ActorId, mine: set<ActorId>)
      reads this, store
    {
      Valid() && done <= acts && Same(before, actors, mine - {a}) && SameCalls(done, acts, mine - {a})
    }

    /** Actor `a` is where its turn leads it. */
    ghost predicate Went(a: ActorId, cfg: Config, next: Option<Pc>)
      reads this
    {
      if next.Some? then At(a, cfg, next.value) else a !in actors
    }

    /** Since `done`, actor `a` has made exactly this call. */
    ghost predicate Called(done: seq<Action>, a: ActorId, pc: Pc)
      reads this
    {
      Calls(acts, a) == Calls(done, a) + [pc]
    }

    /** Since `done`, actor `a` has made this call or none. */
    ghost predicate Tried(done: seq<Action>, a: ActorId, pc: Pc)
      reads this
    {
      Called(done, a, pc) || Calls(acts, a) == Calls(done, a)
    }

    constructor (fleet: set<Config>)
      ensures Valid() && State() == START && this.fleet == fleet && fresh(store)
    {
      this.fleet := fleet;
      store := new Store();
      log, chain, clock, actors, h, acts := START.log, START.chain, START.clock, START.actors, START.h, [];
    }

    /** The action happened; the tables already show it. */
    method Book(act: Action, s: State)
      requires Possible(fleet, acts) && s == After(acts) && Enabled(fleet, s, act) && store.View() == Apply(s, act).db
      modifies this
      ensures Valid() && State() == Apply(s, act) && acts == old(acts) + [act]
      ensures forall b :: Calls(acts, b) == CallsAfter(old(acts), s, act, b)
    {
      hide Enabled, Apply, Calls;
      var s' := Apply(s, act);
      log, chain, clock, actors, h, acts := s'.log, s'.chain, s'.clock, s'.actors, s'.h, acts + [act];
      assert acts[..|acts| - 1] == old(acts);
      forall b {
        CallsGrow(old(acts), act, b);
      }
    }

    /** Anything the others may do: other workers, the API, the chain, the clock, crashes and redeliveries. */
    method Others(mine: set<ActorId>)
      requires Valid()
      modifies this, store
      ensures Valid() && Same(old(actors), actors, mine) && old(acts) <= acts && SameCalls(old(acts), acts, mine)
    {
      hide Possible, After, Enabled, Apply, Calls;
      var budget: int := *;
      while budget > 0
        invariant Valid() && Same(old(actors), actors, mine) && old(acts) <= acts && SameCalls(old(acts), acts, mine)
      {
        budget := budget - 1;
        var act: Action := *;
        var s := State();
        if !Concerns(act, mine) && Enabled(fleet, s, act) {
          ActorsAfter(s, act, mine);
          store.Load(Apply(s, act).db);
          Book(act, s);
        }
      }
    }

    /** The actor stops for good: it returned, failed or died. */
    method Stop(a: ActorId, mine: set<ActorId>)
      requires Valid() && a in actors
      modifies this
      ensures Ran(old(actors), old(acts), a, mine) && a !in actors && Calls(acts, a) == Calls(old(acts), a)
      ensures log == old(log) && chain == old(chain)
    {
      hide Possible, After, Calls;
      Book(Crash(a), State());
    }

    /** The actor's last call took effect, but its answer may be lost. */
    method Returns(a: ActorId, mine: set<ActorId>) returns (ok: bool)
      requires Valid() && a in actors
      modifies this
      ensures Ran(old(actors), old(acts), a, mine) && Calls(acts, a) == Calls(old(acts), a)
      ensures if ok then actors == old(actors) else a !in actors
    {
      hide Possible, After, Calls;
      ok := *;
      if !ok { Stop(a, mine); }
    }

    /** Before the actor's next call the others may act; the call may also fail without any effect. */
    method Await(a: ActorId, mine: set<ActorId>) returns (ok: bool)
      requires Valid() && a in actors && a in mine
      modifies this, store
      ensures Ran(old(actors), old(acts), a, mine) && Calls(acts, a) == Calls(old(acts), a)
      ensures if ok then a in actors && actors[a] == old(actors)[a] else a !in actors
    {
      hide Possible, After, Calls;
      Others(mine);
      ok := Returns(a, mine);
    }

    /** The actor's call took effect on the tables; the rest of its effect follows. */
    method Turned(a: ActorId, cfg: Config, pc: Pc, o: Oracle, mine: set<ActorId>, s: State)
      requires Possible(fleet, acts) && s == After(acts) && a in s.actors && s.actors[a] == Actor(cfg, pc)
      requires OracleOk(s, pc, o)
      requires s.actors == actors && store.View() == Commit(s, Effect(s, cfg, pc, o).change).db
      modifies this
      ensures Ran(old(actors), old(acts), a, mine) && Went(a, cfg, Effect(s, cfg, pc, o).next)
      ensures Called(old(acts), a, pc)
      ensures h == Commit(s, Effect(s, cfg, pc, o).change).h
      ensures chain == Commit(s, Effect(s, cfg, pc, o).change).chain
      ensures log == Commit(s, Effect(s, cfg, pc, o).change).log && clock == s.clock
      ensures acts == old(acts) + [Step(a, o)]
    {
      hide Possible, After, Effect, Commit, OracleOk, Calls;
      ActorsOf(s, Effect(s, cfg, pc, o).change);
      Book(Step(a, o), s);
    }

    /** A call that only looks. */
    method Looked(a: ActorId, cfg: Config, pc: Pc, o: Oracle, mine: set<ActorId>)
      requires Valid() && At(a, cfg, pc) && OracleOk(State(), pc, o) && Effect(State(), cfg, pc, o).change == Nothing
      modifies this
      ensures Ran(old(actors), old(acts), a, mine) && Called(old(acts), a, pc)
      ensures Went(a, cfg, Effect(old(State()), cfg, pc, o).next) && chain == old(chain) && clock == old(clock)
      ensures acts == old(acts) + [Step(a, o)]
    {
      hide Possible, After, Effect, Commit, OracleOk, Calls;
      CommitNothing(State());
      Turned(a, cfg, pc, o, mine, State());
    }

    /** A guarded status update; it answers whether it affected a row. */
    method Move(a: ActorId, cfg: Config, pc: Pc, p: PaymentId, from: Status, to: Status, next: Option<Pc>,
                mine: set<ActorId>)
      returns (affected: Option<bool>)
      requires Valid() && At(a, cfg, pc) && Moves(pc, p, from, to, next) && a in mine
      modifies this, store
      ensures Ran(old(actors), old(acts), a, mine) && Tried(old(acts), a, pc)
      ensures Went(a, cfg, if affected.Some? then next else None)
      ensures affected.Some? ==> Called(old(acts), a, pc) && (from == Processing ==> Past(store.View(), p))
      ensures affected == Some(true) ==> HasStatus(store.View(), p, to) && !Finished(old(store.View()), p)
      ensures affected == Some(false) ==> !HasStatus(store.View(), p, from)
    {
      hide Possible, After, Effect, Commit, OracleOk, MoveStatus, Finished, Past, Moves, Inv, Calls;
      var ok := Await(a, mine);
      if !ok { return None; }
      var s, o: Oracle := State(), *;
      if Finished(old(store.View()), p) { StaysFinished(fleet, old(acts), acts, p); }
      WorldIsSafe(fleet, acts);
      MovedPast(fleet, s, a, p, from, to, next);
      MoveTurn(s, cfg, pc, p, from, to, next, o);
      var moved := store.UpdateStatus(p, from, to);
      Turned(a, cfg, pc, o, mine, s);
      affected := Some(moved);
    }

    // ---- Reads ----

    method GetQuoteByPaymentID(a: ActorId, cfg: Config, p: PaymentId, row: Option<Execution>, mine: set<ActorId>)
      returns (q: Option<QuoteRow>)
      requires Valid() && At(a, cfg, ReadQuote(p, row)) && a in mine
      modifies this, store
      ensures Ran(old(actors), old(acts), a, mine) && Tried(old(acts), a, ReadQuote(p, row))
      ensures Went(a, cfg, if q.Some? then Some(CheckExpiry(p, row, q.value)) else None)
    {
      hide Possible, After, Commit, SelectedQuote, Calls;
      var ok := Await(a, mine);
      if !ok { return None; }
      q := store.GetQuoteByPaymentID(p);
      var o: Oracle := *;
      Looked(a, cfg, ReadQuote(p, row), o, mine);
    }

    method Now(a: ActorId, cfg: Config, p: PaymentId, row: Option<Execution>, q: QuoteRow, mine: set<ActorId>)
      returns (now: int)
      requires Valid() && At(a, cfg, CheckExpiry(p, row, q)) && a in mine
      modifies this, store
      ensures Ran(old(actors), old(acts), a, mine) && Called(old(acts), a, CheckExpiry(p, row, q))
      ensures now == clock && ExpiryRead(old(acts), acts, a, p, row, q, now)
      ensures Went(a, cfg,
        if now > q.expiresAt then Some(FailPayment(p, "routing_quote_expired"))
        else if q.provider in cfg.providers then Some(ReadPayment(p, row, q)) else None)
    {
      hide Possible, After, Commit, Calls, ExpiryRead;
      Others(mine);
      now := clock;
      var o: Oracle := *;
      ReadsHere(old(acts), acts, a, cfg, p, row, q, now, o);
      Looked(a, cfg, CheckExpiry(p, row, q), o, mine);
    }

    method GetAmount(a: ActorId, cfg: Config, p: PaymentId, row: Option<Execution>, q: QuoteRow, mine: set<ActorId>)
      returns (amount: Option<string>)
      requires Valid() && At(a, cfg, ReadPayment(p, row, q)) && a in mine
      modifies this, store
      ensures Ran(old(actors), old(acts), a, mine) && Tried(old(acts), a, ReadPayment(p, row, q))
      ensures Went(a, cfg,
        if amount.Some? && BaseUnits(amount.value).Some?
        then Some(FetchQuote(p, row, q, BaseUnits(amount.value).value))
        else None)
    {
      hide Possible, After, Commit, BaseUnits, Calls;
      var ok := Await(a, mine);
      if !ok { return None; }
      amount := if p in store.payments then Some(store.payments[p].req.amount) else None;
      var o: Oracle := *;
      Looked(a, cfg, ReadPayment(p, row, q), o, mine);
    }

    /**
     * The provider's fresh quote for `amount`, and what its signer will build from it; neither touches shared state.
     */
    method FreshQuote(a: ActorId, cfg: Config, p: PaymentId, row: Option<Execution>, q: QuoteRow, amount: int,
                      mine: set<ActorId>)
      returns (r: Option<Oracle>)
      requires Valid() && At(a, cfg, FetchQuote(p, row, q, amount)) && a in mine
      modifies this, store
      ensures Ran(old(actors), old(acts), a, mine) && Tried(old(acts), a, FetchQuote(p, row, q, amount))
      ensures r.Some? ==> Called(old(acts), a, FetchQuote(p, row, q, amount))
      ensures Went(a, cfg, if r.Some? then AfterQuote(cfg, p, row, q, amount, r.value).next else None)
    {
      hide Possible, After, Commit, AfterQuote, Calls;
      var ok := Await(a, mine);
      if !ok { return None; }
      var o: Oracle := *;
      o := o.(offer := o.offer.(input := amount));
      QuoteIsLocal(cfg, p, row, q, amount, o);
      Looked(a, cfg, FetchQuote(p, row, q, amount), o, mine);
      r := Some(o);
    }

    // ---- Executor writes ----

    /** After the update, whether or not it affected a row, the payment is past PROCESSING. */
    method MarkProcessingFailed(a: ActorId, cfg: Config, p: PaymentId, reason: string, mine: set<ActorId>)
      returns (ok: bool)
      requires Valid() && At(a, cfg, FailPayment(p, reason)) && a in mine
      modifies this, store
      ensures Ran(old(actors), old(acts), a, mine) && a !in actors && Tried(old(acts), a, FailPayment(p, reason))
      ensures ok ==> Called(old(acts), a, FailPayment(p, reason)) && Past(store.View(), p)
    {
      hide Possible, After, Calls, Inv, Effect, Commit;
      ok := Await(a, mine);
      if !ok { return; }
      var s, o: Oracle := State(), *;
      WorldIsSafe(fleet, acts);
      WasClaimed(fleet, s, a, p);
      FailureTurn(s, cfg, p, reason, o);
      var _ := store.MarkProcessingFailed(p, reason);
      Turned(a, cfg, FailPayment(p, reason), o, mine, s);
    }

    /** `None` is a failed transaction; a lost race finds the payment's row in place. */
    method TryCreateExecution(a: ActorId, cfg: Config, p: PaymentId, q: QuoteRow, env: TxEnvelope, fee: int,
                              mine: set<ActorId>)
      returns (r: Option<Allocation>)
      requires Valid() && At(a, cfg, CreateExecution(p, q, env, fee)) && a in mine
      modifies this, store
      ensures Ran(old(actors), old(acts), a, mine) && Tried(old(acts), a, CreateExecution(p, q, env, fee))
      ensures r.Some? ==> Called(old(acts), a, CreateExecution(p, q, env, fee))
      ensures Went(a, cfg, if r.Some? && r.value.Allocated? then Some(Sign(r.value.row, env, fee)) else None)
      ensures r.Some? && r.value.Allocated? ==> r.value.row.payment == p
      ensures r == Some(AlreadyExists) ==> p in store.byPayment
    {
      hide Possible, After, InsertRow, Allocate, Effect, Commit, Calls;
      var ok := Await(a, mine);
      if !ok { return None; }
      var o: Oracle := *;
      if o.exec in store.executions { Stop(a, mine); return None; }
      var s := State();
      AllocationTurn(s, cfg, p, q, env, fee, o);
      var made := store.TryCreateExecution(o.exec, p, q.provider, cfg.wallet);
      Turned(a, cfg, CreateExecution(p, q, env, fee), o, mine, s);
      r := Some(made);
    }

    /** Gas price and gas limit come from the node; the signature is a function of the whole transaction. */
    method SignTx(a: ActorId, cfg: Config, x: Execution, env: TxEnvelope, fee: int, mine: set<ActorId>)
      returns (tx: Option<Tx>)
      requires Valid() && At(a, cfg, Sign(x, env, fee)) && a in mine
      modifies this, store
      ensures Ran(old(actors), old(acts), a, mine) && Tried(old(acts), a, Sign(x, env, fee))
      ensures Went(a, cfg, if tx.Some? then Some(Persist(x, tx.value)) else None)
      ensures tx.Some? ==>
        Called(old(acts), a, Sign(x, env, fee)) && Carries(tx.value, env, x, cfg)
    {
      hide Possible, After, Calls;
      var ok := Await(a, mine);
      if !ok { return None; }
      var o: Oracle := *;
      Turned(a, cfg, Sign(x, env, fee), o, mine, State());
      tx := Some(TxFor(cfg, x, env, o));
    }

    method PersistSignedExecution(a: ActorId, cfg: Config, x: Execution, tx: Tx, mine: set<ActorId>) returns (ok: bool)
      requires Valid() && At(a, cfg, Persist(x, tx)) && a in mine
      modifies this, store
      ensures Ran(old(actors), old(acts), a, mine) && Tried(old(acts), a, Persist(x, tx))
      ensures Went(a, cfg, if ok then Some(FindOnChain(x, tx)) else None)
      ensures ok ==> Called(old(acts), a, Persist(x, tx))
    {
      hide Possible, After, PersistSigned, Effect, Commit, Calls;
      ok := Await(a, mine);
      if !ok { return; }
      var s, o: Oracle := State(), *;
      PersistTurn(s, cfg, x, tx, o);
      store.PersistSignedExecution(x.id, tx);
      Turned(a, cfg, Persist(x, tx), o, mine, s);
      ok := Returns(a, mine);
    }

    /** `None` is a failed lookup; only a confirmed absence allows a send. */
    method TransactionByHash(a: ActorId, cfg: Config, x: Execution, tx: Tx, mine: set<ActorId>)
      returns (known: Option<bool>)
      requires Valid() && At(a, cfg, FindOnChain(x, tx)) && a in mine
      modifies this, store
      ensures Ran(old(actors), old(acts), a, mine) && Tried(old(acts), a, FindOnChain(x, tx))
      ensures Went(a, cfg,
        if known.None? then None else if known.value then Some(RecordBroadcast(x, tx)) else Some(Send(x, tx)))
      ensures known == Some(true) ==> tx in chain.known
    {
      hide Possible, After, Commit, Calls;
      var ok := Await(a, mine);
      if !ok { return None; }
      var o: Oracle := *;
      o := o.(found := o.found && tx in chain.known);
      Looked(a, cfg, FindOnChain(x, tx), o, mine);
      known := Some(o.found);
    }

    /** A failed send is ambiguous: the node may have taken the transaction. */
    method SendTransaction(a: ActorId, cfg: Config, x: Execution, tx: Tx, mine: set<ActorId>) returns (ok: bool)
      requires Valid() && At(a, cfg, Send(x, tx)) && a in mine
      modifies this, store
      ensures Ran(old(actors), old(acts), a, mine) && Tried(old(acts), a, Send(x, tx))
      ensures Went(a, cfg, if ok then Some(RecordBroadcast(x, tx)) else None)
      ensures ok ==> tx in chain.known && Stamp(x.payment, tx) in h.sends
    {
      hide Possible, After, Calls;
      ok := Await(a, mine);
      if !ok { return; }
      var o: Oracle := *;
      o := o.(ok := o.ok && o.accepted);
      Turned(a, cfg, Send(x, tx), o, mine, State());
      ok := o.ok;
    }

    method MarkExecutionBroadcast(a: ActorId, cfg: Config, x: Execution, tx: Tx, mine: set<ActorId>) returns (ok: bool)
      requires Valid() && At(a, cfg, RecordBroadcast(x, tx)) && a in mine
      modifies this, store
      ensures Ran(old(actors), old(acts), a, mine) && Tried(old(acts), a, RecordBroadcast(x, tx))
      ensures Went(a, cfg, if ok then Some(Submit(x)) else None)
      ensures ok ==> Called(old(acts), a, RecordBroadcast(x, tx))
    {
      hide Possible, After, MarkBroadcast, Effect, Commit, Calls;
      ok := Await(a, mine);
      if !ok { return; }
      var s, o: Oracle := State(), *;
      BroadcastTurn(s, cfg, x, tx, o);
      store.MarkExecutionBroadcast(x.id);
      Turned(a, cfg, RecordBroadcast(x, tx), o, mine, s);
      ok := Returns(a, mine);
    }

    /** After the update, whether or not it affected a row, the payment is past PROCESSING. */
    method MarkSubmitted(a: ActorId, cfg: Config, x: Execution, mine: set<ActorId>) returns (ok: bool)
      requires Valid() && At(a, cfg, Submit(x)) && a in mine
      modifies this, store
      ensures Ran(old(actors), old(acts), a, mine) && a !in actors && Tried(old(acts), a, Submit(x))
      ensures ok ==> Called(old(acts), a, Submit(x)) && Past(store.View(), x.payment)
    {
      hide Valid, Calls, Past;
      var affected := Move(a, cfg, Submit(x), x.payment, Processing, Submitted, None, mine);
      ok := affected.Some?;
    }

    // ---- Reconciler ----

    method RepairSubmitted(a: ActorId, cfg: Config, x: Execution, tx: Tx, mine: set<ActorId>) returns (ok: bool)
      requires Valid() && At(a, cfg, Repair(x, tx)) && a in mine
      modifies this, store
      ensures Ran(old(actors), old(acts), a, mine) && Tried(old(acts), a, Repair(x, tx))
      ensures Went(a, cfg, if ok then Some(ReadReceipt(x, tx)) else None)
      ensures ok ==> Called(old(acts), a, Repair(x, tx)) && Past(store.View(), x.payment)
    {
      hide Valid, Calls, Past;
      var affected := Move(a, cfg, Repair(x, tx), x.payment, Processing, Submitted, Some(ReadReceipt(x, tx)), mine);
      ok := affected.Some?;
    }

    /** Whether the transaction succeeded, once it is mined. */
    method TransactionReceipt(a: ActorId, cfg: Config, x: Execution, tx: Tx, mine: set<ActorId>)
      returns (status: Option<bool>)
      requires Valid() && At(a, cfg, ReadReceipt(x, tx)) && a in mine
      modifies this, store
      ensures Ran(old(actors), old(acts), a, mine) && Called(old(acts), a, ReadReceipt(x, tx))
      ensures status.Some? ==> SlotOf(tx) in chain.mined && chain.mined[SlotOf(tx)] == Receipt(tx, status.value)
      ensures Went(a, cfg,
        if status.None? then None
        else if !status.value then Some(RecordOutcome(x, tx, Reverted, Failed))
        else if x.provider in cfg.checkers then Some(AskProvider(x, tx)) else None)
    {
      hide Possible, After, Commit, Calls;
      Others(mine);
      var o: Oracle := *;
      o := o.(found := o.found && Mined(chain, tx));
      status := if o.found then Some(MinedOk(chain, tx)) else None;
      Looked(a, cfg, ReadReceipt(x, tx), o, mine);
    }

    /** The provider's answer; an API error reads like a pending one. */
    method CheckStatus(a: ActorId, cfg: Config, x: Execution, tx: Tx, mine: set<ActorId>) returns (e: ExternalStatus)
      requires Valid() && At(a, cfg, AskProvider(x, tx)) && a in mine
      modifies this, store
      ensures Ran(old(actors), old(acts), a, mine) && Called(old(acts), a, AskProvider(x, tx))
      ensures Went(a, cfg,
        if e == Pending then None
        else Some(RecordOutcome(x, tx, e, if e == Filled then Completed else Failed)))
    {
      hide Possible, After, Commit, Calls;
      Others(mine);
      var o: Oracle := *;
      e := o.external;
      Looked(a, cfg, AskProvider(x, tx), o, mine);
    }

    method UpdateExecutionExternalStatus(a: ActorId, cfg: Config, x: Execution, tx: Tx, e: ExternalStatus,
                                         terminal: Status,
                                         mine: set<ActorId>) returns (ok: bool)
      requires Valid() && At(a, cfg, RecordOutcome(x, tx, e, terminal)) && a in mine
      modifies this, store
      ensures Ran(old(actors), old(acts), a, mine) && Tried(old(acts), a, RecordOutcome(x, tx, e, terminal))
      ensures Went(a, cfg, if ok then Some(Complete(x, terminal)) else None)
      ensures ok ==> Called(old(acts), a, RecordOutcome(x, tx, e, terminal))
    {
      hide Possible, After, RecordExternal, Effect, Commit, Calls;
      ok := Await(a, mine);
      if !ok { return; }
      var s, o: Oracle := State(), *;
      OutcomeTurn(s, cfg, x, tx, e, terminal, o);
      store.UpdateExecutionExternalStatus(x.id, e);
      Turned(a, cfg, RecordOutcome(x, tx, e, terminal), o, mine, s);
      ok := Returns(a, mine);
    }

    /**
     * Answers whether the guarded update affected a row: then the payment
     * has its terminal status, else it was not SUBMITTED.
     */
    method CompleteSubmittedPayment(a: ActorId, cfg: Config, x: Execution, terminal: Status, mine: set<ActorId>)
      returns (completed: Option<bool>)
      requires Valid() && At(a, cfg, Complete(x, terminal)) && a in mine
      modifies this, store
      ensures Ran(old(actors), old(acts), a, mine) && a !in actors && Tried(old(acts), a, Complete(x, terminal))
      ensures completed.Some? ==> Called(old(acts), a, Complete(x, terminal))
      ensures completed == Some(true) ==>
        HasStatus(store.View(), x.payment, terminal) && !Finished(old(store.View()), x.payment)
      ensures completed == Some(false) ==> !HasStatus(store.View(), x.payment, Submitted)
    {
      hide Valid, Calls;
      completed := Move(a, cfg, Complete(x, terminal), x.payment, Submitted, terminal, None, mine);
    }

    // ---- Processor, recovery and publisher ----

    /** A new actor's first call took effect on the tables. */
    method Began(a: ActorId, cfg: Config, start: Start, mine: set<ActorId>, s: State)
      requires Possible(fleet, acts) && s == After(acts) && a !in s.actors && cfg in fleet && CanBegin(s, start)
      requires s.actors == actors && store.View() == Commit(s, Beginning(s, start).change).db
      modifies this
      ensures Ran(old(actors), old(acts), a, mine) && Went(a, cfg, Beginning(s, start).next)
      ensures Calls(acts, a) == Calls(old(acts), a) && acts == old(acts) + [Begin(a, cfg, start)]
    {
      hide Possible, After, Beginning, Commit, CanBegin, Calls;
      ActorsOf(s, Beginning(s, start).change);
      Book(Begin(a, cfg, start), s);
    }

    /** The claim of a delivered event: it answers the mode exactly for the delivery that wins it. */
    method ClaimPayment(a: ActorId, cfg: Config, p: PaymentId, mine: set<ActorId>)
      returns (mode: Result<Option<Mode>, string>)
      requires Valid() && a !in actors && a in mine && cfg in fleet
      modifies this, store
      ensures Ran(old(actors), old(acts), a, mine) && Calls(acts, a) == Calls(old(acts), a)
      ensures mode.Ok? && mode.value.Some? ==>
        && Wins(old(acts), acts, a, p) && HasStatus(store.View(), p, Processing)
        && store.payments[p].req.mode == mode.value.value
      ensures Went(a, cfg,
        match mode
        case Ok(Some(Simulated)) => Some(CompleteSimulated(p))
        case Ok(Some(Testnet)) => Some(ReadQuote(p, None))
        case _ => None)
    {
      hide Possible, After, Calls;
      Others(mine);
      var fails: bool := *;
      if fails || p !in log { return Err("claim payment"); }
      ghost var done := acts;
      var s := State();
      var claimed, m := store.ClaimPayment(p);
      ClaimView(s, p);
      Began(a, cfg, Deliver(p), mine, s);
      if claimed { WinsHere(old(acts), done, a, cfg, p); }
      mode := Ok(if claimed then Some(m) else None);
    }

    /** It answers whether it was this call that finished the payment. */
    method CompletePayment(a: ActorId, cfg: Config, p: PaymentId, mine: set<ActorId>) returns (completed: Option<bool>)
      requires Valid() && At(a, cfg, CompleteSimulated(p)) && a in mine
      modifies this, store
      ensures Ran(old(actors), old(acts), a, mine) && a !in actors && Tried(old(acts), a, CompleteSimulated(p))
      ensures completed.Some? ==> Called(old(acts), a, CompleteSimulated(p)) && Past(store.View(), p)
      ensures completed == Some(true) ==> HasStatus(store.View(), p, Outcome(p)) && !Finished(old(store.View()), p)
    {
      hide Valid, Outcome, Calls, Past, SimulatedExecutor.Succeeds, SimulatedExecutor.FailsByLastDigit;
      var result := SimulatedExecutor.Execute(p);
      OutcomeOf(p);
      var terminal := if result.success then Completed else Failed;
      completed := Move(a, cfg, CompleteSimulated(p), p, Processing, terminal, None, mine);
    }

    /** The oldest unpublished row nobody has locked, if the poll finds one. */
    method ClaimOutboxEvent(a: ActorId, cfg: Config, mine: set<ActorId>) returns (event: Option<EventId>)
      requires Valid() && a !in actors && a in mine && cfg in fleet
      modifies this, store
      ensures Ran(old(actors), old(acts), a, mine) && Calls(acts, a) == Calls(old(acts), a)
      ensures Went(a, cfg, if event.Some? then Some(PublishEvent(event.value)) else None)
    {
      hide Possible, After, Commit, Calls;
      Others(mine);
      var e: EventId := *;
      if !CanBegin(State(), PollOutbox(e)) { return None; }
      CommitNothing(State());
      Began(a, cfg, PollOutbox(e), mine, State());
      event := Some(e);
    }

    /** A failed publish may still have reached the log. */
    method Publish(a: ActorId, cfg: Config, event: EventId, mine: set<ActorId>) returns (ok: bool)
      requires Valid() && At(a, cfg, PublishEvent(event)) && a in mine
      modifies this, store
      ensures Ran(old(actors), old(acts), a, mine) && Tried(old(acts), a, PublishEvent(event))
      ensures Went(a, cfg, if ok then Some(MarkEvent(event)) else None)
      ensures ok ==> Called(old(acts), a, PublishEvent(event))
    {
      hide Possible, After, Calls;
      ok := Await(a, mine);
      if !ok { return; }
      var o: Oracle := *;
      Turned(a, cfg, PublishEvent(event), o, mine, State());
      ok := Returns(a, mine);
    }

    /** A row marked published has its payment in the log. */
    method MarkPublished(a: ActorId, cfg: Config, event: EventId, mine: set<ActorId>) returns (ok: bool)
      requires Valid() && At(a, cfg, MarkEvent(event)) && a in mine
      modifies this, store
      ensures Ran(old(actors), old(acts), a, mine) && a !in actors
      ensures ok ==> Called(old(acts), a, MarkEvent(event))
      ensures ok ==> event in store.outbox && store.outbox[event].published && store.outbox[event].payment in log
    {
      hide Possible, After, Calls, Inv;
      ok := Await(a, mine);
      if !ok { return; }
      var s, o: Oracle := State(), *;
      WorldIsSafe(fleet, acts);
      PublishedIsLogged(fleet, s, a, event);
      store.MarkOutboxPublished(event);
      Turned(a, cfg, MarkEvent(event), o, mine, s);
    }

    /**
     * Worker startup: the wallet's counter starts at the chain's count the first time, and is left alone ever after.
     */
    method SeedWalletNonce(wallet: Wallet, initial: int)
      requires Valid()
      modifies this, store
      ensures Valid() && old(acts) < acts && acts[|acts| - 1] == SeedNonce(wallet, initial)
      ensures wallet in store.wallets
      ensures wallet in old(store.wallets) ==> old(store.wallets[wallet]) <= store.wallets[wallet]
    {
      hide Possible, After, Past;
      Others({});
      NothingUndone(fleet, old(acts), acts);
      var s := State();
      store.SeedWalletNonce(wallet, initial);
      Book(SeedNonce(wallet, initial), s);
    }

    // ---- Intake ----

    method BeginCreate(a: ActorId, cfg: Config, d: Draft, mine: set<ActorId>)
      requires Valid() && a !in actors && a in mine && cfg in fleet
      modifies this, store
      ensures Ran(old(actors), old(acts), a, mine) && At(a, cfg, Lookup(d))
    {
      hide Possible, After, Commit, Calls;
      Others(mine);
      CommitNothing(State());
      Began(a, cfg, CallCreate(d), mine, State());
    }

    /** The optional first look; `None` means the key is still free. */
    method LookupKey(a: ActorId, cfg: Config, d: Draft, mine: set<ActorId>) returns (answer: Option<Answer>)
      requires Valid() && At(a, cfg, Lookup(d)) && a in mine
      modifies this, store
      ensures Ran(old(actors), old(acts), a, mine)
      ensures Went(a, cfg, if answer.None? then Some(Insert(d)) else None)
      ensures answer.Some? ==> Response(d, answer.value) in h.responses
    {
      hide Possible, After, KeyTaken, AnswerFor, Calls;
      Others(mine);
      answer := store.FindByIdempotencyKey(d);
      var o: Oracle := *;
      Turned(a, cfg, Lookup(d), o, mine, State());
    }

    method InsertPayment(a: ActorId, cfg: Config, d: Draft, mine: set<ActorId>) returns (r: Insertion, id: PaymentId)
      requires Valid() && At(a, cfg, Insert(d)) && a in mine
      modifies this, store
      ensures Ran(old(actors), old(acts), a, mine)
      ensures Went(a, cfg, if r == LostRace then Some(Reread(d)) else None)
      ensures r == Inserted ==> Response(d, Created(id)) in h.responses
    {
      hide Possible, After, KeyTaken, Insertable, Database.InsertPayment, Calls;
      Others(mine);
      var o: Oracle := *;
      id := o.payment;
      if o.payment in store.payments || o.event in store.outbox { Stop(a, mine); return Rejected, id; }
      var s := State();
      r := store.InsertPayment(d, o.payment, o.event);
      Turned(a, cfg, Insert(d), o, mine, s);
    }

    method RereadKey(a: ActorId, cfg: Config, d: Draft, mine: set<ActorId>) returns (answer: Option<Answer>)
      requires Valid() && At(a, cfg, Reread(d)) && a in mine
      modifies this, store
      ensures Ran(old(actors), old(acts), a, mine) && a !in actors
      ensures answer.Some? ==> Response(d, answer.value) in h.responses
    {
      hide Possible, After, KeyTaken, AnswerFor, Calls;
      Others(mine);
      answer := store.FindByIdempotencyKey(d);
      var o: Oracle := *;
      Turned(a, cfg, Reread(d), o, mine, State());
    }

    // ---- Sweeps ----

    /** One more row the query finds, if there is one. */
    method FindOne(cfg: Config, kind: Sweep, work: seq<Work>) returns (found: seq<Work>)
      requires Valid() && cfg in fleet && Waiting(cfg, kind, work, 0)
      modifies this
      ensures Valid() && old(acts) <= acts && Waiting(cfg, kind, found, 0) && store.View() == old(store.View())
      ensures found == work ||
        (|found| == |work| + 1 && found[..|work|] == work && Meets(store.View(), found[|work|].pc))
    {
      hide Possible, After, Commit, CanBegin, Beginning, Meets, Calls, Inv;
      found := work;
      var a: ActorId, start: Start := *, *;
      var s := State();
      if a !in actors && CanBegin(s, start) && Asks(kind, start) {
        WorldIsSafe(fleet, acts);
        if start.CheckOutcome? { OutcomeRow(s, start); RowHasItsId(fleet, s, start.id); }
        SweepBegins(s, kind, start);
        Began(a, cfg, start, Owners(work), s);
        found := work + [Work(a, Beginning(s, start).next.value)];
      }
    }

    /**
     * The rows a sweep's query finds at one moment, with an actor waiting on each; which rows count as stale is left
     * open.
     * All of them meet the query when it returns.
     */
    method Query(cfg: Config, kind: Sweep) returns (work: seq<Work>)
      requires Valid() && cfg in fleet
      modifies this, store
      ensures Valid() && old(acts) <= acts && Waiting(cfg, kind, work, 0)
      ensures forall k :: 0 <= k < |work| ==> Meets(store.View(), work[k].pc)
    {
      hide Possible, After, Meets, Calls;
      Others({});
      work := [];
      var budget: int := *;
      while budget > 0
        invariant Valid() && old(acts) <= acts && Waiting(cfg, kind, work, 0)
        invariant forall k :: 0 <= k < |work| ==> Meets(store.View(), work[k].pc)
      {
        budget := budget - 1;
        work := FindOne(cfg, kind, work);
      }
    }

    /** From index `from` on, every found row still has its own waiting actor. */
    ghost predicate Waiting(cfg: Config, kind: Sweep, work: seq<Work>, from: nat)
      reads this
    {
      && (forall i, j :: 0 <= i < j < |work| ==> work[i].a != work[j].a)
      && (forall k :: from <= k < |work| ==> At(work[k].a, cfg, work[k].pc))
      && (forall k :: 0 <= k < |work| ==> Found(kind, work[k].pc))
    }

    /** An actor id that is in use neither now nor in `used`. */
    method NewActor(used: set<ActorId>) returns (a: ActorId)
      ensures a !in actors && a !in used
    {
      a := 0;
      ghost var seen := {};
      while a in actors || a in used
        invariant seen <= actors.Keys + used && |seen| == a && forall b <- seen :: b < a
        decreases |actors.Keys + used| - a
      {
        NotMore(seen + {a}, actors.Keys + used);
        a, seen := a + 1, seen + {a};
      }
    }

    /** A stale candidate is read again before it is driven: the original executor may have finished meanwhile. */
    method Refetch(a: ActorId, cfg: Config, p: PaymentId, mine: set<ActorId>) returns (row: Option<Execution>)
      requires Valid() && a !in actors && a in mine && cfg in fleet
      modifies this, store
      ensures Ran(old(actors), old(acts), a, mine) && Calls(acts, a) == Calls(old(acts), a)
      ensures row.Some? ==>
        && p in store.byPayment && store.byPayment[p] in store.executions
        && store.executions[store.byPayment[p]] == row.value
        && row.value.payment == p && !row.value.broadcast
      ensures Went(a, cfg,
        if row.None? then None
        else if row.value.signed.Some? then Some(FindOnChain(row.value, row.value.signed.value))
        else Some(ReadQuote(row.value.payment, row)))
    {
      hide Possible, After, Commit, Calls, Inv;
      Others(mine);
      if p !in store.byPayment || store.byPayment[p] !in store.executions ||
         store.executions[store.byPayment[p]].broadcast {
        return None;
      }
      WorldIsSafe(fleet, acts);
      RowOfPayment(fleet, State(), p);
      row := Some(store.executions[store.byPayment[p]]);
      CommitNothing(State());
      Began(a, cfg, DriveForward(store.byPayment[p]), mine, State());
    }
  }

  lemma StateNow(w: World)
    requires w.Valid()
    ensures w.State() == After(w.acts)
  {
    hide Possible, After;
  }

  /** `NothingUndone` as the workers use it, from an earlier moment `seen` to now. */
  lemma StillSo(w: World, seen: seq<Action>)
    requires w.Valid() && seen <= w.acts
    ensures forall tx <- After(seen).chain.known :: tx in w.chain.known
    ensures forall k <- After(seen).chain.mined :: k in w.chain.mined && w.chain.mined[k] == After(seen).chain.mined[k]
    ensures forall p :: Past(After(seen).db, p) ==> Past(w.store.View(), p)
    ensures forall p <- After(seen).db.byPayment :: p in w.store.byPayment
  {
    hide Possible, After, Past;
    NothingUndone(w.fleet, seen, w.acts);
  }

  lemma StillFinished(w: World, seen: seq<Action>, p: PaymentId)
    requires w.Valid() && seen <= w.acts && Finished(After(seen).db, p)
    ensures Finished(w.store.View(), p) && w.store.payments[p] == After(seen).db.payments[p]
  {
    hide Possible, After;
    StaysFinished(w.fleet, seen, w.acts, p);
  }

  lemma {:induction false} NotMore(part: set<ActorId>, whole: set<ActorId>)
    requires part <= whole
    ensures |part| <= |whole|
  {
    if part != {} {
      var a :| a in part;
      NotMore(part - {a}, whole - {a});
    }
  }

  lemma OutcomeRow(s: State, start: Start)
    requires CanBegin(s, start) && start.CheckOutcome?
    ensures start.id in s.db.executions
  {
  }
}
