/** What every signature, failure and outcome of a run goes back to: earlier calls of the very actor that made it. */
module Provenance {
  import opened Common
  import opened Payments
  import opened Database
  import opened Protocol
  import opened Invariants
  import opened Safety
  import opened Theorems
  import Money

  /** Step `k` is this call of actor `a`. */
  ghost predicate CallAt(states: seq<State>, acts: seq<Action>, k: nat, a: ActorId, cfg: Config, pc: Pc) {
    && k < |acts| && k < |states| && acts[k].Step? && acts[k].a == a
    && a in states[k].actors && states[k].actors[a] == Actor(cfg, pc)
  }

  /** The actor made this call at step `k`, and has been there ever since. */
  ghost predicate Since(states: seq<State>, acts: seq<Action>, k: nat, i: nat, a: ActorId, cfg: Config, pc: Pc) {
    k < i < |states| && CallAt(states, acts, k, a, cfg, pc) && forall n :: k <= n <= i ==> a in states[n].actors
  }

  lemma SinceStays(states: seq<State>, acts: seq<Action>, k: nat, i: nat, a: ActorId, cfg: Config, pc: Pc)
    requires Since(states, acts, k, i, a, cfg, pc) && i + 1 < |states| && a in states[i + 1].actors
    ensures Since(states, acts, k, i + 1, a, cfg, pc)
  {
  }

  /** A call leads to the state and the next call that its effect gives. */
  lemma Moved(fleet: set<Config>, states: seq<State>, acts: seq<Action>, k: nat, a: ActorId, cfg: Config, pc: Pc)
    requires Run(fleet, states, acts) && CallAt(states, acts, k, a, cfg, pc)
    ensures |states| == |acts| + 1 && OracleOk(states[k], pc, acts[k].o)
    ensures var t := Effect(states[k], cfg, pc, acts[k].o);
      && states[k + 1].db == Commit(states[k], t.change).db && states[k + 1].h == Commit(states[k], t.change).h
      && (a in states[k + 1].actors <==> t.next.Some?)
      && (t.next.Some? ==> states[k + 1].actors[a] == Actor(cfg, t.next.value))
      && (t.next.Some? ==> Since(states, acts, k, k + 1, a, cfg, pc))
  {
    hide Run, Effect, Commit, OracleOk;
    RunNext(fleet, states, acts, k);
  }

  /** An actor that makes no call stays where it is, or is gone; one that appears has just begun. */
  lemma Unmoved(fleet: set<Config>, states: seq<State>, acts: seq<Action>, k: nat, a: ActorId)
    requires Run(fleet, states, acts) && k < |acts| && !(acts[k].Step? && acts[k].a == a)
    ensures |states| == |acts| + 1
    ensures a in states[k].actors && a in states[k + 1].actors ==> states[k + 1].actors[a] == states[k].actors[a]
    ensures a in states[k].actors && acts[k] != Crash(a) ==> a in states[k + 1].actors
    ensures a !in states[k].actors && a in states[k + 1].actors ==>
      && acts[k].Begin? && CanBegin(states[k], acts[k].start)
      && states[k + 1].db == Commit(states[k], Beginning(states[k], acts[k].start).change).db
      && Beginning(states[k], acts[k].start).next == Some(states[k + 1].actors[a].pc)
  {
    hide Run, Effect, Beginning, Commit, OracleOk, CanBegin;
    RunNext(fleet, states, acts, k);
    var s := states[k];
    match acts[k] {
      case Begin(b, _, start) => ActorsOf(s, Beginning(s, start).change);
      case Step(b, o) => if b in s.actors { ActorsOf(s, Effect(s, s.actors[b].cfg, s.actors[b].pc, o).change); }
      case Mine(tx, ok) => ActorsOf(s, MineTx(tx, ok));
      case SeedNonce(w, n) => ActorsOf(s, Seed(w, n));
      case _ =>
    }
  }

  // ---- The checks before a signature, and the reasons for giving up ----

  /** The expiry check of step `k` was passed: the clock it read had not gone past the quote. */
  ghost predicate Current(states: seq<State>, acts: seq<Action>, k: nat, i: nat, a: ActorId, cfg: Config,
                          p: PaymentId, row: Option<Execution>, q: QuoteRow) {
    && Since(states, acts, k, i, a, cfg, CheckExpiry(p, row, q))
    && states[k].clock <= q.expiresAt && q.provider in cfg.providers
  }

  /** The fresh quote and the envelope the signer built from it may be signed. */
  ghost predicate Signable(cfg: Config, q: QuoteRow, amount: int, o: Oracle, env: TxEnvelope, fee: int) {
    && o.offer.available && o.offer.provider == q.provider && o.offer.input == amount && o.offer.fee == fee
    && FeeWithin(q.fee, fee, cfg.slippageBps)
    && (cfg.maxAmount.Some? ==> amount <= cfg.maxAmount.value)
    && q.provider in cfg.signers && o.built == Some(env)
    && env.chainId == cfg.originChainId && env.value == amount
    && q.provider in cfg.contracts && env.to == cfg.contracts[q.provider]
  }

  /** Where the checks were made, and on what. */
  datatype Checks = Checks(expiry: nat, quote: nat, row: Option<Execution>, q: QuoteRow, amount: int)

  ghost predicate Vetted(states: seq<State>, acts: seq<Action>, i: nat, a: ActorId, cfg: Config, p: PaymentId,
                         env: TxEnvelope, fee: int, c: Checks) {
    && c.expiry < c.quote && Current(states, acts, c.expiry, i, a, cfg, p, c.row, c.q)
    && Since(states, acts, c.quote, i, a, cfg, FetchQuote(p, c.row, c.q, c.amount))
    && Signable(cfg, c.q, c.amount, acts[c.quote].o, env, fee)
  }

  /** The answer to the quote request that makes the executor give up, and the reason it records. */
  ghost predicate Refuses(cfg: Config, row: Option<Execution>, q: QuoteRow, amount: int, offer: FreshQuote,
                          reason: string) {
    || (reason == "route_unavailable" && row.None? && !offer.available)
    || (reason == "fee_slippage_exceeded" && row.None? && offer.available
        && !FeeWithin(q.fee, offer.fee, cfg.slippageBps))
    || (reason == "amount_exceeds_guardrail" && offer.available && FeeWithin(q.fee, offer.fee, cfg.slippageBps)
        && cfg.maxAmount.Some? && amount > cfg.maxAmount.value)
  }

  datatype Refusal = Refusal(at: nat, row: Option<Execution>, q: QuoteRow, amount: int)

  ghost predicate Refused(states: seq<State>, acts: seq<Action>, i: nat, a: ActorId, cfg: Config, p: PaymentId,
                          reason: string, r: Refusal) {
    || (Since(states, acts, r.at, i, a, cfg, CheckExpiry(p, r.row, r.q))
        && reason == "routing_quote_expired" && states[r.at].clock > r.q.expiresAt)
    || (Since(states, acts, r.at, i, a, cfg, FetchQuote(p, r.row, r.q, r.amount))
        && Refuses(cfg, r.row, r.q, r.amount, acts[r.at].o.offer, reason))
  }

  /** What a driver's position says about its own past. */
  ghost predicate Vouched(states: seq<State>, acts: seq<Action>, i: nat, a: ActorId)
    requires i < |states| && a in states[i].actors
  {
    var cfg := states[i].actors[a].cfg;
    match states[i].actors[a].pc
    case ReadPayment(p, row, q) => exists k :: Current(states, acts, k, i, a, cfg, p, row, q)
    case FetchQuote(p, row, q, _) => exists k :: Current(states, acts, k, i, a, cfg, p, row, q)
    case CreateExecution(p, q, env, fee) =>
      exists c :: Vetted(states, acts, i, a, cfg, p, env, fee, c) && c.row == None && c.q == q
    case Sign(x, env, fee) =>
      exists c :: Vetted(states, acts, i, a, cfg, x.payment, env, fee, c) && (c.row.Some? ==> c.row.value == x)
    case FailPayment(p, reason) => exists r :: Refused(states, acts, i, a, cfg, p, reason, r)
    case _ => true
  }

  lemma VettedStays(states: seq<State>, acts: seq<Action>, i: nat, a: ActorId, cfg: Config, p: PaymentId,
                    env: TxEnvelope, fee: int, c: Checks)
    requires Vetted(states, acts, i, a, cfg, p, env, fee, c) && i + 1 < |states| && a in states[i + 1].actors
    ensures Vetted(states, acts, i + 1, a, cfg, p, env, fee, c)
  {
    hide Signable;
  }

  lemma RefusedStays(states: seq<State>, acts: seq<Action>, i: nat, a: ActorId, cfg: Config, p: PaymentId,
                     reason: string, r: Refusal)
    requires Refused(states, acts, i, a, cfg, p, reason, r) && i + 1 < |states| && a in states[i + 1].actors
    ensures Refused(states, acts, i + 1, a, cfg, p, reason, r)
  {
    hide Refuses;
  }

  lemma VouchedStays(states: seq<State>, acts: seq<Action>, i: nat, a: ActorId)
    requires i + 1 < |states| && a in states[i].actors && a in states[i + 1].actors
    requires states[i + 1].actors[a] == states[i].actors[a] && Vouched(states, acts, i, a)
    ensures Vouched(states, acts, i + 1, a)
  {
    hide Since, Signable, Refuses;
    var cfg := states[i].actors[a].cfg;
    match states[i].actors[a].pc
    case ReadPayment(p, row, q) =>
      var k :| Current(states, acts, k, i, a, cfg, p, row, q);
      SinceStays(states, acts, k, i, a, cfg, CheckExpiry(p, row, q));
      assert Current(states, acts, k, i + 1, a, cfg, p, row, q);
    case FetchQuote(p, row, q, _) =>
      var k :| Current(states, acts, k, i, a, cfg, p, row, q);
      SinceStays(states, acts, k, i, a, cfg, CheckExpiry(p, row, q));
      assert Current(states, acts, k, i + 1, a, cfg, p, row, q);
    case CreateExecution(p, q, env, fee) =>
      var c :| Vetted(states, acts, i, a, cfg, p, env, fee, c) && c.row == None && c.q == q;
      VettedStays(states, acts, i, a, cfg, p, env, fee, c);
    case Sign(x, env, fee) =>
      var c :| Vetted(states, acts, i, a, cfg, x.payment, env, fee, c) && (c.row.Some? ==> c.row.value == x);
      VettedStays(states, acts, i, a, cfg, x.payment, env, fee, c);
    case FailPayment(p, reason) =>
      var r :| Refused(states, acts, i, a, cfg, p, reason, r);
      RefusedStays(states, acts, i, a, cfg, p, reason, r);
    case _ =>
  }

  lemma ExpiryStep(fleet: set<Config>, states: seq<State>, acts: seq<Action>, i: nat, a: ActorId, cfg: Config,
                   p: PaymentId, row: Option<Execution>, q: QuoteRow)
    requires Run(fleet, states, acts) && CallAt(states, acts, i, a, cfg, CheckExpiry(p, row, q))
    ensures |states| == |acts| + 1 && (a in states[i + 1].actors ==> Vouched(states, acts, i + 1, a))
    ensures states[i].clock > q.expiresAt ==>
      a in states[i + 1].actors && states[i + 1].actors[a] == Actor(cfg, FailPayment(p, "routing_quote_expired"))
  {
    hide Run, Commit;
    Moved(fleet, states, acts, i, a, cfg, CheckExpiry(p, row, q));
    if a in states[i + 1].actors {
      if states[i].clock > q.expiresAt {
        assert Refused(states, acts, i + 1, a, cfg, p, "routing_quote_expired", Refusal(i, row, q, 0));
      } else {
        assert Current(states, acts, i, i + 1, a, cfg, p, row, q);
      }
    }
  }

  lemma AmountStep(fleet: set<Config>, states: seq<State>, acts: seq<Action>, i: nat, a: ActorId, cfg: Config,
                   p: PaymentId, row: Option<Execution>, q: QuoteRow)
    requires Run(fleet, states, acts) && CallAt(states, acts, i, a, cfg, ReadPayment(p, row, q))
    requires Vouched(states, acts, i, a)
    ensures |states| == |acts| + 1 && (a in states[i + 1].actors ==> Vouched(states, acts, i + 1, a))
  {
    hide Run, Commit, BaseUnits, Since;
    Moved(fleet, states, acts, i, a, cfg, ReadPayment(p, row, q));
    if a in states[i + 1].actors {
      var k :| Current(states, acts, k, i, a, cfg, p, row, q);
      SinceStays(states, acts, k, i, a, cfg, CheckExpiry(p, row, q));
      assert Current(states, acts, k, i + 1, a, cfg, p, row, q);
    }
  }

  /** The checks after the fresh quote, on its fields. */
  lemma AfterQuoteIs(cfg: Config, p: PaymentId, row: Option<Execution>, q: QuoteRow, amount: int, o: Oracle)
    requires o.offer.available ==> o.offer.input == amount
    ensures var next := AfterQuote(cfg, p, row, q, amount, o).next;
      && (next.Some? && next.value.FailPayment? ==>
        next.value.p == p && Refuses(cfg, row, q, amount, o.offer, next.value.reason))
      && (forall reason :: Refuses(cfg, row, q, amount, o.offer, reason) ==> next == Some(FailPayment(p, reason)))
      && (next.Some? && next.value.CreateExecution? ==>
        && row.None? && next.value.p == p && next.value.q == q
        && Signable(cfg, q, amount, o, next.value.env, next.value.fee))
      && (next.Some? && next.value.Sign? ==>
        row == Some(next.value.x) && Signable(cfg, q, amount, o, next.value.env, next.value.fee))
      && (forall env, fee :: Signable(cfg, q, amount, o, env, fee) ==>
        next == Some(if row.None? then CreateExecution(p, q, env, fee) else Sign(row.value, env, fee)))
      && (next.Some? ==> next.value.FailPayment? || next.value.CreateExecution? || next.value.Sign?)
      && (row.Some? && (!o.offer.available || !FeeWithin(q.fee, o.offer.fee, cfg.slippageBps)) ==> next.None?)
  {
    hide ExceedsSlippageTolerance, FeeWithin;
    FeeExactly(q.fee, o.offer.fee, cfg.slippageBps);
  }

  lemma QuoteStepVouched(fleet: set<Config>, states: seq<State>, acts: seq<Action>, i: nat, a: ActorId, cfg: Config,
                         p: PaymentId, row: Option<Execution>, q: QuoteRow, amount: int)
    requires Run(fleet, states, acts) && CallAt(states, acts, i, a, cfg, FetchQuote(p, row, q, amount))
    requires Vouched(states, acts, i, a) && (row.Some? ==> row.value.payment == p)
    ensures |states| == |acts| + 1 && (a in states[i + 1].actors ==> Vouched(states, acts, i + 1, a))
  {
    hide Run, Commit, AfterQuote, Since, Signable, Refuses;
    Moved(fleet, states, acts, i, a, cfg, FetchQuote(p, row, q, amount));
    var o := acts[i].o;
    AfterQuoteIs(cfg, p, row, q, amount, o);
    if a in states[i + 1].actors {
      var k :| Current(states, acts, k, i, a, cfg, p, row, q);
      SinceStays(states, acts, k, i, a, cfg, CheckExpiry(p, row, q));
      BeforeNow(states, acts, k, i, a, cfg, CheckExpiry(p, row, q));
      match states[i + 1].actors[a].pc
      case FailPayment(_, reason) =>
        assert Refused(states, acts, i + 1, a, cfg, p, reason, Refusal(i, row, q, amount));
      case CreateExecution(_, _, env, fee) =>
        assert Vetted(states, acts, i + 1, a, cfg, p, env, fee, Checks(k, i, row, q, amount));
      case Sign(_, env, fee) =>
        assert Vetted(states, acts, i + 1, a, cfg, p, env, fee, Checks(k, i, row, q, amount));
    }
  }

  lemma BeforeNow(states: seq<State>, acts: seq<Action>, k: nat, i: nat, a: ActorId, cfg: Config, pc: Pc)
    requires Since(states, acts, k, i, a, cfg, pc)
    ensures k < i
  {
  }

  lemma CreateStepVouched(fleet: set<Config>, states: seq<State>, acts: seq<Action>, i: nat, a: ActorId, cfg: Config,
                          p: PaymentId, q: QuoteRow, env: TxEnvelope, fee: int)
    requires Run(fleet, states, acts) && CallAt(states, acts, i, a, cfg, CreateExecution(p, q, env, fee))
    requires Vouched(states, acts, i, a)
    ensures |states| == |acts| + 1 && (a in states[i + 1].actors ==> Vouched(states, acts, i + 1, a))
  {
    hide Run, Commit, Since, Signable, Vetted;
    Moved(fleet, states, acts, i, a, cfg, CreateExecution(p, q, env, fee));
    if a in states[i + 1].actors {
      var c :| Vetted(states, acts, i, a, cfg, p, env, fee, c) && c.row == None && c.q == q;
      VettedStays(states, acts, i, a, cfg, p, env, fee, c);
    }
  }

  /** The other calls, and every beginning, lead nowhere that needs vouching for. */
  predicate Unchecked(pc: Pc) {
    !pc.ReadPayment? && !pc.FetchQuote? && !pc.CreateExecution? && !pc.Sign? && !pc.FailPayment?
  }

  lemma OtherSteps(s: State, cfg: Config, pc: Pc, o: Oracle)
    requires !pc.CheckExpiry? && !pc.ReadPayment? && !pc.FetchQuote? && !pc.CreateExecution?
    ensures var next := Effect(s, cfg, pc, o).next; next.Some? ==> Unchecked(next.value)
  {
    hide BaseUnits, SelectedQuote, AnswerFor, KeyTaken, Insertable, Outcome, MinedOk, TxFor;
  }

  lemma Beginnings(s: State, start: Start)
    requires CanBegin(s, start)
    ensures var next := Beginning(s, start).next; next.Some? ==> Unchecked(next.value)
  {
  }

  lemma ActorKnows(fleet: set<Config>, states: seq<State>, acts: seq<Action>, i: nat, a: ActorId)
    requires Run(fleet, states, acts) && i < |states| && a in states[i].actors
    ensures ActorOk(states[i], states[i].actors[a].cfg, states[i].actors[a].pc)
  {
    hide Run, ActorOk, Intake, Logged, Answered, Rows, Statuses, Signatures, Publishers;
    RunSafe(fleet, states, acts, i);
  }

  lemma StepVouched(fleet: set<Config>, states: seq<State>, acts: seq<Action>, i: nat, a: ActorId)
    requires Run(fleet, states, acts) && i < |acts| && |states| == |acts| + 1 && acts[i].Step? && acts[i].a == a
    requires a in states[i].actors && Vouched(states, acts, i, a) && a in states[i + 1].actors
    ensures Vouched(states, acts, i + 1, a)
  {
    hide Run, Vouched, Effect, Commit, OracleOk, Since, ActorOk;
    var cfg, pc := states[i].actors[a].cfg, states[i].actors[a].pc;
    Moved(fleet, states, acts, i, a, cfg, pc);
    match pc
    case CheckExpiry(p, row, q) => ExpiryStep(fleet, states, acts, i, a, cfg, p, row, q);
    case ReadPayment(p, row, q) => AmountStep(fleet, states, acts, i, a, cfg, p, row, q);
    case FetchQuote(p, row, q, amount) =>
      ActorKnows(fleet, states, acts, i, a);
      ResumesItsOwn(states[i], cfg, pc);
      QuoteStepVouched(fleet, states, acts, i, a, cfg, p, row, q, amount);
    case CreateExecution(p, q, env, fee) => CreateStepVouched(fleet, states, acts, i, a, cfg, p, q, env, fee);
    case _ =>
      OtherSteps(states[i], cfg, pc, acts[i].o);
      UncheckedIsVouched(states, acts, i + 1, a);
  }

  lemma ResumesItsOwn(s: State, cfg: Config, pc: Pc)
    requires ActorOk(s, cfg, pc) && pc.FetchQuote?
    ensures pc.row.Some? ==> pc.row.value.payment == pc.p
  {
    hide BaseUnits, RowRead, QuoteIs, Claimed;
  }

  lemma UncheckedIsVouched(states: seq<State>, acts: seq<Action>, i: nat, a: ActorId)
    requires i < |states| && a in states[i].actors && Unchecked(states[i].actors[a].pc)
    ensures Vouched(states, acts, i, a)
  {
    hide Current, Vetted, Refused;
  }

  /** At every moment of every run, each driver's position is vouched for by its own earlier calls. */
  lemma {:induction false} RunVouched(fleet: set<Config>, states: seq<State>, acts: seq<Action>, i: nat, a: ActorId)
    requires Run(fleet, states, acts) && i < |states| && a in states[i].actors
    ensures Vouched(states, acts, i, a)
  {
    hide Vouched, Beginning, CanBegin, Commit, Apply, Enabled;
    if i > 0 {
      var k := i - 1;
      RunNext(fleet, states, acts, k);
      if acts[k].Step? && acts[k].a == a {
        StepsWhereItIs(fleet, states, acts, k, a);
        RunVouched(fleet, states, acts, k, a);
        StepVouched(fleet, states, acts, k, a);
      } else {
        Unmoved(fleet, states, acts, k, a);
        if a in states[k].actors {
          RunVouched(fleet, states, acts, k, a);
          VouchedStays(states, acts, k, a);
        } else {
          Beginnings(states[k], acts[k].start);
          UncheckedIsVouched(states, acts, i, a);
        }
      }
    }
  }

  lemma StepsWhereItIs(fleet: set<Config>, states: seq<State>, acts: seq<Action>, k: nat, a: ActorId)
    requires Run(fleet, states, acts) && k < |acts| && acts[k].Step? && acts[k].a == a
    ensures k < |states| && a in states[k].actors
  {
    hide Run, OracleOk, Apply;
    RunNext(fleet, states, acts, k);
  }

  // ---- What was stored before it was sent ----

  /** In state `k` the row `x` came from held exactly these bytes. */
  ghost predicate HeldAt(states: seq<State>, k: nat, x: Execution, tx: Tx) {
    && k < |states| && x.id in states[k].db.executions
    && states[k].db.executions[x.id].signed == Some(tx) && states[k].db.executions[x.id].payment == x.payment
  }

  predicate Brings(pc: Pc) {
    pc.FindOnChain? || pc.Send? || pc.RecordBroadcast?
  }

  ghost predicate Stored(states: seq<State>, i: nat, a: ActorId)
    requires i < |states| && a in states[i].actors
  {
    var pc := states[i].actors[a].pc;
    Brings(pc) ==> exists k: nat :: k <= i && HeldAt(states, k, pc.x, pc.tx)
  }

  lemma BringsFrom(s: State, cfg: Config, pc: Pc, o: Oracle)
    ensures var t := Effect(s, cfg, pc, o);
      t.next.Some? && Brings(t.next.value) ==>
        || (Brings(pc) && t.next.value.x == pc.x && t.next.value.tx == pc.tx)
        || (pc == Persist(t.next.value.x, t.next.value.tx) && t.change == StoreTx(pc.x.id, pc.tx))
  {
    hide BaseUnits, SelectedQuote, AnswerFor, KeyTaken, Insertable, Outcome, MinedOk, TxFor, AfterQuote, Allocate;
    if pc.FetchQuote? { QuoteNeverBrings(cfg, pc.p, pc.row, pc.q, pc.amount, o); }
  }

  lemma QuoteNeverBrings(cfg: Config, p: PaymentId, row: Option<Execution>, q: QuoteRow, amount: int, o: Oracle)
    ensures var next := AfterQuote(cfg, p, row, q, amount, o).next; next.Some? ==> !Brings(next.value)
  {
    hide ExceedsSlippageTolerance, ValidEnvelope;
  }

  lemma PersistHolds(s: State, cfg: Config, x: Execution, tx: Tx)
    requires ActorOk(s, cfg, Persist(x, tx))
    ensures var db := Commit(s, StoreTx(x.id, tx)).db;
      x.id in db.executions && db.executions[x.id].signed == Some(tx) && db.executions[x.id].payment == x.payment
  {
  }

  lemma BeginHolds(fleet: set<Config>, s: State, start: Start)
    requires Inv(fleet, s) && CanBegin(s, start)
    ensures var t := Beginning(s, start);
      t.next.Some? && Brings(t.next.value) ==>
        var x, tx := t.next.value.x, t.next.value.tx;
        && Commit(s, t.change).db == s.db && x.id in s.db.executions
        && s.db.executions[x.id] == x && x.signed == Some(tx)
  {
    hide Intake, Logged, Answered, Rows, Statuses, Signatures, Publishers, Actors;
    if start.DriveForward? { ReadRow(fleet, s, start.id); }
  }

  /** Whatever an actor is about to bring out was in its row at some earlier moment. */
  lemma {:induction false} RunStored(fleet: set<Config>, states: seq<State>, acts: seq<Action>, i: nat, a: ActorId)
    requires Run(fleet, states, acts) && i < |states| && a in states[i].actors
    ensures Stored(states, i, a)
  {
    hide Beginning, CanBegin, Commit, Apply, Enabled, Effect, OracleOk, Inv, ActorOk, HeldAt, Since;
    if i > 0 && Brings(states[i].actors[a].pc) {
      var k := i - 1;
      var pc' := states[i].actors[a].pc;
      RunNext(fleet, states, acts, k);
      if acts[k].Step? && acts[k].a == a {
        StepsWhereItIs(fleet, states, acts, k, a);
        RunStored(fleet, states, acts, k, a);
        var cfg, pc := states[k].actors[a].cfg, states[k].actors[a].pc;
        Moved(fleet, states, acts, k, a, cfg, pc);
        BringsFrom(states[k], cfg, pc, acts[k].o);
        if pc == Persist(pc'.x, pc'.tx) {
          ActorKnows(fleet, states, acts, k, a);
          PersistHolds(states[k], cfg, pc.x, pc.tx);
          HeldNow(states, i, pc'.x, pc'.tx);
        } else {
          var j: nat :| j <= k && HeldAt(states, j, pc.x, pc.tx);
        }
      } else {
        Unmoved(fleet, states, acts, k, a);
        if a in states[k].actors {
          RunStored(fleet, states, acts, k, a);
          var j: nat :| j <= k && HeldAt(states, j, pc'.x, pc'.tx);
        } else {
          RunSafe(fleet, states, acts, k);
          BeginHolds(fleet, states[k], acts[k].start);
          HeldNow(states, i, pc'.x, pc'.tx);
        }
      }
    }
  }

  lemma HeldNow(states: seq<State>, k: nat, x: Execution, tx: Tx)
    requires k < |states| && x.id in states[k].db.executions
    requires states[k].db.executions[x.id].signed == Some(tx) && states[k].db.executions[x.id].payment == x.payment
    ensures HeldAt(states, k, x, tx)
  {
  }

  // ---- What a recorded outcome rests on ----

  /** The receipt or the provider's answer, read at step `k`, that gives this outcome. */
  ghost predicate Grounded(states: seq<State>, acts: seq<Action>, k: nat, i: nat, a: ActorId, cfg: Config,
                           x: Execution, tx: Tx, e: ExternalStatus, terminal: Status) {
    || (Since(states, acts, k, i, a, cfg, ReadReceipt(x, tx))
        && SlotOf(tx) in states[k].chain.mined && states[k].chain.mined[SlotOf(tx)] == Receipt(tx, false)
        && e == Reverted && terminal == Failed)
    || (Since(states, acts, k, i, a, cfg, AskProvider(x, tx))
        && SlotOf(tx) in states[k].chain.mined && states[k].chain.mined[SlotOf(tx)] == Receipt(tx, true)
        && acts[k].o.external == e && e != Pending && terminal == if e == Filled then Completed else Failed)
  }

  datatype Finding = Finding(at: nat, recorded: nat, tx: Tx, e: ExternalStatus)

  ghost predicate RestsOn(states: seq<State>, acts: seq<Action>, i: nat, a: ActorId, cfg: Config, x: Execution,
                        terminal: Status, f: Finding) {
    && f.at < f.recorded && Grounded(states, acts, f.at, i, a, cfg, x, f.tx, f.e, terminal)
    && Since(states, acts, f.recorded, i, a, cfg, RecordOutcome(x, f.tx, f.e, terminal))
  }

  ghost predicate Founded(states: seq<State>, acts: seq<Action>, i: nat, a: ActorId)
    requires i < |states| && a in states[i].actors
  {
    var cfg := states[i].actors[a].cfg;
    match states[i].actors[a].pc
    case RecordOutcome(x, tx, e, terminal) => exists k :: Grounded(states, acts, k, i, a, cfg, x, tx, e, terminal)
    case Complete(x, terminal) => exists f :: RestsOn(states, acts, i, a, cfg, x, terminal, f)
    case _ => true
  }

  lemma GroundedStays(states: seq<State>, acts: seq<Action>, k: nat, i: nat, a: ActorId, cfg: Config,
                      x: Execution, tx: Tx, e: ExternalStatus, terminal: Status)
    requires Grounded(states, acts, k, i, a, cfg, x, tx, e, terminal) && i + 1 < |states| && a in states[i + 1].actors
    ensures Grounded(states, acts, k, i + 1, a, cfg, x, tx, e, terminal) && k < i
  {
  }

  lemma FoundedStays(states: seq<State>, acts: seq<Action>, i: nat, a: ActorId)
    requires i + 1 < |states| && a in states[i].actors && a in states[i + 1].actors
    requires states[i + 1].actors[a] == states[i].actors[a] && Founded(states, acts, i, a)
    ensures Founded(states, acts, i + 1, a)
  {
    hide Since, Grounded;
    var cfg := states[i].actors[a].cfg;
    match states[i].actors[a].pc
    case RecordOutcome(x, tx, e, terminal) =>
      var k :| Grounded(states, acts, k, i, a, cfg, x, tx, e, terminal);
      GroundedStays(states, acts, k, i, a, cfg, x, tx, e, terminal);
    case Complete(x, terminal) =>
      var f :| RestsOn(states, acts, i, a, cfg, x, terminal, f);
      GroundedStays(states, acts, f.at, i, a, cfg, x, f.tx, f.e, terminal);
      SinceStays(states, acts, f.recorded, i, a, cfg, RecordOutcome(x, f.tx, f.e, terminal));
      assert RestsOn(states, acts, i + 1, a, cfg, x, terminal, f);
    case _ =>
  }

  /** Which calls lead to an outcome. */
  lemma FoundFrom(s: State, cfg: Config, pc: Pc, o: Oracle)
    requires OracleOk(s, pc, o) && (pc.AskProvider? ==> MinedOk(s.chain, pc.tx))
    ensures var next := Effect(s, cfg, pc, o).next;
      && (next.Some? && next.value.Complete? ==> pc.RecordOutcome? && next.value == Complete(pc.x, pc.terminal))
      && (next.Some? && next.value.RecordOutcome? ==>
        && (pc.ReadReceipt? || pc.AskProvider?) && pc.x == next.value.x && pc.tx == next.value.tx
        && SlotOf(pc.tx) in s.chain.mined && s.chain.mined[SlotOf(pc.tx)].tx == pc.tx
        && if pc.ReadReceipt?
           then !s.chain.mined[SlotOf(pc.tx)].ok && next.value.e == Reverted && next.value.terminal == Failed
           else s.chain.mined[SlotOf(pc.tx)].ok && o.external == next.value.e && next.value.e != Pending
                && next.value.terminal == if next.value.e == Filled then Completed else Failed)
  {
    hide BaseUnits, SelectedQuote, AnswerFor, KeyTaken, Insertable, Outcome, TxFor, AfterQuote, Allocate;
    if pc.FetchQuote? { QuoteNeverConcludes(cfg, pc.p, pc.row, pc.q, pc.amount, o); }
  }

  lemma QuoteNeverConcludes(cfg: Config, p: PaymentId, row: Option<Execution>, q: QuoteRow, amount: int, o: Oracle)
    ensures var next := AfterQuote(cfg, p, row, q, amount, o).next;
      next.Some? ==> !next.value.RecordOutcome? && !next.value.Complete?
  {
    hide ExceedsSlippageTolerance, ValidEnvelope;
  }

  lemma AskedAfterReceipt(s: State, cfg: Config, pc: Pc)
    requires ActorOk(s, cfg, pc)
    ensures pc.AskProvider? ==> MinedOk(s.chain, pc.tx)
  {
    hide BaseUnits, SelectedQuote, MinedOk;
  }

  lemma BeginsUndecided(s: State, start: Start)
    requires CanBegin(s, start)
    ensures var next := Beginning(s, start).next; next.Some? ==> !next.value.RecordOutcome? && !next.value.Complete?
  {
  }

  lemma StepFounded(fleet: set<Config>, states: seq<State>, acts: seq<Action>, i: nat, a: ActorId)
    requires Run(fleet, states, acts) && i < |acts| && |states| == |acts| + 1 && acts[i].Step? && acts[i].a == a
    requires a in states[i].actors && Founded(states, acts, i, a) && a in states[i + 1].actors
    ensures Founded(states, acts, i + 1, a)
  {
    hide Run, Effect, Commit, OracleOk, ActorOk, MinedOk;
    var cfg, pc := states[i].actors[a].cfg, states[i].actors[a].pc;
    Moved(fleet, states, acts, i, a, cfg, pc);
    ActorKnows(fleet, states, acts, i, a);
    AskedAfterReceipt(states[i], cfg, pc);
    FoundFrom(states[i], cfg, pc, acts[i].o);
    match states[i + 1].actors[a].pc
    case RecordOutcome(x, tx, e, terminal) =>
      assert Grounded(states, acts, i, i + 1, a, cfg, x, tx, e, terminal);
    case Complete(x, terminal) =>
      var k :| Grounded(states, acts, k, i, a, cfg, x, pc.tx, pc.e, terminal);
      GroundedStays(states, acts, k, i, a, cfg, x, pc.tx, pc.e, terminal);
      assert RestsOn(states, acts, i + 1, a, cfg, x, terminal, Finding(k, i, pc.tx, pc.e));
    case _ =>
  }

  /** At every moment of every run, an outcome about to be recorded or completed rests on what its actor read. */
  lemma {:induction false} RunFounded(fleet: set<Config>, states: seq<State>, acts: seq<Action>, i: nat, a: ActorId)
    requires Run(fleet, states, acts) && i < |states| && a in states[i].actors
    ensures Founded(states, acts, i, a)
  {
    hide Founded, Beginning, CanBegin, Commit, Apply, Enabled;
    if i > 0 {
      var k := i - 1;
      RunNext(fleet, states, acts, k);
      if acts[k].Step? && acts[k].a == a {
        StepsWhereItIs(fleet, states, acts, k, a);
        RunFounded(fleet, states, acts, k, a);
        StepFounded(fleet, states, acts, k, a);
      } else {
        Unmoved(fleet, states, acts, k, a);
        if a in states[k].actors {
          RunFounded(fleet, states, acts, k, a);
          FoundedStays(states, acts, k, a);
        } else {
          BeginsUndecided(states[k], acts[k].start);
          UndecidedIsFounded(states, acts, i, a);
        }
      }
    }
  }

  lemma UndecidedIsFounded(states: seq<State>, acts: seq<Action>, i: nat, a: ActorId)
    requires i < |states| && a in states[i].actors
    requires !states[i].actors[a].pc.RecordOutcome? && !states[i].actors[a].pc.Complete?
    ensures Founded(states, acts, i, a)
  {
    hide Grounded, RestsOn;
  }

  // ---- Where the entries of the history come from ----

  /** Which call makes which change. */
  lemma Causes(s: State, cfg: Config, pc: Pc, o: Oracle)
    ensures var c := Effect(s, cfg, pc, o).change;
      && (c.SignTx? ==> pc.Sign? && c == SignTx(pc.x.payment, TxFor(cfg, pc.x, pc.env, o), Terms(pc.fee, cfg)))
      && (c.SendTx? ==> pc.Send? && c.p == pc.x.payment && c.tx == pc.tx)
      && (c.FailWith? ==> pc == FailPayment(c.p, c.reason))
      && (c.MovePayment? && c.from == Submitted ==> pc.Complete? && c.p == pc.x.payment && c.to == pc.terminal)
  {
    hide BaseUnits, SelectedQuote, AnswerFor, KeyTaken, Insertable, Outcome, MinedOk, TxFor, AfterQuote, Allocate;
    if pc.FetchQuote? { QuoteChangesNothing(cfg, pc.p, pc.row, pc.q, pc.amount, o); }
  }

  lemma QuoteChangesNothing(cfg: Config, p: PaymentId, row: Option<Execution>, q: QuoteRow, amount: int, o: Oracle)
    ensures AfterQuote(cfg, p, row, q, amount, o).change == Nothing
  {
    hide ExceedsSlippageTolerance, ValidEnvelope;
  }

  lemma BeginningsClaim(s: State, start: Start)
    requires CanBegin(s, start)
    ensures var c := Beginning(s, start).change;
      c == Nothing || (c.MovePayment? && c.from == Routed && c.to == Processing)
  {
  }

  lemma HistoryOf(s: State, c: Change)
    ensures Commit(s, c).h.terms == if c.SignTx? then s.h.terms[Stamp(c.p, c.tx) := c.terms] else s.h.terms
    ensures Commit(s, c).h.sends == if c.SendTx? then s.h.sends + {Stamp(c.p, c.tx)} else s.h.sends
  {
    hide InsertPayment, MarkPublished, MoveStatus, FailProcessing, InsertRow, PersistSigned, MarkBroadcast,
      RecordExternal, SeedWallet;
  }

  /** The transaction is the envelope's, under the row's nonce and the signing worker's wallet. */
  predicate Carries(tx: Tx, env: TxEnvelope, x: Execution, cfg: Config) {
    && tx.data == env.data && tx.to == env.to && tx.value == env.value && tx.chainId == env.chainId
    && tx.sender == cfg.wallet && tx.nonce == x.nonce
  }

  /** A signing: where, by whom, of which row and envelope. */
  datatype Signing = Signing(at: nat, a: ActorId, cfg: Config, x: Execution, env: TxEnvelope, fee: int)

  ghost predicate SignedAt(states: seq<State>, acts: seq<Action>, i: nat, st: Stamp, g: Signing) {
    && g.at < i && CallAt(states, acts, g.at, g.a, g.cfg, Sign(g.x, g.env, g.fee))
    && g.x.payment == st.p && Carries(st.tx, g.env, g.x, g.cfg)
  }

  /** Every entry of the terms was made by a signing of those terms. */
  lemma {:induction false} TermsOrigin(fleet: set<Config>, states: seq<State>, acts: seq<Action>, i: nat, st: Stamp)
    returns (g: Signing)
    requires Run(fleet, states, acts) && i < |states| && st in states[i].h.terms
    ensures SignedAt(states, acts, i, st, g) && states[i].h.terms[st] == Terms(g.fee, g.cfg)
  {
    hide Inv, Apply, Enabled, Commit, Effect, Beginning, CanBegin, Justified;
    if i > 0 {
      var k := i - 1;
      if st in states[k].h.terms && states[k].h.terms[st] == states[i].h.terms[st] {
        g := TermsOrigin(fleet, states, acts, k, st);
      } else {
        g := NewTerms(fleet, states, acts, k, st);
      }
    }
  }

  lemma NewTerms(fleet: set<Config>, states: seq<State>, acts: seq<Action>, k: nat, st: Stamp) returns (g: Signing)
    requires Run(fleet, states, acts) && k + 1 < |states| && st in states[k + 1].h.terms
    requires st in states[k].h.terms ==> states[k].h.terms[st] != states[k + 1].h.terms[st]
    ensures SignedAt(states, acts, k + 1, st, g) && states[k + 1].h.terms[st] == Terms(g.fee, g.cfg)
  {
    hide Run, Inv, Apply, Enabled, Commit, Effect, Beginning, CanBegin, Justified;
    RunLength(fleet, states, acts);
    RunNext(fleet, states, acts, k);
    RunSafe(fleet, states, acts, k);
    var c := ActionChange(fleet, states[k], acts[k]);
    HistoryOf(states[k], c);
    if acts[k].Begin? { BeginningsClaim(states[k], acts[k].start); }
    var actor := states[k].actors[acts[k].a];
    Causes(states[k], actor.cfg, actor.pc, acts[k].o);
    g := Signing(k, acts[k].a, actor.cfg, actor.pc.x, actor.pc.env, actor.pc.fee);
  }

  lemma RunLength(fleet: set<Config>, states: seq<State>, acts: seq<Action>)
    requires Run(fleet, states, acts)
    ensures |states| == |acts| + 1 && states[0] == START
  {
  }

  /** Every transaction sent was sent by a call for its payment. */
  lemma {:induction false} SendOrigin(fleet: set<Config>, states: seq<State>, acts: seq<Action>, i: nat, st: Stamp)
    returns (k: nat, a: ActorId, cfg: Config, x: Execution)
    requires Run(fleet, states, acts) && i < |states| && st in states[i].h.sends
    ensures k < i && CallAt(states, acts, k, a, cfg, Send(x, st.tx)) && x.payment == st.p
  {
    hide Inv, Apply, Enabled, Commit, Effect, Beginning, CanBegin, Justified;
    if i > 0 {
      if st in states[i - 1].h.sends {
        k, a, cfg, x := SendOrigin(fleet, states, acts, i - 1, st);
      } else {
        k := i - 1;
        a, cfg, x := NewSend(fleet, states, acts, k, st);
      }
    }
  }

  lemma NewSend(fleet: set<Config>, states: seq<State>, acts: seq<Action>, k: nat, st: Stamp)
    returns (a: ActorId, cfg: Config, x: Execution)
    requires Run(fleet, states, acts) && k + 1 < |states| && st in states[k + 1].h.sends && st !in states[k].h.sends
    ensures CallAt(states, acts, k, a, cfg, Send(x, st.tx)) && x.payment == st.p
  {
    hide Run, Inv, Apply, Enabled, Commit, Effect, Beginning, CanBegin, Justified;
    RunLength(fleet, states, acts);
    RunNext(fleet, states, acts, k);
    RunSafe(fleet, states, acts, k);
    var c := ActionChange(fleet, states[k], acts[k]);
    HistoryOf(states[k], c);
    if acts[k].Begin? { BeginningsClaim(states[k], acts[k].start); }
    a := acts[k].a;
    cfg := states[k].actors[a].cfg;
    Causes(states[k], cfg, states[k].actors[a].pc, acts[k].o);
    x := states[k].actors[a].pc.x;
  }

  // ---- The theorems ----

  /**
   * Whatever crashes and resumes led to it, a transaction that was sent was signed by a worker that had itself found
   * the routing-time quote unexpired and then got a fresh one within tolerance and ceiling. It carries the very
   * envelope the worker's signer built then, to the pinned contract on the origin chain, and pays the number first
   * asked for, in base units. And it had been stored in the payment's row before it was sent.
   */
  lemma SentWithinTerms(fleet: set<Config>, states: seq<State>, acts: seq<Action>, i: nat, st: Stamp)
    returns (g: Signing, c: Checks, held: nat, row: Execution, req: Request)
    requires Run(fleet, states, acts) && i < |states| && st in states[i].h.sends
    ensures SignedAt(states, acts, i, st, g) && g.cfg in fleet
    ensures Vetted(states, acts, g.at, g.a, g.cfg, st.p, g.env, g.fee, c)
    ensures RoutedQuote(states[i], st.p, c.q) && RoutedRequest(states[i], st.p, req)
    ensures st.tx.chainId == g.cfg.originChainId && st.tx.sender == g.cfg.wallet
    ensures c.q.provider in g.cfg.contracts && st.tx.to == g.cfg.contracts[c.q.provider]
    ensures Money.Numeral(req.amount) && |Money.FracPart(req.amount)| <= 18
    ensures st.tx.value == Money.Numerator(req.amount) * Money.Pow10(18 - |Money.FracPart(req.amount)|)
    ensures st.tx.value > 0 && (g.cfg.maxAmount.Some? ==> st.tx.value <= g.cfg.maxAmount.value)
    ensures held < i && HeldAt(states, held, row, st.tx) && row.payment == st.p
  {
    hide Run, Inv, BaseUnits, SelectedQuote, Acceptable, Money.Numeral, Money.Numerator, Money.Pow10, Money.FracPart,
      HeldAt, Since, FeeWithin, ActorOk, RoutedQuote, RoutedRequest;
    RunSafe(fleet, states, acts, i);
    SentTerms(fleet, states[i], st);
    g := TermsOrigin(fleet, states, acts, i, st);
    RunVouched(fleet, states, acts, g.at, g.a);
    c :| Vetted(states, acts, g.at, g.a, g.cfg, st.p, g.env, g.fee, c);
    QuoteIsRouted(fleet, states, acts, i, st.p, g.at, g.a, g.cfg, c);
    CreatedWith(fleet, states[i], st.p);
    req := states[i].db.payments[st.p].req;
    PaysTheNumber(req);
    held, row := StoredBeforeSent(fleet, states, acts, i, st);
  }

  lemma PaysTheNumber(req: Request)
    requires Acceptable(req)
    ensures Money.Numeral(req.amount) && BaseUnits(req.amount).Some? && BaseUnits(req.amount).value > 0
    ensures |Money.FracPart(req.amount)| <= 18
    ensures BaseUnits(req.amount).value == Money.Numerator(req.amount) * Money.Pow10(18 - |Money.FracPart(req.amount)|)
  {
    hide BaseUnits, Money.Numeral, Money.Numerator, Money.Pow10, Money.FracPart;
    AmountInUnits(req.amount);
  }

  lemma QuoteIsRouted(fleet: set<Config>, states: seq<State>, acts: seq<Action>, i: nat, p: PaymentId,
                      at: nat, a: ActorId, cfg: Config, c: Checks)
    requires Run(fleet, states, acts) && at <= i < |states|
    requires Current(states, acts, c.expiry, at, a, cfg, p, c.row, c.q)
    ensures RoutedQuote(states[i], p, c.q)
  {
    hide Run, Inv, ActorOk, RoutedQuote, SelectedQuote, RowForward, HistoryEvolves;
    ActorKnows(fleet, states, acts, c.expiry, a);
    KnowsItsQuote(states[c.expiry], cfg, CheckExpiry(p, c.row, c.q));
    RunEvolves(fleet, states, acts, c.expiry, i);
    RunSafe(fleet, states, acts, i);
    CreatedWith(fleet, states[i], p);
  }

  lemma KnowsItsQuote(s: State, cfg: Config, pc: Pc)
    requires ActorOk(s, cfg, pc) && (pc.CheckExpiry? || pc.FetchQuote?)
    ensures pc.p in s.db.payments && pc.p in s.db.quotes && SelectedQuote(s.db.quotes[pc.p]) == Some(pc.q)
  {
    hide BaseUnits, SelectedQuote, RowRead;
  }

  lemma StoredBeforeSent(fleet: set<Config>, states: seq<State>, acts: seq<Action>, i: nat, st: Stamp)
    returns (held: nat, row: Execution)
    requires Run(fleet, states, acts) && i < |states| && st in states[i].h.sends
    ensures held < i && HeldAt(states, held, row, st.tx) && row.payment == st.p
  {
    hide Run, HeldAt;
    var k, a, cfg, x := SendOrigin(fleet, states, acts, i, st);
    RunStored(fleet, states, acts, k, a);
    held :| held <= k && HeldAt(states, held, x, st.tx);
    row := x;
  }

  lemma StatusHistory(fleet: set<Config>, states: seq<State>, acts: seq<Action>, k: nat, p: PaymentId)
    requires Run(fleet, states, acts) && k + 1 < |states| && p in states[k].db.payments
    requires p in states[k + 1].db.payments
    requires states[k + 1].db.payments[p] != states[k].db.payments[p]
    ensures |states| == |acts| + 1
    ensures var x, y := states[k].db.payments[p], states[k + 1].db.payments[p];
      && (y.failureReason != x.failureReason ==>
        && acts[k].Step? && acts[k].a in states[k].actors && y.failureReason.Some? && x.status == Processing
        && states[k].actors[acts[k].a].pc == FailPayment(p, y.failureReason.value))
      && (y.failureReason == x.failureReason && x.status == Submitted ==>
        && acts[k].Step? && acts[k].a in states[k].actors && states[k].actors[acts[k].a].pc.Complete?
        && states[k].actors[acts[k].a].pc.x.payment == p && states[k].actors[acts[k].a].pc.terminal == y.status)
      && (y.failureReason == x.failureReason && x.status == Processing && x.req.mode == Testnet ==>
          y.status == Submitted)
      && (x.status == Routed ==> y.status == Processing && y.failureReason == x.failureReason)
  {
    hide Run, Inv, Apply, Enabled, Commit, Effect, Beginning, CanBegin, Justified, Outcome;
    RunLength(fleet, states, acts);
    RunNext(fleet, states, acts, k);
    RunSafe(fleet, states, acts, k);
    var c := ActionChange(fleet, states[k], acts[k]);
    StatusChange(fleet, states[k], c, p);
    StatusFacts(fleet, states[k], p);
    if acts[k].Begin? { BeginningsClaim(states[k], acts[k].start); }
    if acts[k].Step? {
      var actor := states[k].actors[acts[k].a];
      Causes(states[k], actor.cfg, actor.pc, acts[k].o);
    }
  }

  lemma NewPaymentIsRouted(fleet: set<Config>, states: seq<State>, acts: seq<Action>, k: nat, p: PaymentId)
    requires Run(fleet, states, acts) && k + 1 < |states| && p !in states[k].db.payments
    requires p in states[k + 1].db.payments
    ensures states[k + 1].db.payments[p].status == Routed && states[k + 1].db.payments[p].failureReason.None?
  {
    hide Run, Inv, Apply, Enabled, Commit, Effect, Beginning, CanBegin, Justified;
    RunLength(fleet, states, acts);
    RunNext(fleet, states, acts, k);
    RunSafe(fleet, states, acts, k);
    var c := ActionChange(fleet, states[k], acts[k]);
    PaymentsOf(states[k], c, p);
  }

  lemma PaymentsOf(s: State, c: Change, p: PaymentId)
    requires p !in s.db.payments && p in Commit(s, c).db.payments
    ensures Commit(s, c).db.payments[p].status == Routed && Commit(s, c).db.payments[p].failureReason.None?
  {
  }

  /** The reason a payment failed for was found by the very actor that failed it, on the routing-time quote. */
  lemma FailedForItsReason(fleet: set<Config>, states: seq<State>, acts: seq<Action>, i: nat, p: PaymentId)
    returns (k: nat, a: ActorId, cfg: Config, r: Refusal)
    requires Run(fleet, states, acts) && i < |states|
    requires p in states[i].db.payments && states[i].db.payments[p].failureReason.Some?
    ensures k < i && HasStatus(states[k].db, p, Processing)
    ensures var reason := states[i].db.payments[p].failureReason.value;
      CallAt(states, acts, k, a, cfg, FailPayment(p, reason)) && Refused(states, acts, k, a, cfg, p, reason, r)
    ensures RoutedQuote(states[i], p, r.q)
  {
    hide Run, Inv, Refused, RoutedQuote;
    k := FailureOrigin(fleet, states, acts, i, p);
    a := acts[k].a;
    cfg := states[k].actors[a].cfg;
    var reason := states[i].db.payments[p].failureReason.value;
    RunVouched(fleet, states, acts, k, a);
    r :| Refused(states, acts, k, a, cfg, p, reason, r);
    RefusedQuote(fleet, states, acts, i, k, a, cfg, p, reason, r);
  }

  lemma RefusedQuote(fleet: set<Config>, states: seq<State>, acts: seq<Action>, i: nat, k: nat, a: ActorId, cfg: Config,
                     p: PaymentId, reason: string, r: Refusal)
    requires Run(fleet, states, acts) && k <= i < |states| && Refused(states, acts, k, a, cfg, p, reason, r)
    ensures RoutedQuote(states[i], p, r.q)
  {
    hide Run, Inv, ActorOk, RoutedQuote, SelectedQuote, RowForward, HistoryEvolves, Refuses;
    ActorKnows(fleet, states, acts, r.at, a);
    KnowsItsQuote(states[r.at], cfg, states[r.at].actors[a].pc);
    RunEvolves(fleet, states, acts, r.at, i);
    RunSafe(fleet, states, acts, i);
    CreatedWith(fleet, states[i], p);
  }

  lemma {:induction false} FailureOrigin(fleet: set<Config>, states: seq<State>, acts: seq<Action>, i: nat,
                                         p: PaymentId)
    returns (k: nat)
    requires Run(fleet, states, acts) && i < |states|
    requires p in states[i].db.payments && states[i].db.payments[p].failureReason.Some?
    ensures k < i && k < |acts| && HasStatus(states[k].db, p, Processing) && acts[k].Step?
    ensures acts[k].a in states[k].actors
    ensures states[k].actors[acts[k].a].pc == FailPayment(p, states[i].db.payments[p].failureReason.value)
  {
    hide Inv, Apply, Enabled;
    if i > 0 {
      k := i - 1;
      if p !in states[k].db.payments {
        NewPaymentIsRouted(fleet, states, acts, k, p);
      } else if states[k].db.payments[p].failureReason == states[i].db.payments[p].failureReason {
        k := FailureOrigin(fleet, states, acts, k, p);
      } else {
        StatusHistory(fleet, states, acts, k, p);
      }
    }
  }

  /**
   * A testnet payment that ended without a reason ended as the receipt
   * and the provider say, read by the actor that ended it.
   */
  lemma OutcomeIsFounded(fleet: set<Config>, states: seq<State>, acts: seq<Action>, i: nat, p: PaymentId)
    returns (k: nat, a: ActorId, cfg: Config, x: Execution, f: Finding)
    requires Run(fleet, states, acts) && i < |states| && p in states[i].db.payments
    requires states[i].db.payments[p].req.mode == Testnet && Terminal(states[i].db.payments[p].status)
    requires states[i].db.payments[p].failureReason.None?
    ensures k < i && HasStatus(states[k].db, p, Submitted) && x.payment == p
    ensures CallAt(states, acts, k, a, cfg, Complete(x, states[i].db.payments[p].status))
    ensures RestsOn(states, acts, k, a, cfg, x, states[i].db.payments[p].status, f)
  {
    hide Run, RestsOn;
    k := OutcomeOrigin(fleet, states, acts, i, p);
    a := acts[k].a;
    cfg := states[k].actors[a].cfg;
    x := states[k].actors[a].pc.x;
    RunFounded(fleet, states, acts, k, a);
    f :| RestsOn(states, acts, k, a, cfg, x, states[i].db.payments[p].status, f);
  }

  lemma {:induction false} OutcomeOrigin(fleet: set<Config>, states: seq<State>, acts: seq<Action>, i: nat,
                                         p: PaymentId)
    returns (k: nat)
    requires Run(fleet, states, acts) && i < |states| && p in states[i].db.payments
    requires states[i].db.payments[p].req.mode == Testnet && Terminal(states[i].db.payments[p].status)
    requires states[i].db.payments[p].failureReason.None?
    ensures k < i && k < |acts| && HasStatus(states[k].db, p, Submitted) && acts[k].Step?
    ensures acts[k].a in states[k].actors
    ensures var pc := states[k].actors[acts[k].a].pc;
      pc.Complete? && pc.x.payment == p && pc.terminal == states[i].db.payments[p].status
  {
    hide Inv, Apply, Enabled;
    if i > 0 {
      k := i - 1;
      if p !in states[k].db.payments {
        NewPaymentIsRouted(fleet, states, acts, k, p);
      } else if states[k].db.payments[p] == states[i].db.payments[p] {
        k := OutcomeOrigin(fleet, states, acts, k, p);
      } else {
        StatusHistory(fleet, states, acts, k, p);
        StatusOnlyMovesForward(fleet, states, acts, k, i, p);
      }
    }
  }

  /** No call and no crash of actor `a` from step `k` up to step `i`. */
  ghost predicate Quiet(acts: seq<Action>, k: nat, i: nat, a: ActorId) {
    forall n :: k <= n < i && n < |acts| ==> !(acts[n].Step? && acts[n].a == a) && acts[n] != Crash(a)
  }

  lemma {:induction false} StaysPut(fleet: set<Config>, states: seq<State>, acts: seq<Action>, k: nat, i: nat,
                                    a: ActorId)
    requires Run(fleet, states, acts) && k <= i < |states| && a in states[k].actors && Quiet(acts, k, i, a)
    ensures a in states[i].actors && states[i].actors[a] == states[k].actors[a]
    decreases i - k
  {
    hide Run, CanBegin, Beginning, Commit;
    if k < i {
      RunLength(fleet, states, acts);
      StaysPut(fleet, states, acts, k, i - 1, a);
      Unmoved(fleet, states, acts, i - 1, a);
    }
  }

  /** The check made at step `k` came out badly, for this reason. */
  ghost predicate RefusedAt(states: seq<State>, acts: seq<Action>, k: nat, a: ActorId, cfg: Config, p: PaymentId,
                            reason: string, row: Option<Execution>, q: QuoteRow, amount: int) {
    || (CallAt(states, acts, k, a, cfg, CheckExpiry(p, row, q))
        && reason == "routing_quote_expired" && states[k].clock > q.expiresAt)
    || (CallAt(states, acts, k, a, cfg, FetchQuote(p, row, q, amount))
        && Refuses(cfg, row, q, amount, acts[k].o.offer, reason))
  }

  /**
   * A driver whose check came out badly, with or without a row, ends the payment for that reason with its next call.
   */
  lemma RefusalEnds(fleet: set<Config>, states: seq<State>, acts: seq<Action>, k: nat, i: nat, a: ActorId, cfg: Config,
                    p: PaymentId, reason: string, row: Option<Execution>, q: QuoteRow, amount: int)
    requires Run(fleet, states, acts) && RefusedAt(states, acts, k, a, cfg, p, reason, row, q, amount)
    requires k < i < |acts| && Quiet(acts, k + 1, i, a) && acts[i].Step? && acts[i].a == a
    ensures |states| == |acts| + 1 && a !in states[i + 1].actors
    ensures HasStatus(states[i].db, p, Processing) ==>
      && p in states[i + 1].db.payments
      && states[i + 1].db.payments[p] == states[i].db.payments[p].(status := Failed, failureReason := Some(reason))
    ensures !HasStatus(states[i].db, p, Processing) ==> states[i + 1].db == states[i].db
  {
    hide Run, Commit, Effect, OracleOk, Refuses, Since, Quiet;
    RunLength(fleet, states, acts);
    RefusalStops(fleet, states, acts, k, a, cfg, p, reason, row, q, amount);
    StaysPut(fleet, states, acts, k + 1, i, a);
    Moved(fleet, states, acts, i, a, cfg, FailPayment(p, reason));
    FailureTurn(states[i], cfg, p, reason, acts[i].o);
  }

  lemma FailureTurn(s: State, cfg: Config, p: PaymentId, reason: string, o: Oracle)
    ensures var t := Effect(s, cfg, FailPayment(p, reason), o);
      t.next.None? && Commit(s, t.change).db ==
        if HasStatus(s.db, p, Processing)
        then s.db.(payments := s.db.payments[p := s.db.payments[p].(status := Failed, failureReason := Some(reason))])
        else s.db
  {
  }

  lemma RefusalStops(fleet: set<Config>, states: seq<State>, acts: seq<Action>, k: nat, a: ActorId, cfg: Config,
                     p: PaymentId, reason: string, row: Option<Execution>, q: QuoteRow, amount: int)
    requires Run(fleet, states, acts) && RefusedAt(states, acts, k, a, cfg, p, reason, row, q, amount)
    ensures k + 1 < |states| && a in states[k + 1].actors
    ensures states[k + 1].actors[a] == Actor(cfg, FailPayment(p, reason))
  {
    hide Run, Commit, AfterQuote, Since, Refuses;
    if CallAt(states, acts, k, a, cfg, CheckExpiry(p, row, q)) {
      ExpiryStep(fleet, states, acts, k, a, cfg, p, row, q);
    } else {
      Moved(fleet, states, acts, k, a, cfg, FetchQuote(p, row, q, amount));
      AfterQuoteIs(cfg, p, row, q, amount, acts[k].o);
    }
  }

  // ---- What the rows show ----

  /** A row is confirmed exactly when it shows an outcome. */
  ghost predicate Shown(db: Db) {
    forall id <- db.executions :: db.executions[id].confirmed <==> db.executions[id].external != Pending
  }

  lemma RecordedOutcome(s: State, cfg: Config, pc: Pc, o: Oracle)
    ensures var c := Effect(s, cfg, pc, o).change; c.RecordExt? ==> pc.RecordOutcome? && c.id == pc.x.id && c.e == pc.e
  {
    hide BaseUnits, SelectedQuote, AnswerFor, KeyTaken, Insertable, Outcome, MinedOk, TxFor, AfterQuote, Allocate;
    if pc.FetchQuote? { QuoteChangesNothing(cfg, pc.p, pc.row, pc.q, pc.amount, o); }
  }

  lemma ShownKept(fleet: set<Config>, s: State, c: Change)
    requires Shown(s.db) && Justified(fleet, s, c) && (c.RecordExt? ==> c.e != Pending)
    ensures Shown(Commit(s, c).db)
    ensures c.RecordExt? && c.id in s.db.executions ==>
      Commit(s, c).db.executions[c.id] == s.db.executions[c.id].(external := c.e, confirmed := true)
  {
    hide BaseUnits, SelectedQuote, ResponseOk, SigningOk, MoveOk, CanSign, Claimed, Insertable, KeyTaken, MinedOk;
  }

  lemma ChangeIsDefinite(fleet: set<Config>, states: seq<State>, acts: seq<Action>, k: nat) returns (c: Change)
    requires Run(fleet, states, acts) && k < |acts|
    ensures |states| == |acts| + 1 && Justified(fleet, states[k], c) && states[k + 1].db == Commit(states[k], c).db
    ensures c.RecordExt? ==> c.e != Pending
  {
    hide Run, Inv, Apply, Enabled, Commit, Effect, Beginning, CanBegin, Justified, Grounded;
    RunLength(fleet, states, acts);
    RunNext(fleet, states, acts, k);
    RunSafe(fleet, states, acts, k);
    c := ActionChange(fleet, states[k], acts[k]);
    if acts[k].Begin? { BeginningsClaim(states[k], acts[k].start); }
    if acts[k].Step? {
      var a := acts[k].a;
      var actor := states[k].actors[a];
      RecordedOutcome(states[k], actor.cfg, actor.pc, acts[k].o);
      if actor.pc.RecordOutcome? {
        RunFounded(fleet, states, acts, k, a);
        OutcomeIsDefinite(states, acts, k, a);
      }
    }
  }

  lemma OutcomeIsDefinite(states: seq<State>, acts: seq<Action>, k: nat, a: ActorId)
    requires k < |states| && a in states[k].actors && Founded(states, acts, k, a)
    ensures states[k].actors[a].pc.RecordOutcome? ==> states[k].actors[a].pc.e != Pending
  {
    hide Since;
  }

  /** In every state of every run, the confirmed rows are exactly those with an outcome. */
  lemma {:induction false} ConfirmedShowsOutcome(fleet: set<Config>, states: seq<State>, acts: seq<Action>, i: nat)
    requires Run(fleet, states, acts) && i < |states|
    ensures forall id <- states[i].db.executions ::
      states[i].db.executions[id].confirmed <==> states[i].db.executions[id].external != Pending
  {
    hide Inv, Apply, Enabled, Justified, Commit;
    if i > 0 {
      ConfirmedShowsOutcome(fleet, states, acts, i - 1);
      var c := ChangeIsDefinite(fleet, states, acts, i - 1);
      ShownKept(fleet, states[i - 1], c);
      assert Shown(states[i].db);
    }
  }

  // ---- The checks and the answers decide ----

  /**
   * What an expiry check leads to, exactly: past the quote the payment is given up, otherwise the driver goes on if it
   * has a client for the provider.
   */
  lemma ExpiryDecides(fleet: set<Config>, states: seq<State>, acts: seq<Action>, k: nat, a: ActorId, cfg: Config,
                      p: PaymentId, row: Option<Execution>, q: QuoteRow)
    requires Run(fleet, states, acts) && CallAt(states, acts, k, a, cfg, CheckExpiry(p, row, q))
    ensures |states| == |acts| + 1 && states[k + 1].db == states[k].db
    ensures var after := states[k + 1].actors;
      && (states[k].clock > q.expiresAt <==>
          a in after && after[a] == Actor(cfg, FailPayment(p, "routing_quote_expired")))
      && (states[k].clock <= q.expiresAt && q.provider in cfg.providers <==>
          a in after && after[a] == Actor(cfg, ReadPayment(p, row, q)))
      && (states[k].clock <= q.expiresAt && q.provider !in cfg.providers <==> a !in after)
  {
    hide Run, Commit, Since;
    Moved(fleet, states, acts, k, a, cfg, CheckExpiry(p, row, q));
    CommitNothing(states[k]);
  }

  /**
   * What a fresh quote leads to, exactly: the payment is given up for the reason it gives; or the envelope built from
   * it is the one that gets a row or a signature; or the driver stops and changes nothing.
   */
  lemma QuoteDecides(fleet: set<Config>, states: seq<State>, acts: seq<Action>, k: nat, a: ActorId, cfg: Config,
                     p: PaymentId, row: Option<Execution>, q: QuoteRow, amount: int)
    requires Run(fleet, states, acts) && CallAt(states, acts, k, a, cfg, FetchQuote(p, row, q, amount))
    ensures |states| == |acts| + 1 && states[k + 1].db == states[k].db
    ensures var after, o := states[k + 1].actors, acts[k].o;
      && (forall reason :: Refuses(cfg, row, q, amount, o.offer, reason) <==>
          a in after && after[a] == Actor(cfg, FailPayment(p, reason)))
      && (forall env, fee :: Signable(cfg, q, amount, o, env, fee) <==>
          && a in after
          && after[a] == Actor(cfg, if row.None? then CreateExecution(p, q, env, fee) else Sign(row.value, env, fee)))
  {
    hide Run, Commit, AfterQuote, Since, Signable, Refuses;
    Moved(fleet, states, acts, k, a, cfg, FetchQuote(p, row, q, amount));
    CommitNothing(states[k]);
    QuoteChangesNothing(cfg, p, row, q, amount, acts[k].o);
    AfterQuoteIs(cfg, p, row, q, amount, acts[k].o);
  }

  /**
   * The answer read at step `k` settles the transaction: a reverted
   * receipt, or a provider's definite word on a good one.
   */
  ghost predicate Settling(states: seq<State>, acts: seq<Action>, k: nat, a: ActorId, cfg: Config, x: Execution, tx: Tx,
                           e: ExternalStatus) {
    || (CallAt(states, acts, k, a, cfg, ReadReceipt(x, tx)) && acts[k].o.found && e == Reverted
        && SlotOf(tx) in states[k].chain.mined && states[k].chain.mined[SlotOf(tx)] == Receipt(tx, false))
    || (CallAt(states, acts, k, a, cfg, AskProvider(x, tx)) && acts[k].o.external == e && e != Pending)
  }

  lemma SettledNext(fleet: set<Config>, states: seq<State>, acts: seq<Action>, k: nat, a: ActorId, cfg: Config,
                    x: Execution, tx: Tx, e: ExternalStatus)
    requires Run(fleet, states, acts) && Settling(states, acts, k, a, cfg, x, tx, e)
    ensures k + 1 < |states| && a in states[k + 1].actors
    ensures states[k + 1].actors[a] == Actor(cfg, RecordOutcome(x, tx, e, if e == Filled then Completed else Failed))
  {
    hide Run, Commit, Since;
    Moved(fleet, states, acts, k, a, cfg, states[k].actors[a].pc);
  }

  lemma OutcomeTurns(s: State, cfg: Config, x: Execution, tx: Tx, e: ExternalStatus, terminal: Status, o: Oracle)
    ensures Effect(s, cfg, RecordOutcome(x, tx, e, terminal), o).next == Some(Complete(x, terminal))
    ensures Effect(s, cfg, Complete(x, terminal), o) == Turn(MovePayment(x.payment, Submitted, terminal), None)
    ensures HasStatus(s.db, x.payment, Submitted) ==>
      HasStatus(Commit(s, MovePayment(x.payment, Submitted, terminal)).db, x.payment, terminal)
  {
  }

  /**
   * A definite answer is acted on: the actor's next two calls record it in the row and complete the payment, as
   * COMPLETED after a fill and as FAILED otherwise.
   */
  lemma AnswerIsActedOn(fleet: set<Config>, states: seq<State>, acts: seq<Action>, k: nat, i: nat, j: nat, a: ActorId,
                        cfg: Config, x: Execution, tx: Tx, e: ExternalStatus)
    requires Run(fleet, states, acts) && Settling(states, acts, k, a, cfg, x, tx, e)
    requires k < i < j < |acts| && Quiet(acts, k + 1, i, a) && Quiet(acts, i + 1, j, a)
    requires acts[i].Step? && acts[i].a == a && acts[j].Step? && acts[j].a == a
    ensures |states| == |acts| + 1 && x.id in states[i + 1].db.executions
    ensures states[i + 1].db.executions[x.id].external == e && states[i + 1].db.executions[x.id].confirmed
    ensures HasStatus(states[j].db, x.payment, Submitted) ==>
      HasStatus(states[j + 1].db, x.payment, if e == Filled then Completed else Failed)
  {
    hide Run, Commit, Effect, OracleOk, Since, Quiet, Settling, ActorOk;
    var terminal := if e == Filled then Completed else Failed;
    RunLength(fleet, states, acts);
    SettledNext(fleet, states, acts, k, a, cfg, x, tx, e);
    StaysPut(fleet, states, acts, k + 1, i, a);
    Moved(fleet, states, acts, i, a, cfg, RecordOutcome(x, tx, e, terminal));
    ActorKnows(fleet, states, acts, i, a);
    RecordTurn(states[i], cfg, x, tx, e, terminal, acts[i].o);
    OutcomeTurns(states[i], cfg, x, tx, e, terminal, acts[i].o);
    StaysPut(fleet, states, acts, i + 1, j, a);
    Moved(fleet, states, acts, j, a, cfg, Complete(x, terminal));
    OutcomeTurns(states[j], cfg, x, tx, e, terminal, acts[j].o);
  }

  lemma RecordTurn(s: State, cfg: Config, x: Execution, tx: Tx, e: ExternalStatus, terminal: Status, o: Oracle)
    requires ActorOk(s, cfg, RecordOutcome(x, tx, e, terminal))
    ensures var db := Commit(s, Effect(s, cfg, RecordOutcome(x, tx, e, terminal), o).change).db;
      x.id in db.executions && db.executions[x.id].external == e && db.executions[x.id].confirmed
  {
    hide MinedOk, Terminal;
  }
}
