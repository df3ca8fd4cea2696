/** Runs in which no two actors drive the same payment at once; nothing else is asked of them. */
module SoleDrivers {
  import opened Common
  import opened Payments
  import opened Database
  import opened Protocol
  import opened Invariants
  import opened Safety
  import opened Theorems

  /** The payment an executor call is driving, if any. */
  function Drives(pc: Pc): Option<PaymentId> {
    match pc
    case ReadQuote(p, _) => Some(p)
    case CheckExpiry(p, _, _) => Some(p)
    case ReadPayment(p, _, _) => Some(p)
    case FetchQuote(p, _, _, _) => Some(p)
    case FailPayment(p, _) => Some(p)
    case CreateExecution(p, _, _, _) => Some(p)
    case Sign(x, _, _) => Some(x.payment)
    case Persist(x, _) => Some(x.payment)
    case FindOnChain(x, _) => Some(x.payment)
    case Send(x, _) => Some(x.payment)
    case RecordBroadcast(x, _) => Some(x.payment)
    case Submit(x) => Some(x.payment)
    case _ => None
  }

  /** A driver that holds stored bytes. */
  predicate HasBytes(pc: Pc) {
    pc.FindOnChain? || pc.Send? || pc.RecordBroadcast? || pc.Submit?
  }

  /** No payment has two drivers. */
  ghost predicate OneDriverEach(s: State) {
    forall a, b :: a in s.actors && b in s.actors && a != b && Drives(s.actors[a].pc).Some? ==>
      Drives(s.actors[a].pc) != Drives(s.actors[b].pc)
  }

  ghost predicate SoleDriverRun(fleet: set<Config>, states: seq<State>, acts: seq<Action>) {
    Run(fleet, states, acts) && forall i :: 0 <= i < |states| ==> OneDriverEach(states[i])
  }

  /** The row of `p` exists, with this signature or none. */
  ghost predicate SignedAs(s: State, p: PaymentId, signed: Option<Tx>) {
    p in s.db.byPayment && s.db.byPayment[p] in s.db.executions && s.db.executions[s.db.byPayment[p]].signed == signed
  }

  ghost predicate SignedRow(s: State, p: PaymentId) {
    p in s.db.byPayment && s.db.byPayment[p] in s.db.executions && s.db.executions[s.db.byPayment[p]].signed.Some?
  }

  /** A driver without a row finds none; one that resumes a row finds it unsigned. */
  ghost predicate Unsigned(s: State, p: PaymentId, row: Option<Execution>) {
    if row.None? then p !in s.db.byPayment else SignedAs(s, p, None)
  }

  /** What a sole driver knows about its payment's signature. */
  ghost predicate BytesOk(s: State, pc: Pc) {
    match pc
    case ReadQuote(p, row) => Unsigned(s, p, row)
    case CheckExpiry(p, row, _) => Unsigned(s, p, row)
    case ReadPayment(p, row, _) => Unsigned(s, p, row)
    case FetchQuote(p, row, _, _) => Unsigned(s, p, row)
    case FailPayment(p, _) => p in s.db.byPayment ==> SignedAs(s, p, None)
    case CreateExecution(p, _, _, _) => p !in s.db.byPayment
    case Sign(x, _, _) => SignedAs(s, x.payment, None)
    case Persist(x, _) => SignedAs(s, x.payment, None)
    case FindOnChain(x, tx) => SignedAs(s, x.payment, Some(tx))
    case Send(x, tx) => SignedAs(s, x.payment, Some(tx))
    case RecordBroadcast(x, tx) => SignedAs(s, x.payment, Some(tx))
    case _ => true
  }

  /** Only the stored bytes are ever sent. */
  ghost predicate SendsStored(s: State) {
    forall st <- s.h.sends :: SignedAs(s, st.p, Some(st.tx))
  }

  ghost predicate BytesSafe(s: State) {
    SendsStored(s) && forall a <- s.actors :: BytesOk(s, s.actors[a].pc)
  }

  // ---- Parts of the invariant ----

  lemma RowsOf(fleet: set<Config>, s: State)
    requires Inv(fleet, s)
    ensures Rows(fleet, s)
  {
    hide Rows, Intake, Logged, Answered, Statuses, Signatures, Actors, Publishers;
  }

  lemma ActorOf(fleet: set<Config>, s: State, a: ActorId)
    requires Inv(fleet, s) && a in s.actors
    ensures s.actors[a].cfg in fleet && ActorOk(s, s.actors[a].cfg, s.actors[a].pc)
  {
    hide ActorOk, Rows, Intake, Logged, Answered, Statuses, Signatures, Publishers;
  }

  /** Which calls make the changes that could disturb another actor. */
  lemma ChangeOf(s: State, cfg: Config, pc: Pc, o: Oracle)
    ensures var c := Effect(s, cfg, pc, o).change;
      && (c.FailWith? ==> pc == FailPayment(c.p, c.reason))
      && (c.NewRow? ==> pc.CreateExecution? && pc.p == c.row.payment)
      && (c.StoreTx? ==> pc.Persist? && pc.x.id == c.id && pc.tx == c.tx)
      && (c.SendTx? ==> pc.Send? && pc.x.payment == c.p && pc.tx == c.tx)
      && (c.MovePayment? ==>
        || pc == CompleteSimulated(c.p)
        || ((pc.Submit? || pc.Repair?) && pc.x.payment == c.p && c.from == Processing && c.to == Submitted)
        || (pc.Complete? && pc.x.payment == c.p && c.from == Submitted))
  {
    hide BaseUnits, SelectedQuote, ExceedsSlippageTolerance, ValidEnvelope, Matches, Insertable, Outcome, MinedOk,
      TxFor;
  }

  lemma PersistedRow(fleet: set<Config>, s: State, cfg: Config, pc: Pc)
    requires Rows(fleet, s) && ActorOk(s, cfg, pc) && pc.Persist?
    ensures pc.x.id in s.db.executions && s.db.executions[pc.x.id].payment == pc.x.payment
  {
    hide Rows;
    RowFacts(fleet, s, pc.x);
  }

  lemma BeginChange(s: State, start: Start)
    requires CanBegin(s, start)
    ensures var c := Beginning(s, start).change; c == Nothing || c.MovePayment?
  {
  }

  // ---- Signatures are stable ----

  lemma SignedStable(fleet: set<Config>, s: State, c: Change, p: PaymentId, signed: Option<Tx>)
    requires Rows(fleet, s) && Justified(fleet, s, c) && SignedAs(s, p, signed)
    requires c.StoreTx? && c.id in s.db.executions ==> s.db.executions[c.id].payment != p
    ensures SignedAs(Commit(s, c), p, signed)
  {
    hide BaseUnits, SelectedQuote, RowOk, ResponseOk, SigningOk, MoveOk, CanSign, Claimed, Insertable, KeyTaken,
      MinedOk;
  }

  lemma NoRowStable(s: State, c: Change, p: PaymentId)
    requires p !in s.db.byPayment && (c.NewRow? ==> c.row.payment != p)
    ensures p !in Commit(s, c).db.byPayment
  {
  }

  lemma RowAppears(s: State, c: Change, p: PaymentId)
    requires p in Commit(s, c).db.byPayment && (c.NewRow? ==> c.row.payment != p)
    ensures p in s.db.byPayment
  {
    hide Commit;
    if p !in s.db.byPayment { NoRowStable(s, c, p); }
  }

  lemma BytesIgnoreActors(s: State, s': State, pc: Pc)
    requires BytesOk(s, pc) && s' == s.(actors := s'.actors, clock := s'.clock)
    ensures BytesOk(s', pc)
  {
  }

  lemma SignedIgnoresActors(s: State, s': State, p: PaymentId, signed: Option<Tx>)
    requires SignedAs(s, p, signed) && s' == s.(actors := s'.actors, clock := s'.clock)
    ensures SignedAs(s', p, signed)
  {
  }

  lemma NotBoth(s: State, p: PaymentId, tx: Tx)
    requires SignedAs(s, p, Some(tx))
    ensures !SignedAs(s, p, None)
  {
  }

  /** The change makes or signs no row of the payment this call drives. */
  ghost predicate OtherRows(s: State, c: Change, pc: Pc) {
    && (c.NewRow? ==> Drives(pc) != Some(c.row.payment))
    && (c.StoreTx? && c.id in s.db.executions ==> Drives(pc) != Some(s.db.executions[c.id].payment))
  }

  lemma UnsignedStable(fleet: set<Config>, s: State, c: Change, pc: Pc, p: PaymentId, row: Option<Execution>)
    requires Rows(fleet, s) && Justified(fleet, s, c) && OtherRows(s, c, pc) && Drives(pc) == Some(p)
    requires Unsigned(s, p, row)
    ensures Unsigned(Commit(s, c), p, row)
  {
    hide Rows, Commit, Justified, SignedAs, Drives;
    if row.Some? { SignedStable(fleet, s, c, p, None); } else { NoRowStable(s, c, p); }
  }

  lemma StoredStable(fleet: set<Config>, s: State, c: Change, pc: Pc, p: PaymentId, signed: Option<Tx>)
    requires Rows(fleet, s) && Justified(fleet, s, c) && OtherRows(s, c, pc) && Drives(pc) == Some(p)
    requires SignedAs(s, p, signed)
    ensures SignedAs(Commit(s, c), p, signed)
  {
    hide Rows, Commit, Justified, SignedAs, Drives;
    SignedStable(fleet, s, c, p, signed);
  }

  /** A driver's knowledge survives the others' changes. */
  lemma BytesStable(fleet: set<Config>, s: State, c: Change, pc: Pc)
    requires Rows(fleet, s) && Justified(fleet, s, c) && OtherRows(s, c, pc) && BytesOk(s, pc)
    ensures BytesOk(Commit(s, c), pc)
  {
    hide Rows, Commit, Justified, OtherRows, SignedAs, Unsigned;
    match pc {
      case ReadQuote(p, row) => UnsignedStable(fleet, s, c, pc, p, row);
      case CheckExpiry(p, row, _) => UnsignedStable(fleet, s, c, pc, p, row);
      case ReadPayment(p, row, _) => UnsignedStable(fleet, s, c, pc, p, row);
      case FetchQuote(p, row, _, _) => UnsignedStable(fleet, s, c, pc, p, row);
      case FailPayment(p, _) => FailingStable(fleet, s, c, pc);
      case CreateExecution(p, _, _, _) => FreshStable(s, c, pc);
      case Sign(x, _, _) => StoredStable(fleet, s, c, pc, x.payment, None);
      case Persist(x, _) => StoredStable(fleet, s, c, pc, x.payment, None);
      case FindOnChain(x, tx) => StoredStable(fleet, s, c, pc, x.payment, Some(tx));
      case Send(x, tx) => StoredStable(fleet, s, c, pc, x.payment, Some(tx));
      case RecordBroadcast(x, tx) => StoredStable(fleet, s, c, pc, x.payment, Some(tx));
      case _ =>
    }
  }

  lemma FreshStable(s: State, c: Change, pc: Pc)
    requires pc.CreateExecution? && OtherRows(s, c, pc) && pc.p !in s.db.byPayment
    ensures pc.p !in Commit(s, c).db.byPayment
  {
    hide Commit;
    NoRowStable(s, c, pc.p);
  }

  lemma FailingStable(fleet: set<Config>, s: State, c: Change, pc: Pc)
    requires Rows(fleet, s) && Justified(fleet, s, c) && pc.FailPayment? && OtherRows(s, c, pc) && BytesOk(s, pc)
    ensures BytesOk(Commit(s, c), pc)
  {
    hide Rows, Commit, Justified, SignedAs;
    if pc.p in Commit(s, c).db.byPayment {
      RowAppears(s, c, pc.p);
      SignedStable(fleet, s, c, pc.p, None);
    }
  }

  // ---- A driver's own next call ----

  lemma PreparingNext(s: State, cfg: Config, pc: Pc, o: Oracle)
    requires pc.ReadQuote? || pc.CheckExpiry? || pc.ReadPayment? || pc.FetchQuote?
    requires ActorOk(s, cfg, pc) && BytesOk(s, pc)
    ensures var t := Effect(s, cfg, pc, o); t.change == Nothing && (t.next.Some? ==> BytesOk(s, t.next.value))
  {
    hide BaseUnits, SelectedQuote, ExceedsSlippageTolerance, ValidEnvelope, RowForward, SignedAs, Claimed, QuoteIs,
      Within;
  }

  lemma CreatingNext(s: State, cfg: Config, pc: Pc, o: Oracle)
    requires pc.CreateExecution? && BytesOk(s, pc)
    ensures var t := Effect(s, cfg, pc, o); t.next.Some? ==> BytesOk(Commit(s, t.change), t.next.value)
  {
    hide BaseUnits, SelectedQuote;
  }

  lemma SigningNext(s: State, cfg: Config, pc: Pc, o: Oracle)
    requires pc.Sign? && BytesOk(s, pc)
    ensures var t := Effect(s, cfg, pc, o); t.next.Some? ==> BytesOk(Commit(s, t.change), t.next.value)
  {
    hide BaseUnits, SelectedQuote, TxFor;
  }

  lemma PersistingNext(fleet: set<Config>, s: State, cfg: Config, pc: Pc, o: Oracle)
    requires pc.Persist? && Rows(fleet, s) && ActorOk(s, cfg, pc) && BytesOk(s, pc)
    ensures var t := Effect(s, cfg, pc, o); t.next.Some? ==> BytesOk(Commit(s, t.change), t.next.value)
  {
    hide Rows, BaseUnits, SelectedQuote, AfterQuote, Allocate, AnswerFor, TxFor, MinedOk, RowForward;
    RowFacts(fleet, s, pc.x);
  }

  lemma SendingNext(s: State, cfg: Config, pc: Pc, o: Oracle)
    requires (pc.FindOnChain? || pc.Send? || pc.RecordBroadcast?) && BytesOk(s, pc)
    ensures var t := Effect(s, cfg, pc, o); t.next.Some? ==> BytesOk(Commit(s, t.change), t.next.value)
  {
    hide BaseUnits, SelectedQuote, AfterQuote, Allocate, AnswerFor, TxFor, MinedOk;
  }

  lemma OtherCallsNext(s: State, cfg: Config, pc: Pc, o: Oracle)
    requires Drives(pc).None? || pc.FailPayment? || pc.Submit?
    ensures var t := Effect(s, cfg, pc, o); t.next.Some? ==> BytesOk(Commit(s, t.change), t.next.value)
  {
    hide BaseUnits, SelectedQuote, Matches, Insertable, Outcome, MinedOk;
  }

  lemma BytesNext(fleet: set<Config>, s: State, cfg: Config, pc: Pc, o: Oracle)
    requires Rows(fleet, s) && ActorOk(s, cfg, pc) && BytesOk(s, pc)
    ensures var t := Effect(s, cfg, pc, o); t.next.Some? ==> BytesOk(Commit(s, t.change), t.next.value)
  {
    hide Rows, ActorOk, BytesOk, Effect, Commit;
    CommitNothing(s);
    match pc {
      case ReadQuote(_, _) => PreparingNext(s, cfg, pc, o);
      case CheckExpiry(_, _, _) => PreparingNext(s, cfg, pc, o);
      case ReadPayment(_, _, _) => PreparingNext(s, cfg, pc, o);
      case FetchQuote(_, _, _, _) => PreparingNext(s, cfg, pc, o);
      case CreateExecution(_, _, _, _) => CreatingNext(s, cfg, pc, o);
      case Sign(_, _, _) => SigningNext(s, cfg, pc, o);
      case Persist(_, _) => PersistingNext(fleet, s, cfg, pc, o);
      case FindOnChain(_, _) => SendingNext(s, cfg, pc, o);
      case Send(_, _) => SendingNext(s, cfg, pc, o);
      case RecordBroadcast(_, _) => SendingNext(s, cfg, pc, o);
      case _ => OtherCallsNext(s, cfg, pc, o);
    }
  }

  /** A new driver starts from what the tables say. */
  lemma BeginBytes(fleet: set<Config>, s: State, start: Start)
    requires Inv(fleet, s) && CanBegin(s, start)
    ensures var t := Beginning(s, start); t.next.Some? ==> BytesOk(Commit(s, t.change), t.next.value)
  {
    hide Inv, BaseUnits, SelectedQuote;
    match start {
      case Deliver(p) => if p in s.db.byPayment { RowOfPayment(fleet, s, p); }
      case DriveForward(id) => RowKeys(fleet, s, id);
      case _ =>
    }
  }

  // ---- Every step ----

  /** What signs and sends: the change's own driver knew the state of the row. */
  lemma StepSends(fleet: set<Config>, s: State, cfg: Config, pc: Pc, o: Oracle)
    requires Rows(fleet, s) && ActorOk(s, cfg, pc) && BytesOk(s, pc)
    ensures var c := Effect(s, cfg, pc, o).change;
      && (c.StoreTx? && c.id in s.db.executions ==> SignedAs(s, s.db.executions[c.id].payment, None))
      && (c.SendTx? ==> SignedAs(s, c.p, Some(c.tx)))
  {
    hide Rows, ActorOk, Effect, SignedAs;
    ChangeOf(s, cfg, pc, o);
    if pc.Persist? { PersistedRow(fleet, s, cfg, pc); }
  }

  lemma SendsOf(s: State, c: Change)
    ensures Commit(s, c).h.sends == if c.SendTx? then s.h.sends + {Stamp(c.p, c.tx)} else s.h.sends
  {
  }

  lemma SendsKept(fleet: set<Config>, s: State, s': State, c: Change)
    requires Rows(fleet, s) && Justified(fleet, s, c) && SendsStored(s)
    requires s' == Commit(s, c).(actors := s'.actors, clock := s'.clock)
    requires c.StoreTx? && c.id in s.db.executions ==> SignedAs(s, s.db.executions[c.id].payment, None)
    requires c.SendTx? ==> SignedAs(s, c.p, Some(c.tx))
    ensures SendsStored(s')
  {
    hide Rows, Justified, Commit, SignedAs;
    SendsOf(s, c);
    forall st | st in s'.h.sends
      ensures SignedAs(s', st.p, Some(st.tx))
    {
      assert SignedAs(s, st.p, Some(st.tx));
      NotBoth(s, st.p, st.tx);
      SignedStable(fleet, s, c, st.p, Some(st.tx));
      SignedIgnoresActors(Commit(s, c), s', st.p, Some(st.tx));
    }
  }

  /** Another driver's change concerns another payment's row. */
  lemma StepOtherRows(fleet: set<Config>, s: State, x: Actor, y: Actor, o: Oracle)
    requires Rows(fleet, s) && ActorOk(s, x.cfg, x.pc)
    requires Drives(x.pc).Some? ==> Drives(x.pc) != Drives(y.pc)
    ensures OtherRows(s, Effect(s, x.cfg, x.pc, o).change, y.pc)
  {
    hide Rows, ActorOk, Effect;
    ChangeOf(s, x.cfg, x.pc, o);
    if x.pc.Persist? { PersistedRow(fleet, s, x.cfg, x.pc); }
  }

  /** A turn keeps the drivers' knowledge when it respects the others' rows. */
  lemma TurnBytes(fleet: set<Config>, s: State, a: ActorId, cfg: Config, t: Turn)
    requires Inv(fleet, s) && BytesSafe(s) && Justified(fleet, s, t.change)
    requires forall b <- s.actors :: b != a ==> OtherRows(s, t.change, s.actors[b].pc)
    requires t.next.Some? ==> BytesOk(Commit(s, t.change), t.next.value)
    requires SendsStored(Continue(s, a, cfg, t))
    ensures BytesSafe(Continue(s, a, cfg, t))
  {
    hide Inv, BytesOk, SendsStored, OtherRows, Justified, Commit;
    var s1, s' := Commit(s, t.change), Continue(s, a, cfg, t);
    RowsOf(fleet, s);
    ActorsOf(s, t.change);
    forall b | b in s'.actors
      ensures BytesOk(s', s'.actors[b].pc)
    {
      if b != a { BytesStable(fleet, s, t.change, s.actors[b].pc); }
      BytesIgnoreActors(s1, s', s'.actors[b].pc);
    }
  }

  lemma StepBytes(fleet: set<Config>, s: State, a: ActorId, o: Oracle)
    requires Inv(fleet, s) && BytesSafe(s) && OneDriverEach(s) && Enabled(fleet, s, Step(a, o))
    ensures BytesSafe(Apply(s, Step(a, o)))
  {
    hide Inv, BytesOk, SendsStored, OtherRows, Justified, Commit, Effect, OracleOk, ActorOk, Drives;
    var cfg, pc := s.actors[a].cfg, s.actors[a].pc;
    RowsOf(fleet, s);
    ActorOf(fleet, s, a);
    var c := ActionChange(fleet, s, Step(a, o));
    ActorsOf(s, c);
    forall b | b in s.actors && b != a
      ensures OtherRows(s, c, s.actors[b].pc)
    {
      StepOtherRows(fleet, s, s.actors[a], s.actors[b], o);
    }
    BytesNext(fleet, s, cfg, pc, o);
    StepSends(fleet, s, cfg, pc, o);
    SendsKept(fleet, s, Continue(s, a, cfg, Effect(s, cfg, pc, o)), c);
    TurnBytes(fleet, s, a, cfg, Effect(s, cfg, pc, o));
  }

  lemma BeginKeepsBytes(fleet: set<Config>, s: State, a: ActorId, cfg: Config, start: Start)
    requires Inv(fleet, s) && BytesSafe(s) && Enabled(fleet, s, Begin(a, cfg, start))
    ensures BytesSafe(Apply(s, Begin(a, cfg, start)))
  {
    hide Inv, BytesOk, SendsStored, Justified, Commit, Beginning, CanBegin;
    var t := Beginning(s, start);
    RowsOf(fleet, s);
    var c := ActionChange(fleet, s, Begin(a, cfg, start));
    ActorsOf(s, c);
    BeginChange(s, start);
    BeginBytes(fleet, s, start);
    SendsKept(fleet, s, Continue(s, a, cfg, t), c);
    TurnBytes(fleet, s, a, cfg, t);
  }

  /** Crashes, the clock, the chain and reseeding concern no driver. */
  lemma QuietBytes(fleet: set<Config>, s: State, s': State, c: Change)
    requires Inv(fleet, s) && BytesSafe(s) && Justified(fleet, s, c) && (c == Nothing || c.MineTx? || c.Seed?)
    requires s' == Commit(s, c).(actors := s'.actors, clock := s'.clock)
    requires forall a <- s'.actors :: a in s.actors && s'.actors[a] == s.actors[a]
    ensures BytesSafe(s')
  {
    hide Inv, BytesOk, SendsStored, Justified, Commit;
    RowsOf(fleet, s);
    SendsKept(fleet, s, s', c);
    forall a | a in s'.actors
      ensures BytesOk(s', s'.actors[a].pc)
    {
      BytesStable(fleet, s, c, s.actors[a].pc);
      BytesIgnoreActors(Commit(s, c), s', s.actors[a].pc);
    }
  }

  lemma QuietActors(s: State, act: Action)
    requires !act.Step? && !act.Begin?
    ensures forall a <- Apply(s, act).actors :: a in s.actors && Apply(s, act).actors[a] == s.actors[a]
  {
    hide Commit;
    match act {
      case Mine(tx, ok) => ActorsOf(s, MineTx(tx, ok));
      case SeedNonce(w, n) => ActorsOf(s, Seed(w, n));
      case _ =>
    }
  }

  lemma ActionBytes(fleet: set<Config>, s: State, act: Action)
    requires Inv(fleet, s) && BytesSafe(s) && OneDriverEach(s) && Enabled(fleet, s, act)
    ensures BytesSafe(Apply(s, act))
  {
    hide Inv, BytesSafe, OneDriverEach, Commit, Apply, Justified;
    match act {
      case Begin(a, cfg, start) => BeginKeepsBytes(fleet, s, a, cfg, start);
      case Step(a, o) => StepBytes(fleet, s, a, o);
      case _ =>
        var c := ActionChange(fleet, s, act);
        QuietActors(s, act);
        QuietBytes(fleet, s, Apply(s, act), c);
    }
  }

  // ---- Whole runs ----

  lemma RunLength(fleet: set<Config>, states: seq<State>, acts: seq<Action>)
    requires Run(fleet, states, acts)
    ensures |states| == |acts| + 1 && states[0] == START
  {
  }

  /** Along a run with sole drivers, each driver knows its row and only stored bytes are sent. */
  lemma {:induction false} RunBytes(fleet: set<Config>, states: seq<State>, acts: seq<Action>, i: nat)
    requires SoleDriverRun(fleet, states, acts) && i < |states|
    ensures BytesSafe(states[i])
  {
    hide Run, Inv, Apply, Enabled, OneDriverEach, BytesOk;
    RunLength(fleet, states, acts);
    if i > 0 {
      RunBytes(fleet, states, acts, i - 1);
      RunNext(fleet, states, acts, i - 1);
      RunSafe(fleet, states, acts, i - 1);
      ActionBytes(fleet, states[i - 1], acts[i - 1]);
    }
  }

  /** Once a row is signed, its driver is past every check. */
  lemma SignedIsPastChecks(s: State, pc: Pc, p: PaymentId)
    requires BytesOk(s, pc) && SignedRow(s, p)
    ensures Drives(pc) == Some(p) ==> HasBytes(pc)
  {
  }

  lemma BytesKept(fleet: set<Config>, s: State, act: Action, p: PaymentId, tx: Tx)
    requires Inv(fleet, s) && BytesSafe(s) && Enabled(fleet, s, act) && SignedAs(s, p, Some(tx))
    ensures SignedAs(Apply(s, act), p, Some(tx))
  {
    hide Inv, BytesOk, SendsStored, Justified, Commit, Apply, Effect, Beginning, CanBegin, OracleOk, ActorOk, SignedAs;
    var c := ActionChange(fleet, s, act);
    RowsOf(fleet, s);
    NotBoth(s, p, tx);
    if act.Step? {
      ActorOf(fleet, s, act.a);
      StepSends(fleet, s, s.actors[act.a].cfg, s.actors[act.a].pc, act.o);
    } else if act.Begin? {
      BeginChange(s, act.start);
    }
    SignedStable(fleet, s, c, p, Some(tx));
    SignedIgnoresActors(Commit(s, c), Apply(s, act), p, Some(tx));
  }

  /** The only bytes ever sent for `p` are `tx`. */
  ghost predicate OnlySends(s: State, p: PaymentId, tx: Tx) {
    forall st <- s.h.sends :: st.p == p ==> st.tx == tx
  }

  /** No driver of `p` is still looking at its quote, its expiry or its fee. */
  ghost predicate NoLongerChecked(s: State, p: PaymentId) {
    forall a <- s.actors :: Drives(s.actors[a].pc) == Some(p) ==> HasBytes(s.actors[a].pc)
  }

  lemma SoleBytes(s: State, p: PaymentId, tx: Tx)
    requires BytesSafe(s) && SignedAs(s, p, Some(tx))
    ensures OnlySends(s, p, tx) && NoLongerChecked(s, p)
  {
    hide BytesOk, HasBytes, Drives;
    forall a | a in s.actors
      ensures Drives(s.actors[a].pc) == Some(p) ==> HasBytes(s.actors[a].pc)
    {
      SignedIsPastChecks(s, s.actors[a].pc, p);
    }
  }

  /**
   * Once signed, the stored bytes never change, only they are ever sent, and no later driver looks at the quote again.
   */
  lemma {:induction false} SignedBytesAreFinal(fleet: set<Config>, states: seq<State>, acts: seq<Action>,
                                               i: nat, j: nat, p: PaymentId, tx: Tx)
    requires SoleDriverRun(fleet, states, acts) && i <= j < |states| && SignedAs(states[i], p, Some(tx))
    ensures SignedAs(states[j], p, Some(tx)) && OnlySends(states[j], p, tx) && NoLongerChecked(states[j], p)
    decreases j - i
  {
    hide Run, Inv, Apply, Enabled, OneDriverEach, BytesSafe, SignedAs, OnlySends, NoLongerChecked;
    if i < j {
      SignedBytesAreFinal(fleet, states, acts, i, j - 1, p, tx);
      RunLength(fleet, states, acts);
      RunNext(fleet, states, acts, j - 1);
      RunSafe(fleet, states, acts, j - 1);
      RunBytes(fleet, states, acts, j - 1);
      BytesKept(fleet, states[j - 1], acts[j - 1], p, tx);
    }
    RunBytes(fleet, states, acts, j);
    SoleBytes(states[j], p, tx);
  }

  /**
   * Without overlapping drivers at most one transaction is ever sent for a payment, whatever wallets the workers use.
   */
  lemma OneSentPerPayment(fleet: set<Config>, states: seq<State>, acts: seq<Action>, i: nat, st: Stamp, st': Stamp)
    requires SoleDriverRun(fleet, states, acts) && i < |states|
    requires st in states[i].h.sends && st' in states[i].h.sends && st.p == st'.p
    ensures st.tx == st'.tx
  {
    hide Run, OneDriverEach, BytesOk;
    RunBytes(fleet, states, acts, i);
  }
}
