/** Runs with one driver and one outcome check per payment, a clock that does not go back and one amount ceiling. */
module NoOverlap {
  import opened Common
  import opened Payments
  import opened Database
  import opened Protocol
  import opened Invariants
  import opened Safety
  import opened Theorems
  import opened SoleDrivers

  /** The payment whose outcome the reconciler is checking, if any. */
  function Checks(pc: Pc): Option<PaymentId> {
    match pc
    case Repair(x, _) => Some(x.payment)
    case ReadReceipt(x, _) => Some(x.payment)
    case AskProvider(x, _) => Some(x.payment)
    case RecordOutcome(x, _, _, _) => Some(x.payment)
    case Complete(x, _) => Some(x.payment)
    case _ => None
  }

  /** No payment has two outcome checks; a driver and a check may overlap. */
  ghost predicate OneCheckEach(s: State) {
    forall a, b :: a in s.actors && b in s.actors && a != b && Checks(s.actors[a].pc).Some? ==>
      Checks(s.actors[a].pc) != Checks(s.actors[b].pc)
  }

  ghost predicate CarefulRun(fleet: set<Config>, ceiling: Option<int>, states: seq<State>, acts: seq<Action>) {
    && SoleDriverRun(fleet, states, acts)
    && (forall c <- fleet :: c.maxAmount == ceiling)
    && (forall i :: 0 <= i < |states| ==> OneCheckEach(states[i]))
    && (forall i, j :: 0 <= i <= j < |states| ==> states[i].clock <= states[j].clock)
  }

  ghost predicate FailedWithReason(s: State, p: PaymentId) {
    p in s.db.payments && s.db.payments[p].failureReason.Some?
  }

  ghost predicate OverCeiling(s: State, ceiling: Option<int>, p: PaymentId) {
    && p in s.db.payments && BaseUnits(s.db.payments[p].req.amount).Some?
    && !Within(ceiling, BaseUnits(s.db.payments[p].req.amount).value)
  }

  ghost predicate Expired(s: State, p: PaymentId) {
    && p in s.db.quotes && SelectedQuote(s.db.quotes[p]).Some?
    && s.clock > SelectedQuote(s.db.quotes[p]).value.expiresAt
  }

  /** No driver will ever get this payment past the checks again. */
  ghost predicate Blocked(s: State, ceiling: Option<int>, p: PaymentId) {
    Expired(s, p) || OverCeiling(s, ceiling, p)
  }

  /** A driver without a row finds its payment still PROCESSING. */
  ghost predicate Claims(s: State, p: PaymentId, row: Option<Execution>) {
    row.None? ==> HasStatus(s.db, p, Processing)
  }

  /** What a sole driver or checker knows about its payment's status. */
  ghost predicate OpenOk(s: State, ceiling: Option<int>, pc: Pc) {
    match pc
    case ReadQuote(p, row) => Claims(s, p, row)
    case CheckExpiry(p, row, _) => Claims(s, p, row)
    case ReadPayment(p, row, _) => Claims(s, p, row) && (FailedWithReason(s, p) ==> OverCeiling(s, ceiling, p))
    case FetchQuote(p, row, _, _) => Claims(s, p, row) && (FailedWithReason(s, p) ==> OverCeiling(s, ceiling, p))
    case FailPayment(p, _) => p in s.db.byPayment ==> Blocked(s, ceiling, p)
    case CreateExecution(p, _, _, _) => Claims(s, p, None)
    case Sign(x, _, _) => !FailedWithReason(s, x.payment)
    case Persist(x, _) => !FailedWithReason(s, x.payment)
    case Repair(x, _) => HasStatus(s.db, x.payment, Processing) || HasStatus(s.db, x.payment, Submitted)
    case ReadReceipt(x, _) => HasStatus(s.db, x.payment, Submitted)
    case AskProvider(x, _) => HasStatus(s.db, x.payment, Submitted)
    case RecordOutcome(x, _, _, _) => HasStatus(s.db, x.payment, Submitted)
    case Complete(x, _) => HasStatus(s.db, x.payment, Submitted)
    case _ => true
  }

  ghost predicate NotDriven(s: State, p: PaymentId) {
    forall a <- s.actors :: Drives(s.actors[a].pc) != Some(p)
  }

  /**
   * A payment that failed with a reason has no row and no driver, or
   * an unsigned row that can no longer pass the checks.
   */
  ghost predicate FailureOk(s: State, ceiling: Option<int>, p: PaymentId) {
    FailedWithReason(s, p) ==>
      (p !in s.db.byPayment && NotDriven(s, p)) || (SignedAs(s, p, None) && Blocked(s, ceiling, p))
  }

  ghost predicate Careful(s: State, ceiling: Option<int>) {
    && BytesSafe(s)
    && (forall a <- s.actors :: OpenOk(s, ceiling, s.actors[a].pc))
    && (forall p :: FailureOk(s, ceiling, p))
  }

  // ---- Other actors' knowledge is stable ----

  /** The change concerns no payment this call is still preparing, and ends no payment it is checking. */
  ghost predicate Apart(s: State, c: Change, pc: Pc) {
    match c
    case FailWith(p, _) => Drives(pc) != Some(p) && Checks(pc) != Some(p)
    case NewRow(row, _) => Drives(pc) != Some(row.payment)
    case MovePayment(p, from, to) =>
      HasStatus(s.db, p, from) && from != Routed ==>
        (Drives(pc) == Some(p) ==> HasBytes(pc)) && (Checks(pc) == Some(p) ==> from == Processing && to == Submitted)
    case _ => true
  }

  lemma StatusStays(s: State, c: Change, p: PaymentId, st: Status)
    requires HasStatus(s.db, p, st)
    requires c.FailWith? ==> c.p != p
    requires c.MovePayment? ==> c.p != p || !HasStatus(s.db, c.p, c.from)
    requires c.Create? ==> c.p != p
    ensures HasStatus(Commit(s, c).db, p, st)
  {
  }

  lemma FailureStable(fleet: set<Config>, s: State, c: Change, p: PaymentId)
    requires Justified(fleet, s, c) && p in s.db.payments && p in Commit(s, c).db.payments && (c.FailWith? ==> c.p != p)
    ensures Commit(s, c).db.payments[p].failureReason == s.db.payments[p].failureReason
  {
    hide BaseUnits, SelectedQuote, ResponseOk, SigningOk, MoveOk, CanSign, Insertable;
  }

  lemma BlockedStable(s: State, s': State, ceiling: Option<int>, p: PaymentId)
    requires Evolves(s, s') && s.clock <= s'.clock
    ensures OverCeiling(s, ceiling, p) ==> OverCeiling(s', ceiling, p)
    ensures Blocked(s, ceiling, p) ==> Blocked(s', ceiling, p)
  {
    hide BaseUnits, SelectedQuote, HistoryEvolves, RowForward;
  }

  lemma RoutedIsNot(s: State, p: PaymentId, from: Status)
    requires HasStatus(s.db, p, Processing)
    ensures from == Routed ==> !HasStatus(s.db, p, from)
  {
  }

  lemma NewId(fleet: set<Config>, s: State, c: Change)
    requires Justified(fleet, s, c)
    ensures c.Create? ==> c.p !in s.db.payments && forall st :: !HasStatus(s.db, c.p, st)
  {
    hide BaseUnits, SelectedQuote, ResponseOk, SigningOk, MoveOk, CanSign, Insertable;
  }

  lemma ClaimsStable(fleet: set<Config>, s: State, c: Change, pc: Pc, p: PaymentId, row: Option<Execution>)
    requires Justified(fleet, s, c) && Claims(s, p, row) && Drives(pc) == Some(p) && !HasBytes(pc) && Apart(s, c, pc)
    ensures Claims(Commit(s, c), p, row)
  {
    hide Commit, Justified, HasStatus, Drives;
    if row.None? {
      NewId(fleet, s, c);
      RoutedIsNot(s, p, if c.MovePayment? then c.from else Routed);
      StatusStays(s, c, p, Processing);
    }
  }

  /** Payments that an actor drives or checks are claimed testnet payments. */
  lemma WorksOn(fleet: set<Config>, s: State, cfg: Config, pc: Pc, p: PaymentId)
    requires Rows(fleet, s) && ActorOk(s, cfg, pc) && (Drives(pc) == Some(p) || Checks(pc) == Some(p))
    ensures Claimed(s, p)
  {
    hide Rows, BaseUnits, SelectedQuote, ExceedsSlippageTolerance, RowForward, CanSign, MinedOk;
    match pc {
      case Persist(x, _) => RowFacts(fleet, s, x);
      case FindOnChain(x, _) => RowFacts(fleet, s, x);
      case Send(x, _) => RowFacts(fleet, s, x);
      case RecordBroadcast(x, _) => RowFacts(fleet, s, x);
      case Submit(x) => RowFacts(fleet, s, x);
      case Repair(x, _) => RowFacts(fleet, s, x);
      case ReadReceipt(x, _) => RowFacts(fleet, s, x);
      case AskProvider(x, _) => RowFacts(fleet, s, x);
      case RecordOutcome(x, _, _, _) => RowFacts(fleet, s, x);
      case Complete(x, _) => RowFacts(fleet, s, x);
      case _ =>
    }
  }

  lemma ReasonStable(fleet: set<Config>, s: State, c: Change, pc: Pc, p: PaymentId)
    requires Justified(fleet, s, c) && Evolves(s, Commit(s, c)) && Claimed(s, p) && Drives(pc) == Some(p)
    requires Apart(s, c, pc)
    ensures FailedWithReason(Commit(s, c), p) ==> FailedWithReason(s, p)
  {
    hide Commit, Justified, HasStatus, Forward, RowForward, HistoryEvolves;
    FailureStable(fleet, s, c, p);
  }

  /** The knowledge of a driver that is still preparing survives the others' changes. */
  lemma PreparingStable(fleet: set<Config>, s: State, c: Change, ceiling: Option<int>, cfg: Config, pc: Pc)
    requires Rows(fleet, s) && Justified(fleet, s, c) && Evolves(s, Commit(s, c)) && ActorOk(s, cfg, pc)
    requires OpenOk(s, ceiling, pc) && Apart(s, c, pc) && Drives(pc).Some? && !HasBytes(pc)
    ensures OpenOk(Commit(s, c), ceiling, pc)
  {
    hide Rows, Commit, Justified, Evolves, ActorOk, Claims, FailedWithReason, OverCeiling, Blocked, Apart, HasStatus,
      Claimed;
    var s', p := Commit(s, c), Drives(pc).value;
    WorksOn(fleet, s, cfg, pc, p);
    ActorsOf(s, c);
    BlockedStable(s, s', ceiling, p);
    ReasonStable(fleet, s, c, pc, p);
    match pc {
      case ReadQuote(_, row) => ClaimsStable(fleet, s, c, pc, p, row);
      case CheckExpiry(_, row, _) => ClaimsStable(fleet, s, c, pc, p, row);
      case ReadPayment(_, row, _) => ClaimsStable(fleet, s, c, pc, p, row);
      case FetchQuote(_, row, _, _) => ClaimsStable(fleet, s, c, pc, p, row);
      case CreateExecution(_, _, _, _) => ClaimsStable(fleet, s, c, pc, p, None);
      case FailPayment(_, _) => if p in s'.db.byPayment { RowlessStays(s, c, pc, p); }
      case Sign(_, _, _) =>
      case Persist(_, _) =>
    }
  }

  lemma RowlessStays(s: State, c: Change, pc: Pc, p: PaymentId)
    requires Drives(pc) == Some(p) && Apart(s, c, pc) && p in Commit(s, c).db.byPayment
    ensures p in s.db.byPayment
  {
    hide Commit, HasStatus;
    RowAppears(s, c, p);
  }

  lemma CheckedStable(fleet: set<Config>, s: State, c: Change, pc: Pc, p: PaymentId)
    requires Justified(fleet, s, c) && Checks(pc) == Some(p) && Apart(s, c, pc)
    ensures HasStatus(s.db, p, Submitted) ==> HasStatus(Commit(s, c).db, p, Submitted)
    ensures HasStatus(s.db, p, Processing) ==>
      HasStatus(Commit(s, c).db, p, Processing) || HasStatus(Commit(s, c).db, p, Submitted)
  {
    hide BaseUnits, SelectedQuote, ResponseOk, SigningOk, MoveOk, CanSign, Insertable;
  }

  lemma OpenStable(fleet: set<Config>, s: State, c: Change, ceiling: Option<int>, cfg: Config, pc: Pc)
    requires Rows(fleet, s) && Justified(fleet, s, c) && Evolves(s, Commit(s, c)) && ActorOk(s, cfg, pc)
    requires OpenOk(s, ceiling, pc) && Apart(s, c, pc)
    ensures OpenOk(Commit(s, c), ceiling, pc)
  {
    hide Rows, Commit, Justified, Evolves, ActorOk, Apart, HasStatus, Claims, FailedWithReason, OverCeiling, Blocked;
    if Checks(pc).Some? {
      CheckedStable(fleet, s, c, pc, Checks(pc).value);
    } else if Drives(pc).Some? && !HasBytes(pc) {
      PreparingStable(fleet, s, c, ceiling, cfg, pc);
    }
  }

  /** None of it depends on the other actors, and time passing only blocks more. */
  lemma OpenIgnoresActors(s: State, s': State, ceiling: Option<int>, pc: Pc)
    requires OpenOk(s, ceiling, pc) && s' == s.(actors := s'.actors, clock := s'.clock) && s.clock <= s'.clock
    ensures OpenOk(s', ceiling, pc)
  {
    hide BaseUnits, SelectedQuote;
  }

  // ---- An actor's own next call ----

  /** What a driver can use of the invariants about its own payment. */
  ghost predicate Mine(s: State, ceiling: Option<int>, p: PaymentId) {
    && p in s.db.payments && StatusOk(s, p)
    && (FailedWithReason(s, p) ==> SignedAs(s, p, None) && Blocked(s, ceiling, p))
  }

  lemma CheckNext(s: State, ceiling: Option<int>, cfg: Config, pc: Pc, o: Oracle)
    requires pc.ReadQuote? || pc.CheckExpiry? || pc.ReadPayment?
    requires Mine(s, ceiling, pc.p) && ActorOk(s, cfg, pc) && BytesOk(s, pc) && OpenOk(s, ceiling, pc)
    ensures var t := Effect(s, cfg, pc, o); t.change == Nothing && (t.next.Some? ==> OpenOk(s, ceiling, t.next.value))
  {
    hide BaseUnits, SelectedQuote, Outcome, OverCeiling, RowForward;
  }

  lemma QuoteNext(s: State, ceiling: Option<int>, cfg: Config, pc: Pc, o: Oracle)
    requires pc.FetchQuote? && cfg.maxAmount == ceiling
    requires Mine(s, ceiling, pc.p) && ActorOk(s, cfg, pc) && BytesOk(s, pc) && OpenOk(s, ceiling, pc)
    ensures var t := Effect(s, cfg, pc, o); t.change == Nothing && (t.next.Some? ==> OpenOk(s, ceiling, t.next.value))
  {
    hide BaseUnits, SelectedQuote, Outcome, ExceedsSlippageTolerance, ValidEnvelope, RowForward, Expired;
  }

  lemma CreateNext(s: State, ceiling: Option<int>, cfg: Config, pc: Pc, o: Oracle)
    requires pc.CreateExecution? && Mine(s, ceiling, pc.p) && OpenOk(s, ceiling, pc)
    ensures var t := Effect(s, cfg, pc, o); t.next.Some? ==> OpenOk(Commit(s, t.change), ceiling, t.next.value)
  {
    hide BaseUnits, SelectedQuote, Outcome, OverCeiling, Expired;
  }

  lemma SignNext(s: State, ceiling: Option<int>, cfg: Config, pc: Pc, o: Oracle)
    requires (pc.Sign? || HasBytes(pc) || pc.Persist?) && OpenOk(s, ceiling, pc)
    ensures var t := Effect(s, cfg, pc, o); t.next.Some? ==> OpenOk(Commit(s, t.change), ceiling, t.next.value)
  {
    hide BaseUnits, SelectedQuote, MinedOk, AfterQuote, Allocate, AnswerFor, TxFor, MoveStatus, PersistSigned,
      MarkBroadcast;
  }

  lemma OutcomeNext(s: State, ceiling: Option<int>, cfg: Config, pc: Pc, o: Oracle)
    requires Checks(pc).Some? && OpenOk(s, ceiling, pc)
    ensures var t := Effect(s, cfg, pc, o); t.next.Some? ==> OpenOk(Commit(s, t.change), ceiling, t.next.value)
  {
    hide BaseUnits, SelectedQuote, MinedOk;
  }

  lemma OtherNext(s: State, ceiling: Option<int>, cfg: Config, pc: Pc, o: Oracle)
    requires Checks(pc).None? && (Drives(pc).None? || pc.FailPayment?)
    ensures var t := Effect(s, cfg, pc, o); t.next.Some? ==> OpenOk(Commit(s, t.change), ceiling, t.next.value)
  {
    hide BaseUnits, SelectedQuote, Matches, Insertable, Outcome;
  }

  lemma OpenNext(s: State, ceiling: Option<int>, cfg: Config, pc: Pc, o: Oracle)
    requires ActorOk(s, cfg, pc) && BytesOk(s, pc) && OpenOk(s, ceiling, pc) && cfg.maxAmount == ceiling
    requires Drives(pc).Some? ==> Mine(s, ceiling, Drives(pc).value)
    ensures var t := Effect(s, cfg, pc, o); t.next.Some? ==> OpenOk(Commit(s, t.change), ceiling, t.next.value)
  {
    hide ActorOk, BytesOk, OpenOk, Mine, Effect, Commit;
    CommitNothing(s);
    match pc {
      case ReadQuote(_, _) => CheckNext(s, ceiling, cfg, pc, o);
      case CheckExpiry(_, _, _) => CheckNext(s, ceiling, cfg, pc, o);
      case ReadPayment(_, _, _) => CheckNext(s, ceiling, cfg, pc, o);
      case FetchQuote(_, _, _, _) => QuoteNext(s, ceiling, cfg, pc, o);
      case CreateExecution(_, _, _, _) => CreateNext(s, ceiling, cfg, pc, o);
      case _ =>
        if Checks(pc).Some? {
          OutcomeNext(s, ceiling, cfg, pc, o);
        } else if Drives(pc).Some? && !pc.FailPayment? {
          SignNext(s, ceiling, cfg, pc, o);
        } else {
          OtherNext(s, ceiling, cfg, pc, o);
        }
    }
  }

  /** A row that is signed and unconfirmed belongs to a payment that is PROCESSING or SUBMITTED. */
  lemma UnconfirmedIsOpen(fleet: set<Config>, s: State, ceiling: Option<int>, id: ExecId)
    requires Inv(fleet, s) && id in s.db.executions && s.db.executions[id].signed.Some?
    requires !s.db.executions[id].confirmed
    requires FailureOk(s, ceiling, s.db.executions[id].payment)
    ensures var p := s.db.executions[id].payment; HasStatus(s.db, p, Processing) || HasStatus(s.db, p, Submitted)
  {
    hide Inv, Blocked, Outcome;
    RowKeys(fleet, s, id);
    RowOfPayment(fleet, s, s.db.executions[id].payment);
    StatusFacts(fleet, s, s.db.executions[id].payment);
  }

  lemma BeginOpen(fleet: set<Config>, s: State, ceiling: Option<int>, start: Start)
    requires Inv(fleet, s) && CanBegin(s, start) && forall p :: FailureOk(s, ceiling, p)
    ensures var t := Beginning(s, start); t.next.Some? ==> OpenOk(Commit(s, t.change), ceiling, t.next.value)
  {
    hide Inv, FailureOk, BaseUnits, SelectedQuote;
    if start.CheckOutcome? { UnconfirmedIsOpen(fleet, s, ceiling, start.id); }
  }

  // ---- The actors stay out of each other's way ----

  lemma SubmittedIsSigned(fleet: set<Config>, s: State, p: PaymentId)
    requires Inv(fleet, s) && HasStatus(s.db, p, Submitted)
    ensures SignedRow(s, p)
  {
    hide Inv, Outcome;
    StatusFacts(fleet, s, p);
    RowOfPayment(fleet, s, p);
  }

  lemma CheckedIsSigned(fleet: set<Config>, s: State, ceiling: Option<int>, cfg: Config, pc: Pc, p: PaymentId)
    requires Inv(fleet, s) && ActorOk(s, cfg, pc) && OpenOk(s, ceiling, pc) && Checks(pc) == Some(p)
    ensures SignedRow(s, p)
  {
    hide Inv, BaseUnits, SelectedQuote, ExceedsSlippageTolerance, RowForward, CanSign, MinedOk;
    if pc.Repair? {
      RowsOf(fleet, s);
      RowFacts(fleet, s, pc.x);
    } else {
      SubmittedIsSigned(fleet, s, p);
    }
  }

  ghost predicate Peer(fleet: set<Config>, s: State, ceiling: Option<int>, x: Actor) {
    Inv(fleet, s) && ActorOk(s, x.cfg, x.pc) && BytesOk(s, x.pc) && OpenOk(s, ceiling, x.pc)
  }

  lemma FailureApart(fleet: set<Config>, s: State, ceiling: Option<int>, x: Actor, y: Actor, c: Change)
    requires Peer(fleet, s, ceiling, x) && Peer(fleet, s, ceiling, y) && c.FailWith?
    requires x.pc == FailPayment(c.p, c.reason)
    requires Drives(x.pc) != Drives(y.pc)
    ensures Apart(s, c, y.pc)
  {
    hide Inv, ActorOk, OpenOk;
    if Checks(y.pc) == Some(c.p) { CheckedIsSigned(fleet, s, ceiling, y.cfg, y.pc, c.p); }
  }

  lemma MoveApart(fleet: set<Config>, s: State, ceiling: Option<int>, x: Actor, y: Actor, c: Change)
    requires Peer(fleet, s, ceiling, x) && Peer(fleet, s, ceiling, y) && c.MovePayment?
    requires (x.pc.Submit? || x.pc.Repair? || x.pc.Complete?) && x.pc.x.payment == c.p
    requires !x.pc.Complete? ==> c.from == Processing && c.to == Submitted
    requires Drives(x.pc).Some? ==> Drives(x.pc) != Drives(y.pc)
    requires Checks(x.pc).Some? ==> Checks(x.pc) != Checks(y.pc)
    ensures Apart(s, c, y.pc)
  {
    hide Inv, ActorOk, BytesOk, OpenOk, HasStatus, HasBytes;
    if !x.pc.Submit? {
      CheckedIsSigned(fleet, s, ceiling, x.cfg, x.pc, c.p);
      SignedIsPastChecks(s, y.pc, c.p);
    }
  }

  lemma SimulatedApart(fleet: set<Config>, s: State, ceiling: Option<int>, x: Actor, y: Actor, c: Change)
    requires Peer(fleet, s, ceiling, x) && Peer(fleet, s, ceiling, y) && c.MovePayment?
    requires x.pc == CompleteSimulated(c.p)
    ensures Apart(s, c, y.pc)
  {
    hide Inv, BytesOk, OpenOk, BaseUnits, SelectedQuote, ExceedsSlippageTolerance, RowForward, CanSign, MinedOk,
      HasStatus, HasBytes;
    RowsOf(fleet, s);
    if Drives(y.pc) == Some(c.p) || Checks(y.pc) == Some(c.p) { WorksOn(fleet, s, y.cfg, y.pc, c.p); }
  }

  lemma StepApart(fleet: set<Config>, s: State, ceiling: Option<int>, x: Actor, y: Actor, o: Oracle)
    requires Peer(fleet, s, ceiling, x) && Peer(fleet, s, ceiling, y)
    requires Drives(x.pc).Some? ==> Drives(x.pc) != Drives(y.pc)
    requires Checks(x.pc).Some? ==> Checks(x.pc) != Checks(y.pc)
    ensures Apart(s, Effect(s, x.cfg, x.pc, o).change, y.pc)
  {
    hide Peer, Effect, HasBytes, HasStatus;
    var c := Effect(s, x.cfg, x.pc, o).change;
    ChangeOf(s, x.cfg, x.pc, o);
    match c {
      case FailWith(_, _) => FailureApart(fleet, s, ceiling, x, y, c);
      case MovePayment(p, _, _) =>
        if x.pc == CompleteSimulated(p) {
          SimulatedApart(fleet, s, ceiling, x, y, c);
        } else {
          MoveApart(fleet, s, ceiling, x, y, c);
        }
      case _ =>
    }
  }

  lemma BeginApart(s: State, start: Start, pc: Pc)
    requires CanBegin(s, start)
    ensures Apart(s, Beginning(s, start).change, pc)
  {
  }

  // ---- Failures ----

  /** Why a change cannot revive a payment that failed with a reason. */
  ghost predicate Final(s: State, s': State, c: Change, ceiling: Option<int>, p: PaymentId) {
    && (c.FailWith? && c.p == p ==>
      (p !in s.db.byPayment && NotDriven(s', p)) || (SignedAs(s, p, None) && Blocked(s, ceiling, p)))
    && (c.NewRow? && c.row.payment == p ==> !FailedWithReason(s, p))
    && (c.StoreTx? && c.id in s.db.executions && s.db.executions[c.id].payment == p ==> !FailedWithReason(s, p))
    && (FailedWithReason(s, p) && p !in s.db.byPayment && NotDriven(s, p) ==> NotDriven(s', p))
  }

  lemma FailedBefore(fleet: set<Config>, s: State, c: Change, p: PaymentId)
    requires Justified(fleet, s, c) && FailedWithReason(Commit(s, c), p) && !(c.FailWith? && c.p == p)
    ensures FailedWithReason(s, p)
  {
    hide BaseUnits, SelectedQuote, ResponseOk, SigningOk, MoveOk, CanSign, Insertable;
  }

  lemma FailureKept(fleet: set<Config>, s: State, s': State, c: Change, ceiling: Option<int>, p: PaymentId)
    requires Rows(fleet, s) && Justified(fleet, s, c) && Evolves(s, s') && s.clock <= s'.clock
    requires s' == Commit(s, c).(actors := s'.actors, clock := s'.clock)
    requires FailureOk(s, ceiling, p) && Final(s, s', c, ceiling, p)
    ensures FailureOk(s', ceiling, p)
  {
    hide Rows, Justified, Commit, Evolves, SignedAs, Blocked, NotDriven;
    if FailedWithReason(s', p) {
      BlockedStable(s, s', ceiling, p);
      if !(c.FailWith? && c.p == p) { FailedBefore(fleet, s, c, p); }
      if SignedAs(s, p, None) {
        SignedStable(fleet, s, c, p, None);
        SignedIgnoresActors(Commit(s, c), s', p, None);
      }
      if p !in s.db.byPayment { NoRowStable(s, c, p); }
    }
  }

  /** A call only ever goes on driving the payment it was driving. */
  lemma DrivesKept(s: State, cfg: Config, pc: Pc, o: Oracle)
    requires ActorOk(s, cfg, pc)
    ensures var t := Effect(s, cfg, pc, o);
      t.next.Some? && Drives(t.next.value).Some? ==> Drives(t.next.value) == Drives(pc)
  {
    hide BaseUnits, SelectedQuote, ExceedsSlippageTolerance, ValidEnvelope, Matches, Insertable, Outcome, MinedOk,
      TxFor,
      RowForward, CanSign, Claimed, QuoteIs, CheckOk, EnvelopeOk, Within;
  }

  /** Whoever starts driving a payment without a row finds it not failed. */
  lemma BeginDrives(fleet: set<Config>, s: State, start: Start, p: PaymentId)
    requires Inv(fleet, s) && CanBegin(s, start)
    ensures var t := Beginning(s, start);
      t.next.Some? && Drives(t.next.value) == Some(p) && p !in s.db.byPayment ==> !FailedWithReason(s, p)
  {
    hide Inv, Outcome;
    if start.DriveForward? { RowKeys(fleet, s, start.id); }
    if p in s.db.payments { StatusFacts(fleet, s, p); }
  }

  lemma StepFinal(fleet: set<Config>, s: State, ceiling: Option<int>, a: ActorId, o: Oracle, p: PaymentId)
    requires a in s.actors && Peer(fleet, s, ceiling, s.actors[a]) && OneDriverEach(s)
    ensures var t := Effect(s, s.actors[a].cfg, s.actors[a].pc, o);
      Final(s, Continue(s, a, s.actors[a].cfg, t), t.change, ceiling, p)
  {
    hide Inv, ActorOk, BytesOk, OpenOk, Effect, Commit, SignedAs, Blocked, FailedWithReason, OneDriverEach, Continue,
      NotDriven;
    var cfg, pc := s.actors[a].cfg, s.actors[a].pc;
    NoNewRow(fleet, s, ceiling, cfg, pc, o, p);
    EndsDriven(s, ceiling, a, o, p);
    StaysUndriven(s, a, o, p);
  }

  /** Rows are created and signed only for payments that have not failed. */
  lemma NoNewRow(fleet: set<Config>, s: State, ceiling: Option<int>, cfg: Config, pc: Pc, o: Oracle, p: PaymentId)
    requires Inv(fleet, s) && ActorOk(s, cfg, pc) && OpenOk(s, ceiling, pc)
    ensures var c := Effect(s, cfg, pc, o).change;
      && (c.NewRow? && c.row.payment == p ==> !FailedWithReason(s, p))
      && (c.StoreTx? && c.id in s.db.executions && s.db.executions[c.id].payment == p ==> !FailedWithReason(s, p))
  {
    hide Inv, ActorOk, OpenOk, Effect, FailedWithReason, HasStatus;
    ChangeOf(s, cfg, pc, o);
    NoReason(fleet, s, p);
    StillOpen(s, ceiling, pc);
    if pc.Persist? { RowsOf(fleet, s); PersistedRow(fleet, s, cfg, pc); }
  }

  lemma StillOpen(s: State, ceiling: Option<int>, pc: Pc)
    requires OpenOk(s, ceiling, pc)
    ensures pc.CreateExecution? ==> HasStatus(s.db, pc.p, Processing)
    ensures pc.Persist? ==> !FailedWithReason(s, pc.x.payment)
  {
    hide Blocked, OverCeiling, FailedWithReason, HasStatus;
  }

  /** The driver that fails a payment was its only one, and stops. */
  lemma EndsDriven(s: State, ceiling: Option<int>, a: ActorId, o: Oracle, p: PaymentId)
    requires a in s.actors && BytesOk(s, s.actors[a].pc) && OpenOk(s, ceiling, s.actors[a].pc) && OneDriverEach(s)
    ensures var t := Effect(s, s.actors[a].cfg, s.actors[a].pc, o);
      t.change.FailWith? && t.change.p == p ==>
        || (p !in s.db.byPayment && NotDriven(Continue(s, a, s.actors[a].cfg, t), p))
        || (SignedAs(s, p, None) && Blocked(s, ceiling, p))
  {
    hide Effect, Commit, SignedAs, Blocked, Unsigned, Claims, FailedWithReason, OverCeiling, HasStatus;
    ChangeOf(s, s.actors[a].cfg, s.actors[a].pc, o);
    FailEnds(s, s.actors[a].cfg, s.actors[a].pc, o);
    ActorsOf(s, Effect(s, s.actors[a].cfg, s.actors[a].pc, o).change);
  }

  lemma FailEnds(s: State, cfg: Config, pc: Pc, o: Oracle)
    ensures Effect(s, cfg, pc, o).change.FailWith? ==> Effect(s, cfg, pc, o).next.None?
  {
    hide BaseUnits, SelectedQuote, ExceedsSlippageTolerance, ValidEnvelope, Matches, Insertable, Outcome, MinedOk,
      TxFor;
  }

  lemma StaysUndriven(s: State, a: ActorId, o: Oracle, p: PaymentId)
    requires a in s.actors && ActorOk(s, s.actors[a].cfg, s.actors[a].pc)
    ensures var t := Effect(s, s.actors[a].cfg, s.actors[a].pc, o);
      NotDriven(s, p) ==> NotDriven(Continue(s, a, s.actors[a].cfg, t), p)
  {
    hide Effect, Commit, ActorOk;
    DrivesKept(s, s.actors[a].cfg, s.actors[a].pc, o);
    ActorsOf(s, Effect(s, s.actors[a].cfg, s.actors[a].pc, o).change);
  }

  lemma NoReason(fleet: set<Config>, s: State, p: PaymentId)
    requires Inv(fleet, s)
    ensures HasStatus(s.db, p, Processing) ==> !FailedWithReason(s, p)
  {
    hide Inv, Outcome;
    if p in s.db.payments { StatusFacts(fleet, s, p); }
  }

  lemma BeginFinal(fleet: set<Config>, s: State, ceiling: Option<int>, a: ActorId, cfg: Config, start: Start,
                   p: PaymentId)
    requires Inv(fleet, s) && CanBegin(s, start)
    ensures var t := Beginning(s, start); Final(s, Continue(s, a, cfg, t), t.change, ceiling, p)
  {
    hide Inv, CanBegin, Beginning, Commit, SignedAs, Blocked;
    BeginChange(s, start);
    BeginDrives(fleet, s, start, p);
  }

  lemma QuietFinal(s: State, s': State, c: Change, ceiling: Option<int>, p: PaymentId)
    requires c == Nothing || c.MineTx? || c.Seed?
    requires forall a <- s'.actors :: a in s.actors && s'.actors[a] == s.actors[a]
    ensures Final(s, s', c, ceiling, p)
  {
    hide BaseUnits, SelectedQuote;
  }

  // ---- Whole runs ----

  /** The part of carefulness that is about statuses and failures. */
  ghost predicate Open(s: State, ceiling: Option<int>) {
    (forall a <- s.actors :: OpenOk(s, ceiling, s.actors[a].pc)) && forall p :: FailureOk(s, ceiling, p)
  }

  lemma EvolvesIgnoresActors(s: State, s1: State, s': State)
    requires s' == s1.(actors := s'.actors, clock := s'.clock)
    ensures Evolves(s, s') <==> Evolves(s, s1)
  {
    hide DbEvolves, HistoryEvolves, Extends;
  }

  lemma TurnOpen(fleet: set<Config>, s: State, ceiling: Option<int>, a: ActorId, cfg: Config, t: Turn)
    requires Inv(fleet, s) && Open(s, ceiling) && Justified(fleet, s, t.change) && Evolves(s, Commit(s, t.change))
    requires forall b <- s.actors :: b != a ==> Apart(s, t.change, s.actors[b].pc)
    requires t.next.Some? ==> OpenOk(Commit(s, t.change), ceiling, t.next.value)
    requires forall p :: FailureOk(Continue(s, a, cfg, t), ceiling, p)
    ensures Open(Continue(s, a, cfg, t), ceiling)
  {
    hide Inv, OpenOk, FailureOk, Apart, Justified, Evolves, Commit;
    var s1, s' := Commit(s, t.change), Continue(s, a, cfg, t);
    RowsOf(fleet, s);
    ActorsOf(s, t.change);
    forall b | b in s'.actors
      ensures OpenOk(s', ceiling, s'.actors[b].pc)
    {
      if b != a {
        ActorOf(fleet, s, b);
        OpenStable(fleet, s, t.change, ceiling, s.actors[b].cfg, s.actors[b].pc);
      }
      OpenIgnoresActors(s1, s', ceiling, s'.actors[b].pc);
    }
  }

  lemma MineOf(fleet: set<Config>, s: State, ceiling: Option<int>, a: ActorId, p: PaymentId)
    requires Inv(fleet, s) && Open(s, ceiling) && a in s.actors && Drives(s.actors[a].pc) == Some(p)
    ensures Mine(s, ceiling, p)
  {
    hide Inv, OpenOk, SignedAs, Blocked, ActorOk, StatusOk;
    RowsOf(fleet, s);
    ActorOf(fleet, s, a);
    WorksOn(fleet, s, s.actors[a].cfg, s.actors[a].pc, p);
    StatusFacts(fleet, s, p);
    assert FailureOk(s, ceiling, p);
  }

  lemma StepOpen(fleet: set<Config>, s: State, ceiling: Option<int>, a: ActorId, o: Oracle)
    requires Inv(fleet, s) && BytesSafe(s) && Open(s, ceiling) && OneDriverEach(s) && OneCheckEach(s)
    requires Enabled(fleet, s, Step(a, o)) && s.actors[a].cfg.maxAmount == ceiling && Evolves(s, Apply(s, Step(a, o)))
    ensures Open(Apply(s, Step(a, o)), ceiling)
  {
    hide Inv, BytesOk, OpenOk, FailureOk, SendsStored, Apart, Justified, Evolves, Commit, Effect, OracleOk, ActorOk,
      Final, Mine,
      Drives, Checks;
    var cfg, pc := s.actors[a].cfg, s.actors[a].pc;
    var t := Effect(s, cfg, pc, o);
    var s' := Continue(s, a, cfg, t);
    RowsOf(fleet, s);
    ActorOf(fleet, s, a);
    var c := ActionChange(fleet, s, Step(a, o));
    ActorsOf(s, c);
    EvolvesIgnoresActors(s, Commit(s, c), s');
    forall b | b in s.actors && b != a
      ensures Apart(s, c, s.actors[b].pc)
    {
      ActorOf(fleet, s, b);
      StepApart(fleet, s, ceiling, s.actors[a], s.actors[b], o);
    }
    if Drives(pc).Some? { MineOf(fleet, s, ceiling, a, Drives(pc).value); }
    OpenNext(s, ceiling, cfg, pc, o);
    forall p
      ensures FailureOk(s', ceiling, p)
    {
      StepFinal(fleet, s, ceiling, a, o, p);
      FailureKept(fleet, s, s', c, ceiling, p);
    }
    TurnOpen(fleet, s, ceiling, a, cfg, t);
  }

  lemma BeginsOpen(fleet: set<Config>, s: State, ceiling: Option<int>, a: ActorId, cfg: Config, start: Start)
    requires Inv(fleet, s) && Open(s, ceiling) && Enabled(fleet, s, Begin(a, cfg, start))
    requires Evolves(s, Apply(s, Begin(a, cfg, start)))
    ensures Open(Apply(s, Begin(a, cfg, start)), ceiling)
  {
    hide Inv, OpenOk, FailureOk, Apart, Justified, Evolves, Commit, Beginning, CanBegin, Final;
    var t := Beginning(s, start);
    var s' := Continue(s, a, cfg, t);
    RowsOf(fleet, s);
    var c := ActionChange(fleet, s, Begin(a, cfg, start));
    ActorsOf(s, c);
    EvolvesIgnoresActors(s, Commit(s, c), s');
    forall b | b in s.actors && b != a
      ensures Apart(s, c, s.actors[b].pc)
    {
      BeginApart(s, start, s.actors[b].pc);
    }
    BeginOpen(fleet, s, ceiling, start);
    forall p
      ensures FailureOk(s', ceiling, p)
    {
      BeginFinal(fleet, s, ceiling, a, cfg, start, p);
      FailureKept(fleet, s, s', c, ceiling, p);
    }
    TurnOpen(fleet, s, ceiling, a, cfg, t);
  }

  /** Crashes, the clock, the chain and reseeding disturb nobody. */
  lemma QuietOpen(fleet: set<Config>, s: State, s': State, ceiling: Option<int>, c: Change)
    requires Inv(fleet, s) && Open(s, ceiling) && Justified(fleet, s, c) && (c == Nothing || c.MineTx? || c.Seed?)
    requires s' == Commit(s, c).(actors := s'.actors, clock := s'.clock) && s.clock <= s'.clock && Evolves(s, s')
    requires forall a <- s'.actors :: a in s.actors && s'.actors[a] == s.actors[a]
    ensures Open(s', ceiling)
  {
    hide Inv, OpenOk, FailureOk, Justified, Evolves, Commit;
    RowsOf(fleet, s);
    ActorsOf(s, c);
    EvolvesIgnoresActors(s, Commit(s, c), s');
    forall p
      ensures FailureOk(s', ceiling, p)
    {
      QuietFinal(s, s', c, ceiling, p);
      FailureKept(fleet, s, s', c, ceiling, p);
    }
    forall a | a in s'.actors
      ensures OpenOk(s', ceiling, s'.actors[a].pc)
    {
      ActorOf(fleet, s, a);
      OpenStable(fleet, s, c, ceiling, s.actors[a].cfg, s.actors[a].pc);
      OpenIgnoresActors(Commit(s, c), s', ceiling, s.actors[a].pc);
    }
  }

  lemma ActionOpen(fleet: set<Config>, s: State, ceiling: Option<int>, act: Action)
    requires Inv(fleet, s) && BytesSafe(s) && Open(s, ceiling) && OneDriverEach(s) && OneCheckEach(s)
    requires Enabled(fleet, s, act) && s.clock <= Apply(s, act).clock
    requires forall c <- fleet :: c.maxAmount == ceiling
    ensures Open(Apply(s, act), ceiling)
  {
    hide Inv, BytesSafe, Open, OneDriverEach, OneCheckEach, Commit, Apply, CanBegin, OracleOk, Evolves, Justified;
    ActionKeeps(fleet, s, act);
    match act {
      case Begin(a, cfg, start) => BeginsOpen(fleet, s, ceiling, a, cfg, start);
      case Step(a, o) => ActorOf(fleet, s, a); StepOpen(fleet, s, ceiling, a, o);
      case _ =>
        var c := ActionChange(fleet, s, act);
        QuietActors(s, act);
        QuietOpen(fleet, s, Apply(s, act), ceiling, c);
    }
  }

  /** Every state of a careful run is careful. */
  lemma {:induction false} RunCareful(fleet: set<Config>, ceiling: Option<int>, states: seq<State>, acts: seq<Action>,
                                      i: nat)
    requires CarefulRun(fleet, ceiling, states, acts) && i < |states|
    ensures Careful(states[i], ceiling)
  {
    hide Run, Inv, Apply, Enabled, OneDriverEach, OneCheckEach, OpenOk, BytesSafe;
    RunLength(fleet, states, acts);
    RunBytes(fleet, states, acts, i);
    if i > 0 {
      RunCareful(fleet, ceiling, states, acts, i - 1);
      RunNext(fleet, states, acts, i - 1);
      RunSafe(fleet, states, acts, i - 1);
      ActionOpen(fleet, states[i - 1], ceiling, acts[i - 1]);
    }
  }

  // ---- The theorems ----

  /**
   * A payment that failed with a reason is never signed or sent at any
   * later point, however often its row is driven again.
   */
  lemma FailedNeverPays(fleet: set<Config>, ceiling: Option<int>, states: seq<State>, acts: seq<Action>,
                        i: nat, j: nat, p: PaymentId)
    requires CarefulRun(fleet, ceiling, states, acts) && i <= j < |states| && FailedWithReason(states[i], p)
    ensures FailedWithReason(states[j], p) && HasStatus(states[j].db, p, Failed)
    ensures !SignedRow(states[j], p) && forall st <- states[j].h.sends :: st.p != p
  {
    hide Run, Inv, OneDriverEach, OneCheckEach, OpenOk, BytesOk, Outcome, Blocked, NotDriven;
    RunSafe(fleet, states, acts, i);
    RunCareful(fleet, ceiling, states, acts, j);
    StatusFacts(fleet, states[i], p);
    StatusOnlyMovesForward(fleet, states, acts, i, j, p);
    assert FailureOk(states[j], ceiling, p);
  }

  /** Whenever the reconciler completes a payment, the payment is SUBMITTED: its update always takes effect. */
  lemma CompletionAlwaysLands(fleet: set<Config>, ceiling: Option<int>, states: seq<State>, acts: seq<Action>, i: nat)
    requires CarefulRun(fleet, ceiling, states, acts) && i < |acts| && i + 1 < |states|
    requires acts[i].Step? && acts[i].a in states[i].actors && states[i].actors[acts[i].a].pc.Complete?
    ensures var pc := states[i].actors[acts[i].a].pc;
      HasStatus(states[i].db, pc.x.payment, Submitted) && HasStatus(states[i + 1].db, pc.x.payment, pc.terminal)
  {
    hide Run, OneDriverEach, OneCheckEach, FailureOk, BytesSafe, Enabled, Apply;
    RunCareful(fleet, ceiling, states, acts, i);
    RunNext(fleet, states, acts, i);
    CompleteStep(states[i], acts[i].a, acts[i].o);
  }

  lemma CompleteStep(s: State, a: ActorId, o: Oracle)
    requires a in s.actors && s.actors[a].pc.Complete?
    ensures var pc := s.actors[a].pc; Apply(s, Step(a, o)).db == MoveStatus(s.db, pc.x.payment, Submitted, pc.terminal)
  {
    hide MoveStatus, AfterQuote, Allocate, AnswerFor, KeyTaken, BaseUnits, SelectedQuote, MinedOk, TxFor, Insertable,
      Outcome;
  }
}
