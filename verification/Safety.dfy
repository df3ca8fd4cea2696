/** The invariant holds in every state of every run, whatever the interleaving, crashes and redeliveries. */
module Safety {
  import opened Payments
  import opened Database
  import opened Protocol
  import opened Invariants

  /** The part of the invariant that does not look at the actors. */
  ghost predicate Shared(fleet: set<Config>, s: State) {
    Intake(s) && Logged(s) && Answered(s) && Rows(fleet, s) && Statuses(s) && Signatures(fleet, s)
  }

  lemma CommitShared(fleet: set<Config>, s: State, c: Change)
    requires Shared(fleet, s) && Justified(fleet, s, c)
    ensures Evolves(s, Commit(s, c)) && Shared(fleet, Commit(s, c))
  {
    hide Intake, Logged, Answered, Rows, Statuses, Signatures, Justified, Commit, Evolves;
    CommitEvolves(fleet, s, c);
    CommitIntake(fleet, s, c);
    CommitLogged(fleet, s, c);
    CommitAnswered(fleet, s, c);
    CommitRows(fleet, s, c);
    CommitStatuses(fleet, s, c);
    CommitSignatures(fleet, s, c);
  }

  lemma RowsIgnoreActors(fleet: set<Config>, s: State, actors: map<ActorId, Actor>, clock: int)
    requires Rows(fleet, s)
    ensures Rows(fleet, s.(actors := actors, clock := clock))
  {
    hide BaseUnits, SelectedQuote, CanSign;
  }

  lemma AnswersIgnoreActors(s: State, actors: map<ActorId, Actor>, clock: int)
    requires Answered(s)
    ensures Answered(s.(actors := actors, clock := clock))
  {
    hide BaseUnits;
  }

  lemma SharedIgnoresActors(fleet: set<Config>, s: State, actors: map<ActorId, Actor>, clock: int)
    requires Shared(fleet, s)
    ensures Shared(fleet, s.(actors := actors, clock := clock))
  {
    hide BaseUnits, SelectedQuote, Outcome, Together, LogOk, Rows, Answered, ExceedsSlippageTolerance;
    RowsIgnoreActors(fleet, s, actors, clock);
    AnswersIgnoreActors(s, actors, clock);
  }

  lemma EvolvesTransitive(s: State, s': State, s'': State)
    requires Evolves(s, s') && Evolves(s', s'')
    ensures Evolves(s, s'')
  {
  }

  // ---- One action ----

  lemma StepIsGood(fleet: set<Config>, s: State, cfg: Config, pc: Pc, o: Oracle)
    requires Ready(fleet, s, cfg, pc, o)
    ensures StepGood(fleet, s, cfg, Effect(s, cfg, pc, o))
  {
    hide Ready, StepGood, Effect;
    match pc
    case ReadQuote(_, _) => PrepareStep(fleet, s, cfg, pc, o);
    case CheckExpiry(_, _, _) => PrepareStep(fleet, s, cfg, pc, o);
    case ReadPayment(_, _, _) => PrepareStep(fleet, s, cfg, pc, o);
    case FailPayment(_, _) => PrepareStep(fleet, s, cfg, pc, o);
    case FetchQuote(_, _, _, _) => QuoteStep(fleet, s, cfg, pc, o);
    case CreateExecution(_, _, _, _) => CreateStep(fleet, s, cfg, pc, o);
    case Sign(_, _, _) => SignStep(fleet, s, cfg, pc, o);
    case Persist(_, _) => BroadcastStep(fleet, s, cfg, pc, o);
    case FindOnChain(_, _) => BroadcastStep(fleet, s, cfg, pc, o);
    case Send(_, _) => BroadcastStep(fleet, s, cfg, pc, o);
    case RecordBroadcast(_, _) => AnnounceStep(fleet, s, cfg, pc, o);
    case Submit(_) => SubmitStep(fleet, s, cfg, pc, o);
    case Repair(_, _) => SubmitStep(fleet, s, cfg, pc, o);
    case ReadReceipt(_, _) => LookStep(fleet, s, cfg, pc, o);
    case AskProvider(_, _) => LookStep(fleet, s, cfg, pc, o);
    case RecordOutcome(_, _, _, _) => OutcomeStep(fleet, s, cfg, pc, o);
    case Complete(_, _) => CompleteStep(fleet, s, cfg, pc, o);
    case _ => IntakeStep(fleet, s, cfg, pc, o);
  }

  lemma BeginIsGood(fleet: set<Config>, s: State, cfg: Config, start: Start)
    requires Rows(fleet, s) && CanBegin(s, start)
    ensures StepGood(fleet, s, cfg, Beginning(s, start))
  {
    hide Rows, BaseUnits, SelectedQuote, CanSign, Outcome, RowOk;
    if start.DriveForward? || start.CheckOutcome? { ReadRow(fleet, s, start.id); }
  }

  lemma ReadRow(fleet: set<Config>, s: State, id: ExecId)
    requires Rows(fleet, s) && id in s.db.executions
    ensures var x := s.db.executions[id];
      && x.id == id && Claimed(s, x.payment) && (x.signed.Some? ==> Stamp(x.payment, x.signed.value) in s.h.terms)
  {
    hide BaseUnits, SelectedQuote, CanSign;
    assert RowOk(fleet, s, id);
  }

  /**
   * The discipline of the row locks: only the holder of an outbox row publishes it, and holding starts on a free row.
   */
  ghost predicate LocksOk(s: State, a: ActorId, t: Turn) {
    && (t.change.Publish? ==> a in s.actors && Holds(s.actors[a].pc, t.change.event) && t.next.None?)
    && (forall e :: t.next.Some? && Holds(t.next.value, e) ==>
      || (a in s.actors && Holds(s.actors[a].pc, e))
      || (e in s.db.outbox && !s.db.outbox[e].published && forall b <- s.actors :: !Holds(s.actors[b].pc, e)))
  }

  lemma PublishersKept(fleet: set<Config>, s: State, a: ActorId, cfg: Config, t: Turn)
    requires Publishers(s) && LocksOk(s, a, t) && Justified(fleet, s, t.change)
    ensures Publishers(Continue(s, a, cfg, t))
  {
    hide Justified, Commit;
    OutboxOf(s, t.change);
    CreatesNew(fleet, s, t.change);
    ActorsOf(s, t.change);
  }

  lemma CreatesNew(fleet: set<Config>, s: State, c: Change)
    requires Justified(fleet, s, c)
    ensures c.Create? ==> c.event !in s.db.outbox
  {
    hide BaseUnits, SigningOk, MoveOk, SelectedQuote, ResponseOk;
  }

  /** Only two changes touch the outbox. */
  lemma OutboxOf(s: State, c: Change)
    ensures Commit(s, c).db.outbox == match c
      case Create(_, p, event) => s.db.outbox[event := OutboxRow(p, false)]
      case Publish(event) => MarkPublished(s.db, event).outbox
      case _ => s.db.outbox
  {
  }

  lemma ActorsOf(s: State, c: Change)
    ensures Commit(s, c).actors == s.actors && Commit(s, c).clock == s.clock
  {
  }

  lemma TurnKeeps(fleet: set<Config>, s: State, a: ActorId, cfg: Config, t: Turn)
    requires Inv(fleet, s) && cfg in fleet && StepGood(fleet, s, cfg, t) && LocksOk(s, a, t)
    ensures Inv(fleet, Continue(s, a, cfg, t)) && Evolves(s, Continue(s, a, cfg, t))
  {
    hide Commit, Justified, ActorOk, Publishers, LocksOk, Intake, Logged, Answered, Rows, Statuses, Signatures;
    var s1, s' := Commit(s, t.change), Continue(s, a, cfg, t);
    CommitShared(fleet, s, t.change);
    SharedIgnoresActors(fleet, s1, s'.actors, s'.clock);
    PublishersKept(fleet, s, a, cfg, t);
    forall b | b in s'.actors
      ensures s'.actors[b].cfg in fleet && ActorOk(s', s'.actors[b].cfg, s'.actors[b].pc)
    {
      if b != a {
        ActorStable(s, s', s.actors[b].cfg, s.actors[b].pc);
      } else {
        ActorIgnoresActors(s1, s', cfg, t.next.value);
      }
    }
  }

  lemma ActorIgnoresActors(s: State, s': State, cfg: Config, pc: Pc)
    requires ActorOk(s, cfg, pc) && s' == s.(actors := s'.actors)
    ensures ActorOk(s', cfg, pc)
  {
    hide BaseUnits, SelectedQuote;
  }

  lemma StepLocks(s: State, a: ActorId, o: Oracle)
    requires a in s.actors
    ensures LocksOk(s, a, Effect(s, s.actors[a].cfg, s.actors[a].pc, o))
  {
    hide BaseUnits, SelectedQuote, ExceedsSlippageTolerance, ValidEnvelope, Matches, Insertable, Outcome, MinedOk;
  }

  lemma BeginLocks(s: State, a: ActorId, start: Start)
    requires CanBegin(s, start)
    ensures LocksOk(s, a, Beginning(s, start))
  {
  }

  lemma StepKeeps(fleet: set<Config>, s: State, a: ActorId, o: Oracle)
    requires Inv(fleet, s) && Enabled(fleet, s, Step(a, o))
    ensures Inv(fleet, Apply(s, Step(a, o))) && Evolves(s, Apply(s, Step(a, o)))
  {
    hide Effect, StepGood, LocksOk, ActorOk, Intake, Logged, Answered, Rows, Statuses, Signatures, Publishers,
      OracleOk, Continue, Evolves;
    var cfg, pc := s.actors[a].cfg, s.actors[a].pc;
    StepIsGood(fleet, s, cfg, pc, o);
    StepLocks(s, a, o);
    TurnKeeps(fleet, s, a, cfg, Effect(s, cfg, pc, o));
  }

  lemma BeginKeeps(fleet: set<Config>, s: State, a: ActorId, cfg: Config, start: Start)
    requires Inv(fleet, s) && Enabled(fleet, s, Begin(a, cfg, start))
    ensures Inv(fleet, Apply(s, Begin(a, cfg, start))) && Evolves(s, Apply(s, Begin(a, cfg, start)))
  {
    hide Beginning, StepGood, LocksOk, Intake, Logged, Answered, Rows, Statuses, Signatures, Publishers, Actors,
      CanBegin, Continue, Evolves;
    BeginIsGood(fleet, s, cfg, start);
    BeginLocks(s, a, start);
    TurnKeeps(fleet, s, a, cfg, Beginning(s, start));
  }

  lemma EnvironmentKeeps(fleet: set<Config>, s: State, c: Change)
    requires Inv(fleet, s) && Justified(fleet, s, c) && (c.MineTx? || c.Seed?)
    ensures Inv(fleet, Commit(s, c)) && Evolves(s, Commit(s, c))
  {
    hide Commit, Justified, ActorOk, Evolves, Intake, Logged, Answered, Rows, Statuses, Signatures;
    CommitShared(fleet, s, c);
    OutboxOf(s, c);
    ActorsOf(s, c);
    var s' := Commit(s, c);
    forall b | b in s'.actors
      ensures ActorOk(s', s'.actors[b].cfg, s'.actors[b].pc)
    {
      ActorStable(s, s', s.actors[b].cfg, s.actors[b].pc);
    }
  }

  lemma QuietKeeps(fleet: set<Config>, s: State, s': State)
    requires Inv(fleet, s) && s' == s.(actors := s'.actors, clock := s'.clock)
    requires forall a <- s'.actors :: a in s.actors && s'.actors[a] == s.actors[a]
    ensures Inv(fleet, s') && Evolves(s, s')
  {
    hide ActorOk, Intake, Logged, Answered, Rows, Statuses, Signatures, DbEvolves, HistoryEvolves;
    SharedIgnoresActors(fleet, s, s'.actors, s'.clock);
    EvolvesReflexive(s.db, s.h);
    forall b | b in s'.actors
      ensures ActorOk(s', s'.actors[b].cfg, s'.actors[b].pc)
    {
      ActorStable(s, s', s.actors[b].cfg, s.actors[b].pc);
    }
  }

  /** Every action keeps the invariant and undoes nothing. */
  lemma ActionKeeps(fleet: set<Config>, s: State, act: Action)
    requires Inv(fleet, s) && Enabled(fleet, s, act)
    ensures Inv(fleet, Apply(s, act)) && Evolves(s, Apply(s, act))
  {
    hide Inv, Evolves, Commit, Continue, CanBegin, OracleOk;
    match act
    case Begin(a, cfg, start) => BeginKeeps(fleet, s, a, cfg, start);
    case Step(a, o) => StepKeeps(fleet, s, a, o);
    case Crash(_) => QuietKeeps(fleet, s, Apply(s, act));
    case SetClock(_) => QuietKeeps(fleet, s, Apply(s, act));
    case Mine(tx, ok) => EnvironmentKeeps(fleet, s, MineTx(tx, ok));
    case SeedNonce(w, n) => EnvironmentKeeps(fleet, s, Seed(w, n));
  }

  // ---- Whole runs ----

  /** The invariant holds in every state of every run. */
  lemma {:induction false} RunSafe(fleet: set<Config>, states: seq<State>, acts: seq<Action>, i: nat)
    requires Run(fleet, states, acts) && i < |states|
    ensures Inv(fleet, states[i])
  {
    hide Inv, Apply;
    if i == 0 {
      InvStarts(fleet);
    } else {
      RunSafe(fleet, states, acts, i - 1);
      assert Next(fleet, states[i - 1], acts[i - 1], states[i]);
      ActionKeeps(fleet, states[i - 1], acts[i - 1]);
    }
  }

  /** Nothing that was true of an earlier state is undone in a later one. */
  lemma {:induction false} RunEvolves(fleet: set<Config>, states: seq<State>, acts: seq<Action>, i: nat, j: nat)
    requires Run(fleet, states, acts) && i <= j < |states|
    ensures Evolves(states[i], states[j])
    decreases j - i
  {
    hide Inv, Apply;
    if i == j {
      EvolvesReflexive(states[i].db, states[i].h);
    } else {
      RunEvolves(fleet, states, acts, i, j - 1);
      RunSafe(fleet, states, acts, j - 1);
      assert Next(fleet, states[j - 1], acts[j - 1], states[j]);
      ActionKeeps(fleet, states[j - 1], acts[j - 1]);
      EvolvesTransitive(states[i], states[j - 1], states[j]);
    }
  }
}
