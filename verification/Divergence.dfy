/** The other half of "one mined transaction per payment": without a shared wallet and chain, some run mines two. */
module Divergence {
  import opened Common
  import opened Payments
  import opened Database
  import opened Protocol
  import opened Invariants
  import opened Safety
  import opened Traces
  import opened Theorems
  import opened SoleDrivers
  import Money

  /** Like `s`, except that actor `a` is about to make call `pc`. */
  function Placed(s: State, a: ActorId, cfg: Config, pc: Pc): State {
    s.(actors := s.actors[a := Actor(cfg, pc)])
  }

  lemma PlacedTwice(s: State, a: ActorId, cfg: Config, pc: Pc, pc': Pc)
    ensures Placed(Placed(s, a, cfg, pc), a, cfg, pc') == Placed(s, a, cfg, pc')
  {
    assert s.actors[a := Actor(cfg, pc)][a := Actor(cfg, pc')] == s.actors[a := Actor(cfg, pc')];
  }

  /** A step with a given effect. */
  lemma DoStep(fleet: set<Config>, acts: seq<Action>, s: State, a: ActorId, cfg: Config, pc: Pc, o: Oracle, t: Turn)
    returns (acts': seq<Action>)
    requires Possible(fleet, acts) && After(acts) == Placed(s, a, cfg, pc) && OracleOk(Placed(s, a, cfg, pc), pc, o)
    requires Effect(Placed(s, a, cfg, pc), cfg, pc, o) == t && t.next.Some?
    ensures Possible(fleet, acts') && After(acts') == Placed(Commit(s, t.change), a, cfg, t.next.value)
  {
    hide Possible, After, OracleOk, Effect, Commit;
    acts' := Do(fleet, acts, Step(a, o));
    CommitPlaced(s, a, cfg, pc, t.change);
    ActorsOf(s, t.change);
    PlacedTwice(Commit(s, t.change), a, cfg, pc, t.next.value);
  }

  lemma CommitPlaced(s: State, a: ActorId, cfg: Config, pc: Pc, c: Change)
    ensures Commit(Placed(s, a, cfg, pc), c) == Placed(Commit(s, c), a, cfg, pc)
  {
  }

  // ---- The scenario ----

  const P: PaymentId := "p"

  /** One base unit, as the client writes it. */
  const AMOUNT: string := Money.Format(1, 18)

  function DraftFor(pr: Provider): Draft {
    Draft(Request("k", "a", "b", "", AMOUNT, Testnet), [], [QuoteFor(pr)])
  }

  function QuoteFor(pr: Provider): QuoteRow {
    QuoteRow(pr, 0, 0, "0", 0, true)
  }

  function EnvelopeFor(cfg: Config, pr: Provider): TxEnvelope
    requires CanSign(cfg, pr)
  {
    TxEnvelope(cfg.contracts[pr], 1, "", cfg.originChainId)
  }

  /** A cooperative environment: the quote is unchanged, the node accepts what it is sent. */
  function OracleFor(cfg: Config, pr: Provider, gas: int): Oracle
    requires CanSign(cfg, pr)
  {
    Oracle(P, 0, 0, FreshQuote(pr, 1, 0, true), Some(EnvelopeFor(cfg, pr)), gas, 0, false, true, true, Pending)
  }

  function TxOf(cfg: Config, pr: Provider, gas: int): Tx
    requires CanSign(cfg, pr)
  {
    Tx(cfg.originChainId, cfg.wallet, 0, cfg.contracts[pr], 1, "", gas, 0)
  }

  function RowFor(w: Wallet, pr: Provider): Execution {
    Execution(0, P, pr, w, 0, None, false, Pending, false)
  }

  /** What the drivers rely on: the payment, its quote and a clock that has not passed it. */
  ghost predicate Driveable(s: State, pr: Provider) {
    && P in s.db.quotes && s.db.quotes[P] == [QuoteFor(pr)]
    && P in s.db.payments && s.db.payments[P].req.amount == AMOUNT
    && s.clock == 0 && 0 in s.db.executions
  }

  lemma Constants(pr: Provider)
    ensures Money.Numeral(AMOUNT) && BaseUnits(AMOUNT) == Some(1) && SelectedQuote([QuoteFor(pr)]) == Some(QuoteFor(pr))
    ensures forall bps :: !ExceedsSlippageTolerance("0", 0, bps)
  {
    hide Money.DecimalToBaseUnits, Money.Format, Money.Canonical, Money.Numeral;
    Money.FormatThenParse(1, 18);
    Money.FormatIsCanonical(1, 18);
    Money.CanonicalIsNumeral(AMOUNT);
    assert Money.SetString("0") == Some(0);
  }

  /** From the quote read to the checked envelope, whether or not the row exists. */
  lemma Quote(fleet: set<Config>, acts: seq<Action>, s: State, a: ActorId, cfg: Config, pr: Provider,
              row: Option<Execution>)
    returns (acts': seq<Action>)
    requires CanSign(cfg, pr) && Possible(fleet, acts) && After(acts) == Placed(s, a, cfg, ReadQuote(P, row))
    requires P in s.db.quotes && s.db.quotes[P] == [QuoteFor(pr)] && P in s.db.payments
    requires s.db.payments[P].req.amount == AMOUNT && s.clock == 0
    ensures Possible(fleet, acts') && After(acts') == Placed(s, a, cfg,
      match row
      case None => CreateExecution(P, QuoteFor(pr), EnvelopeFor(cfg, pr), 0)
      case Some(x) => Sign(x, EnvelopeFor(cfg, pr), 0))
  {
    hide Possible, After, BaseUnits, SelectedQuote, ExceedsSlippageTolerance, Money.Format, Commit;
    Constants(pr);
    var o, q := OracleFor(cfg, pr, 0), QuoteFor(pr);
    CommitNothing(s);
    acts' := ReadUp(fleet, acts, s, a, cfg, pr, row);
    acts' := DoStep(fleet, acts', s, a, cfg, FetchQuote(P, row, q, 1), o,
      Effect(Placed(s, a, cfg, FetchQuote(P, row, q, 1)), cfg, FetchQuote(P, row, q, 1), o));
  }

  /** The reads before the fresh quote. */
  lemma ReadUp(fleet: set<Config>, acts: seq<Action>, s: State, a: ActorId, cfg: Config, pr: Provider,
               row: Option<Execution>)
    returns (acts': seq<Action>)
    requires CanSign(cfg, pr) && Possible(fleet, acts) && After(acts) == Placed(s, a, cfg, ReadQuote(P, row))
    requires P in s.db.quotes && s.db.quotes[P] == [QuoteFor(pr)] && P in s.db.payments
    requires s.db.payments[P].req.amount == AMOUNT && s.clock == 0
    ensures Possible(fleet, acts') && After(acts') == Placed(s, a, cfg, FetchQuote(P, row, QuoteFor(pr), 1))
  {
    hide Possible, After, BaseUnits, SelectedQuote, ExceedsSlippageTolerance, Money.Format, Commit, AfterQuote;
    Constants(pr);
    var o, q := OracleFor(cfg, pr, 0), QuoteFor(pr);
    CommitNothing(s);
    acts' := DoStep(fleet, acts, s, a, cfg, ReadQuote(P, row), o, Goto(CheckExpiry(P, row, q)));
    acts' := DoStep(fleet, acts', s, a, cfg, CheckExpiry(P, row, q), o, Goto(ReadPayment(P, row, q)));
    acts' := DoStep(fleet, acts', s, a, cfg, ReadPayment(P, row, q), o, Goto(FetchQuote(P, row, q, 1)));
  }

  /** From the signature to the node. */
  lemma SignAndSend(fleet: set<Config>, acts: seq<Action>, s: State, a: ActorId, cfg: Config, pr: Provider,
                    x: Execution, gas: int)
    returns (acts': seq<Action>)
    requires CanSign(cfg, pr) && Possible(fleet, acts) && x.id == 0 && x.payment == P && x.nonce == 0
    requires 0 in s.db.executions
    requires After(acts) == Placed(s, a, cfg, Sign(x, EnvelopeFor(cfg, pr), 0))
    ensures Possible(fleet, acts')
    ensures After(acts') == Placed(SentState(s, cfg, pr, gas), a, cfg, RecordBroadcast(x, TxOf(cfg, pr, gas)))
  {
    hide Possible, After, Commit;
    var o, tx := OracleFor(cfg, pr, gas), TxOf(cfg, pr, gas);
    var s1 := Commit(s, SignTx(P, tx, Terms(0, cfg)));
    var s2 := Commit(s1, StoreTx(0, tx));
    CommitNothing(s2);
    acts' := DoStep(fleet, acts, s, a, cfg, Sign(x, EnvelopeFor(cfg, pr), 0), o,
      Turn(SignTx(P, tx, Terms(0, cfg)), Some(Persist(x, tx))));
    acts' := DoStep(fleet, acts', s1, a, cfg, Persist(x, tx), o, Turn(StoreTx(0, tx), Some(FindOnChain(x, tx))));
    acts' := DoStep(fleet, acts', s2, a, cfg, FindOnChain(x, tx), o, Goto(Send(x, tx)));
    acts' := DoStep(fleet, acts', s2, a, cfg, Send(x, tx), o, Turn(SendTx(P, tx, true), Some(RecordBroadcast(x, tx))));
  }

  function SentState(s: State, cfg: Config, pr: Provider, gas: int): State
    requires CanSign(cfg, pr)
  {
    var tx := TxOf(cfg, pr, gas);
    Commit(Commit(Commit(s, SignTx(P, tx, Terms(0, cfg))), StoreTx(0, tx)), SendTx(P, tx, true))
  }

  /** A driver takes the row it read from the quote to a mined transaction in its own wallet's slot. */
  lemma Drive(fleet: set<Config>, acts: seq<Action>, s: State, a: ActorId, cfg: Config, pr: Provider, x: Execution,
              gas: int)
    returns (acts': seq<Action>, s': State)
    requires CanSign(cfg, pr) && Possible(fleet, acts) && After(acts) == Placed(s, a, cfg, ReadQuote(P, Some(x)))
    requires Driveable(s, pr) && x.id == 0 && x.payment == P && x.nonce == 0
    requires SlotOf(TxOf(cfg, pr, gas)) !in s.chain.mined
    ensures Possible(fleet, acts') && After(acts') == Placed(s', a, cfg, RecordBroadcast(x, TxOf(cfg, pr, gas)))
    ensures Driveable(s', pr) && s'.actors == s.actors
    ensures s'.h.sends == s.h.sends + {Stamp(P, TxOf(cfg, pr, gas))}
    ensures s'.db.executions[0].signed == Some(TxOf(cfg, pr, gas)) && s'.db.byPayment == s.db.byPayment
    ensures s'.chain.mined == s.chain.mined[SlotOf(TxOf(cfg, pr, gas)) := Receipt(TxOf(cfg, pr, gas), true)]
  {
    hide Possible, After, Commit, Money.Format;
    acts' := Quote(fleet, acts, s, a, cfg, pr, Some(x));
    acts' := SignAndSend(fleet, acts', s, a, cfg, pr, x, gas);
    var sent, tx, pc := SentState(s, cfg, pr, gas), TxOf(cfg, pr, gas), RecordBroadcast(x, TxOf(cfg, pr, gas));
    SentFacts(s, cfg, pr, gas);
    acts' := Do(fleet, acts', Mine(tx, true));
    s' := Commit(sent, MineTx(tx, true));
    CommitPlaced(sent, a, cfg, pc, MineTx(tx, true));
    MinedFacts(sent, tx);
  }

  lemma SentFacts(s: State, cfg: Config, pr: Provider, gas: int)
    requires CanSign(cfg, pr) && Driveable(s, pr)
    ensures var s' := SentState(s, cfg, pr, gas);
      && Driveable(s', pr) && s'.actors == s.actors && s'.h.sends == s.h.sends + {Stamp(P, TxOf(cfg, pr, gas))}
      && s'.chain.mined == s.chain.mined && TxOf(cfg, pr, gas) in s'.chain.known
      && s'.db.executions[0].signed == Some(TxOf(cfg, pr, gas)) && s'.db.byPayment == s.db.byPayment
  {
    hide Money.Format;
  }

  lemma MinedFacts(s: State, tx: Tx)
    ensures var s' := Commit(s, MineTx(tx, true));
      && s'.db == s.db && s'.clock == s.clock && s'.actors == s.actors && s'.h == s.h
      && s'.chain.mined == s.chain.mined[SlotOf(tx) := Receipt(tx, true)]
  {
  }

  // ---- Getting there ----

  /** An actor that is not yet there starts. */
  lemma DoBegin(fleet: set<Config>, acts: seq<Action>, a: ActorId, cfg: Config, start: Start, t: Turn)
    returns (acts': seq<Action>)
    requires Possible(fleet, acts) && cfg in fleet && a !in After(acts).actors && CanBegin(After(acts), start)
    requires Beginning(After(acts), start) == t && t.next.Some?
    ensures Possible(fleet, acts') && After(acts') == Placed(Commit(After(acts), t.change), a, cfg, t.next.value)
  {
    hide Possible, After, CanBegin, Beginning, Commit;
    acts' := Do(fleet, acts, Begin(a, cfg, start));
    ActorsOf(After(acts), t.change);
  }

  /** The only actor makes its last call, or crashes. */
  lemma DoLast(fleet: set<Config>, acts: seq<Action>, s: State, a: ActorId, cfg: Config, pc: Pc, o: Oracle, c: Change)
    returns (acts': seq<Action>)
    requires Possible(fleet, acts) && After(acts) == Placed(s, a, cfg, pc) && OracleOk(Placed(s, a, cfg, pc), pc, o)
    requires Effect(Placed(s, a, cfg, pc), cfg, pc, o) == Turn(c, None) && a !in s.actors
    ensures Possible(fleet, acts') && After(acts') == Commit(s, c)
  {
    hide Possible, After, OracleOk, Effect, Commit;
    acts' := Do(fleet, acts, Step(a, o));
    CommitPlaced(s, a, cfg, pc, c);
    ActorsOf(s, c);
    assert s.actors[a := Actor(cfg, pc)] - {a} == s.actors;
  }

  lemma DoCrash(fleet: set<Config>, acts: seq<Action>, s: State, a: ActorId, cfg: Config, pc: Pc)
    returns (acts': seq<Action>)
    requires Possible(fleet, acts) && After(acts) == Placed(s, a, cfg, pc) && a !in s.actors
    ensures Possible(fleet, acts') && After(acts') == s
  {
    hide Possible, After;
    acts' := Do(fleet, acts, Crash(a));
    assert s.actors[a := Actor(cfg, pc)] - {a} == s.actors;
  }

  function CreatedState(w: Wallet, pr: Provider): State {
    Commit(Commit(START, Seed(w, 0)), Create(DraftFor(pr), P, 0))
  }

  function ClaimedState(w: Wallet, pr: Provider): State {
    Commit(Commit(CreatedState(w, pr), Append(0)), MovePayment(P, Routed, Processing))
  }

  /** A claimed payment whose unsigned row was allocated by `cfg`. */
  function AllocatedState(cfg: Config, pr: Provider): State {
    Commit(ClaimedState(cfg.wallet, pr), NewRow(RowFor(cfg.wallet, pr), cfg))
  }

  lemma CreatedFacts(w: Wallet, pr: Provider)
    ensures var s := CreatedState(w, pr);
      && s.actors == map[] && s.clock == 0 && s.log == [] && s.db.outbox == map[0 := OutboxRow(P, false)]
      && s.db.payments == map[P := Payment(DraftFor(pr).req, Routed, None)]
      && s.db.quotes == map[P := [QuoteFor(pr)]] && s.db.wallets == map[w := 0]
      && s.db.executions == map[] && s.db.byPayment == map[] && s.db.byNonce == map[]
      && s.chain == START.chain && s.h.sends == {}
  {
    hide Money.Format;
  }

  lemma ClaimedFacts(w: Wallet, pr: Provider)
    ensures var s := Commit(CreatedState(w, pr), Append(0));
      s.log == [P] && s.db == CreatedState(w, pr).db && s.actors == map[] && s.clock == 0
    ensures var s := ClaimedState(w, pr);
      && s.actors == map[] && s.clock == 0
      && s.db.payments == map[P := Payment(DraftFor(pr).req, Processing, None)]
      && s.db.quotes == map[P := [QuoteFor(pr)]] && s.db.wallets == map[w := 0]
      && s.db.executions == map[] && s.db.byPayment == map[] && s.db.byNonce == map[]
      && s.chain == START.chain && s.h.sends == {}
  {
    hide Money.Format, CreatedState;
    CreatedFacts(w, pr);
  }

  lemma AllocatedFacts(cfg: Config, pr: Provider)
    ensures var s := AllocatedState(cfg, pr);
      && Driveable(s, pr) && s.actors == map[] && s.chain == START.chain && s.h.sends == {}
      && s.db.executions == map[0 := RowFor(cfg.wallet, pr)] && s.db.byPayment == map[P := 0]
  {
    hide Money.Format, ClaimedState;
    ClaimedFacts(cfg.wallet, pr);
  }

  lemma PlayCreate(fleet: set<Config>, cfg: Config, pr: Provider) returns (acts: seq<Action>)
    requires cfg in fleet && CanSign(cfg, pr)
    ensures Possible(fleet, acts) && After(acts) == CreatedState(cfg.wallet, pr)
  {
    hide Possible, Money.Format, BaseUnits, Commit;
    Constants(pr);
    var o, d := OracleFor(cfg, pr, 0), DraftFor(pr);
    acts := [];
    assert Possible(fleet, acts) by { EmptyIsPossible(fleet); }
    acts := Do(fleet, acts, SeedNonce(cfg.wallet, 0));
    var s := Commit(START, Seed(cfg.wallet, 0));
    SeededFacts(cfg.wallet);
    acts := DoBegin(fleet, acts, 0, cfg, CallCreate(d), Goto(Lookup(d)));
    CommitNothing(s);
    acts := DoStep(fleet, acts, s, 0, cfg, Lookup(d), o, Goto(Insert(d)));
    acts := DoLast(fleet, acts, s, 0, cfg, Insert(d), o, Create(d, P, 0));
  }

  lemma EmptyIsPossible(fleet: set<Config>)
    ensures Possible(fleet, [])
  {
  }

  lemma SeededFacts(w: Wallet)
    ensures var s := Commit(START, Seed(w, 0));
      s.actors == map[] && s.db.byKey == map[] && s.db.payments == map[] && s.db.outbox == map[]
  {
  }

  lemma PlayClaim(fleet: set<Config>, acts: seq<Action>, cfg: Config, pr: Provider) returns (acts': seq<Action>)
    requires cfg in fleet && CanSign(cfg, pr) && Possible(fleet, acts) && After(acts) == CreatedState(cfg.wallet, pr)
    ensures Possible(fleet, acts') && After(acts') == Placed(ClaimedState(cfg.wallet, pr), 0, cfg, ReadQuote(P, None))
  {
    hide Possible, After, Money.Format, Commit, CreatedState;
    var o, s := OracleFor(cfg, pr, 0), CreatedState(cfg.wallet, pr);
    var s1 := Commit(s, Append(0));
    CreatedFacts(cfg.wallet, pr);
    ClaimedFacts(cfg.wallet, pr);
    CommitNothing(s);
    acts' := DoBegin(fleet, acts, 0, cfg, PollOutbox(0), Goto(PublishEvent(0)));
    acts' := DoStep(fleet, acts', s, 0, cfg, PublishEvent(0), o, Turn(Append(0), Some(MarkEvent(0))));
    acts' := DoCrash(fleet, acts', s1, 0, cfg, MarkEvent(0));
    acts' := DoBegin(fleet, acts', 0, cfg, Deliver(P),
      Turn(MovePayment(P, Routed, Processing), Some(ReadQuote(P, None))));
  }

  lemma PlayAllocate(fleet: set<Config>, acts: seq<Action>, cfg: Config, pr: Provider) returns (acts': seq<Action>)
    requires cfg in fleet && CanSign(cfg, pr) && Possible(fleet, acts)
    requires After(acts) == Placed(ClaimedState(cfg.wallet, pr), 0, cfg, ReadQuote(P, None))
    ensures Possible(fleet, acts') && After(acts') == AllocatedState(cfg, pr)
  {
    hide Possible, After, Money.Format, Commit, ClaimedState;
    var o, s := OracleFor(cfg, pr, 0), ClaimedState(cfg.wallet, pr);
    ClaimedFacts(cfg.wallet, pr);
    AllocatedFacts(cfg, pr);
    acts' := Quote(fleet, acts, s, 0, cfg, pr, None);
    var env, row := EnvelopeFor(cfg, pr), RowFor(cfg.wallet, pr);
    acts' := DoStep(fleet, acts', s, 0, cfg, CreateExecution(P, QuoteFor(pr), env, 0), o,
      Turn(NewRow(row, cfg), Some(Sign(row, env, 0))));
    acts' := DoCrash(fleet, acts', AllocatedState(cfg, pr), 0, cfg, Sign(row, env, 0));
  }

  // ---- Two workers, two wallets, two mined transactions ----

  lemma BothBegin(fleet: set<Config>, c: Config, d: Config, pr: Provider) returns (acts: seq<Action>)
    requires c in fleet && d in fleet && CanSign(c, pr)
    ensures var pc := ReadQuote(P, Some(RowFor(c.wallet, pr)));
      Possible(fleet, acts) && After(acts) == Placed(Placed(AllocatedState(c, pr), 0, c, pc), 1, d, pc)
  {
    hide Possible, After, Money.Format, Commit, AllocatedState, CanSign;
    acts := PlayCreate(fleet, c, pr);
    acts := PlayClaim(fleet, acts, c, pr);
    acts := PlayAllocate(fleet, acts, c, pr);
    var s, pc := AllocatedState(c, pr), ReadQuote(P, Some(RowFor(c.wallet, pr)));
    AllocatedFacts(c, pr);
    CommitNothing(s);
    CommitNothing(Placed(s, 0, c, pc));
    acts := DoBegin(fleet, acts, 0, c, DriveForward(0), Goto(pc));
    acts := DoBegin(fleet, acts, 1, d, DriveForward(0), Goto(pc));
  }

  lemma PlacedCommutes(s: State, c: Config, pc: Pc, d: Config, pc': Pc)
    ensures Placed(Placed(s, 0, c, pc), 1, d, pc') == Placed(Placed(s, 1, d, pc'), 0, c, pc)
  {
    assert s.actors[0 := Actor(c, pc)][1 := Actor(d, pc')] == s.actors[1 := Actor(d, pc')][0 := Actor(c, pc)];
  }

  /**
   * Two workers that can sign for one provider with different wallets, or on different chains, can pay a payment twice.
   */
  lemma TwoMined(fleet: set<Config>, c: Config, d: Config, pr: Provider) returns (acts: seq<Action>)
    requires c in fleet && d in fleet && CanSign(c, pr) && CanSign(d, pr)
    requires c.wallet != d.wallet || c.originChainId != d.originChainId
    ensures Possible(fleet, acts)
    ensures MinedFor(After(acts), P, TxOf(c, pr, 0)) && MinedFor(After(acts), P, TxOf(d, pr, 0))
    ensures TxOf(c, pr, 0) != TxOf(d, pr, 0)
  {
    hide Possible, After, AllocatedState, Money.Format, CanSign;
    var x := RowFor(c.wallet, pr);
    var s, pc := AllocatedState(c, pr), ReadQuote(P, Some(x));
    AllocatedFacts(c, pr);
    acts := BothBegin(fleet, c, d, pr);
    var s1, s2: State;
    acts, s1 := Drive(fleet, acts, Placed(s, 0, c, pc), 1, d, pr, x, 0);
    ghost var pc1 := RecordBroadcast(x, TxOf(d, pr, 0));
    var t := s1.(actors := map[]);
    assert s1 == Placed(t, 0, c, pc);
    PlacedCommutes(t, c, pc, d, pc1);
    acts, s2 := Drive(fleet, acts, Placed(t, 1, d, pc1), 0, c, pr, x, 0);
  }

  /** No payment is ever paid by two transactions, whatever the run. */
  ghost predicate AlwaysOneMined(fleet: set<Config>) {
    forall states, acts, i, p, tx, tx' ::
      Run(fleet, states, acts) && 0 <= i < |states| && MinedFor(states[i], p, tx) && MinedFor(states[i], p, tx') ==>
        tx == tx'
  }

  /**
   * At most one mined transaction per payment holds of a fleet exactly
   * when its workers share wallet and chain per provider.
   */
  lemma OneMinedExactlyWhen(fleet: set<Config>)
    ensures AlwaysOneMined(fleet) <==> OneWalletPerProvider(fleet)
  {
    hide Run, MinedFor, CanSign, Possible;
    if OneWalletPerProvider(fleet) {
      forall states, acts, i: nat, p, tx, tx' | Run(fleet, states, acts) && i < |states| && MinedFor(states[i], p, tx)
        && MinedFor(states[i], p, tx')
        ensures tx == tx'
      {
        OneMinedPerPayment(fleet, states, acts, i, p, tx, p, tx');
      }
    } else {
      var c, d, pr :| c in fleet && d in fleet && CanSign(c, pr) && CanSign(d, pr)
        && !(c.wallet == d.wallet && c.originChainId == d.originChainId);
      var acts := TwoMined(fleet, c, d, pr);
      PossibleIsRun(fleet, acts);
      assert StatesOf(acts)[|acts|] == After(acts);
    }
  }

  /** Two overlapping drivers, even of the same worker: the stored signature is not the one that was sent and mined. */
  lemma OverlapOverwritesSignature(fleet: set<Config>, c: Config, pr: Provider)
    returns (acts: seq<Action>, sent: Tx, stored: Tx)
    requires c in fleet && CanSign(c, pr)
    ensures Run(fleet, StatesOf(acts), acts)
    ensures MinedFor(After(acts), P, sent) && SignedAs(After(acts), P, Some(stored)) && stored != sent
  {
    hide Possible, After, AllocatedState, Money.Format, CanSign, Run;
    var x := RowFor(c.wallet, pr);
    var s, pc := AllocatedState(c, pr), ReadQuote(P, Some(x));
    AllocatedFacts(c, pr);
    acts := BothBegin(fleet, c, c, pr);
    var s1: State;
    acts, s1 := Drive(fleet, acts, Placed(s, 0, c, pc), 1, c, pr, x, 0);
    sent, stored := TxOf(c, pr, 0), TxOf(c, pr, 1);
    var pc1 := RecordBroadcast(x, sent);
    var t := s1.(actors := map[]);
    assert s1 == Placed(t, 0, c, pc);
    PlacedCommutes(t, c, pc, c, pc1);
    acts := Quote(fleet, acts, Placed(t, 1, c, pc1), 0, c, pr, Some(x));
    acts := SignAndSend(fleet, acts, Placed(t, 1, c, pc1), 0, c, pr, x, 1);
    SentFacts(Placed(t, 1, c, pc1), c, pr, 1);
    PossibleIsRun(fleet, acts);
  }

  /** Once stored, a signature stays, and only it is ever sent, whatever the run. */
  ghost predicate AlwaysFinal(fleet: set<Config>) {
    forall states, acts, i, j, p, tx ::
      Run(fleet, states, acts) && 0 <= i <= j < |states| && SignedAs(states[i], p, Some(tx)) ==>
        SignedAs(states[j], p, Some(tx)) && OnlySends(states[j], p, tx)
  }

  ghost predicate NobodySigns(fleet: set<Config>) {
    forall c, pr :: c in fleet ==> !CanSign(c, pr)
  }

  /** Whoever signed a stored signature can sign. */
  lemma SignedMeansSigner(fleet: set<Config>, s: State, p: PaymentId, tx: Tx) returns (c: Config, pr: Provider)
    requires Inv(fleet, s) && SignedAs(s, p, Some(tx))
    ensures c in fleet && CanSign(c, pr)
  {
    hide BaseUnits, SelectedQuote, ExceedsSlippageTolerance, CanSign, Intake, Logged, Answered, Statuses, Actors,
      Publishers;
    assert RowOk(fleet, s, s.db.byPayment[p]);
    var st := Stamp(s.db.executions[s.db.byPayment[p]].payment, tx);
    assert SigningOk(fleet, s, st, s.h.terms[st]);
    c, pr := s.h.terms[st].cfg, SelectedQuote(s.db.quotes[st.p]).value.provider;
  }

  /**
   * Under full interleaving stored bytes are final in every run of a
   * fleet exactly when none of its workers can sign at all.
   */
  lemma FinalExactlyWhen(fleet: set<Config>)
    ensures AlwaysFinal(fleet) <==> NobodySigns(fleet)
  {
    hide Run, MinedFor, CanSign, Inv, SignedAs, After, OnlySends;
    if !AlwaysFinal(fleet) {
      var states, acts, i: nat, j: nat, p, tx :| Run(fleet, states, acts) && i <= j < |states|
        && SignedAs(states[i], p, Some(tx))
        && !(SignedAs(states[j], p, Some(tx)) && OnlySends(states[j], p, tx));
      RunSafe(fleet, states, acts, i);
      var c, pr := SignedMeansSigner(fleet, states[i], p, tx);
    }
    if !NobodySigns(fleet) {
      var c, pr :| c in fleet && CanSign(c, pr);
      var acts, sent, stored := OverlapOverwritesSignature(fleet, c, pr);
      var states := StatesOf(acts);
      assert SignedAs(states[|acts|], P, Some(stored));
      SentIsNotStored(states[|acts|], P, sent, stored);
    }
  }

  lemma SentIsNotStored(s: State, p: PaymentId, sent: Tx, stored: Tx)
    requires MinedFor(s, p, sent) && stored != sent
    ensures !OnlySends(s, p, stored)
  {
  }
}
