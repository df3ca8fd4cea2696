/** The worker loops and the create call (go-api/internal/worker, go-api/internal/postgres/store.go). */
module Workers {
  import opened Common
  import opened Payments
  import opened Database
  import opened Protocol
  import opened Invariants
  import opened Safety
  import opened Theorems
  import opened Traces
  import opened PostgresStore
  import opened World
  import opened Executor

  /**
   * One delivery: claim, then run by mode. Without an error either the claim was lost and nothing was called, or this
   * delivery won it and the payment is settled.
   */
  method HandleRoutedPayment(w: World, a: ActorId, cfg: Config, p: PaymentId)
    returns (r: Result<(), string>, ghost claimed: Option<Mode>)
    requires w.Valid() && a !in w.actors && cfg in w.fleet
    modifies w, w.store
    ensures w.Ran(old(w.actors), old(w.acts), a, {a}) && a !in w.actors
    ensures claimed.Some? ==> Wins(old(w.acts), w.acts, a, p)
    ensures claimed.None? ==> Calls(w.acts, a) == old(Calls(w.acts, a))
    ensures r.Ok? && claimed == Some(Simulated) ==>
      w.Called(old(w.acts), a, CompleteSimulated(p)) && Past(w.store.View(), p)
    ensures r.Ok? && claimed == Some(Testnet) ==>
      Settled(old(Calls(w.acts, a)), Calls(w.acts, a), w.store.View(), p)
  {
    hide w.Valid, Calls, Wins, Past, Settled;
    var mode := w.ClaimPayment(a, cfg, p, {a});
    claimed := None;
    if mode.Err? { return Err(mode.error), None; }
    if mode.value.None? { return Ok(()), None; }
    claimed := mode.value;
    ghost var won := w.acts;
    if mode.value.value == Testnet {
      r := ExecuteTestnetPayment(w, a, cfg, p, {a});
    } else {
      var completed := w.CompletePayment(a, cfg, p, {a});
      r := if completed.Some? then Ok(()) else Err("complete payment");
    }
    WinsStays(old(w.acts), won, w.acts, a, p);
  }

  /** Among all deliveries of a payment, whatever the workers do, one wins the claim. */
  lemma ClaimsAgree(w: World, i: nat, j: nat, p: PaymentId)
    requires w.Valid() && ClaimsAt(w.acts, i, p) && ClaimsAt(w.acts, j, p)
    ensures i == j
  {
    hide Possible, After, Run;
    PossibleIsRun(w.fleet, w.acts);
    StatesOfPrefix(w.acts[..i], w.acts);
    StatesOfPrefix(w.acts[..j], w.acts);
    ClaimedOnce(w.fleet, StatesOf(w.acts), w.acts, i, j, p);
  }

  /** The actor published an event and then marked its row, whose payment is in the log. */
  ghost predicate Published(before: seq<Pc>, now: seq<Pc>, outbox: map<EventId, OutboxRow>, log: seq<PaymentId>,
                            e: EventId) {
    && now == before + [PublishEvent(e), MarkEvent(e)]
    && e in outbox && outbox[e].published && outbox[e].payment in log
  }

  /** One poll of the outbox; the row lock is held across the publish. */
  method PollOnce(w: World, a: ActorId, cfg: Config) returns (published: bool)
    requires w.Valid() && a !in w.actors && cfg in w.fleet
    modifies w, w.store
    ensures w.Ran(old(w.actors), old(w.acts), a, {a}) && a !in w.actors
    ensures published ==> exists e :: Published(old(Calls(w.acts, a)), Calls(w.acts, a), w.store.outbox, w.log, e)
  {
    hide w.Valid, Calls;
    var event := w.ClaimOutboxEvent(a, cfg, {a});
    if event.None? { return false; }
    var ok := w.Publish(a, cfg, event.value, {a});
    if !ok { return false; }
    published := w.MarkPublished(a, cfg, event.value, {a});
    assert published ==> Published(old(Calls(w.acts, a)), Calls(w.acts, a), w.store.outbox, w.log, event.value);
  }

  /** One create call: look, insert, and after a lost race look again. What it answers is in the history. */
  method CreateOrGetPayment(w: World, a: ActorId, cfg: Config, d: Draft) returns (r: Result<Answer, string>)
    requires w.Valid() && a !in w.actors && cfg in w.fleet
    modifies w, w.store
    ensures w.Ran(old(w.actors), old(w.acts), a, {a}) && a !in w.actors
    ensures r.Ok? ==> Response(d, r.value) in w.h.responses
  {
    hide w.Valid;
    w.BeginCreate(a, cfg, d, {a});
    var answer := w.LookupKey(a, cfg, d, {a});
    if answer.Some? { return Ok(answer.value); }
    var inserted, id := w.InsertPayment(a, cfg, d, {a});
    if inserted == Inserted { return Ok(Created(id)); }
    if inserted == Rejected { return Err("insert payment"); }
    answer := w.RereadKey(a, cfg, d, {a});
    r := if answer.Some? then Ok(answer.value) else Err("idempotency key conflicted but no row found on re-read");
  }

  /** The recovery sweep: the payments it counts are distinct, and each now has the outcome of executing its ID. */
  method SweepOnce(w: World, cfg: Config) returns (completed: nat, ghost done: seq<PaymentId>)
    requires w.Valid() && cfg in w.fleet
    modifies w, w.store
    ensures w.Valid() && old(w.acts) <= w.acts
    ensures |done| == completed && NoDuplicates(done) && forall p <- done :: HasStatus(w.store.View(), p, Outcome(p))
  {
    hide Possible, After, Outcome;
    var work := w.Query(cfg, RecoverPayments);
    completed, done := 0, [];
    for k := 0 to |work|
      invariant w.Valid() && old(w.acts) <= w.acts && w.Waiting(cfg, RecoverPayments, work, k)
      invariant |done| == completed && NoDuplicates(done)
      invariant forall p <- done :: HasStatus(w.store.View(), p, Outcome(p))
    {
      ghost var acts, db := w.acts, w.store.View();
      var p := work[k].pc.p;
      var did := w.CompletePayment(work[k].a, cfg, p, Owners(work));
      forall q | q in done ensures Finished(db, q) && HasStatus(w.store.View(), q, Outcome(q)) {
        StaysDone(w, acts, db, q);
      }
      if did == Some(true) { completed, done := completed + 1, done + [p]; }
    }
  }

  lemma StaysDone(w: World, acts: seq<Action>, db: Db, q: PaymentId)
    requires w.Valid() && acts <= w.acts && After(acts).db == db && HasStatus(db, q, Outcome(q))
    ensures Finished(db, q) && HasStatus(w.store.View(), q, Outcome(q))
  {
    hide Possible, After, Outcome;
    StaysFinished(w.fleet, acts, w.acts, q);
  }

  /** Whatever the workers have done, the system is in a state of some run, so everything proved of runs holds of it. */
  lemma WorldIsRun(w: World)
    requires w.Valid()
    ensures Run(w.fleet, StatesOf(w.acts), w.acts) && StatesOf(w.acts)[|w.acts|] == w.State() && Inv(w.fleet, w.State())
  {
    hide Possible, After, Run, Inv;
    PossibleIsRun(w.fleet, w.acts);
    RunSafe(w.fleet, StatesOf(w.acts), w.acts, |w.acts|);
  }
}
