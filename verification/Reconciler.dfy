/** The reconciler (go-api/internal/worker/reconciler.go). */
module Reconciler {
  import opened Common
  import opened Payments
  import opened Database
  import opened Protocol
  import opened Traces
  import opened World
  import opened Executor

  /** The broadcast rows to check: the one with the lowest nonce of each wallet, the first found among equals. */
  method LowestByWallet(candidates: seq<Execution>) returns (lowest: map<Wallet, nat>)
    ensures forall i :: 0 <= i < |candidates| && candidates[i].broadcast ==> candidates[i].wallet in lowest
    ensures forall w <- lowest ::
      lowest[w] < |candidates| && candidates[lowest[w]].broadcast && candidates[lowest[w]].wallet == w
    ensures forall i :: 0 <= i < |candidates| && candidates[i].broadcast ==>
      var j := lowest[candidates[i].wallet];
      candidates[j].nonce < candidates[i].nonce || (candidates[j].nonce == candidates[i].nonce && j <= i)
  {
    lowest := map[];
    for k := 0 to |candidates|
      invariant forall i :: 0 <= i < k && candidates[i].broadcast ==> candidates[i].wallet in lowest
      invariant forall w <- lowest ::
        lowest[w] < k && candidates[lowest[w]].broadcast && candidates[lowest[w]].wallet == w
      invariant forall i :: 0 <= i < k && candidates[i].broadcast ==>
        var j := lowest[candidates[i].wallet];
        candidates[j].nonce < candidates[i].nonce || (candidates[j].nonce == candidates[i].nonce && j <= i)
    {
      var c := candidates[k];
      if c.broadcast {
        if c.wallet !in lowest || c.nonce < candidates[lowest[c.wallet]].nonce {
          lowest := lowest[c.wallet := k];
        }
      }
    }
  }

  /** The last two calls recorded outcome `e` of `tx` on the row and then completed its payment as `terminal`. */
  ghost predicate Records(calls: seq<Pc>, x: Execution, tx: Tx, e: ExternalStatus, terminal: Status) {
    |calls| >= 2 && calls[|calls| - 2..] == [RecordOutcome(x, tx, e, terminal), Complete(x, terminal)]
  }

  /** Record the outcome, then complete the payment; `completed` says whether the second update affected a row. */
  method MarkTerminal(w: World, a: ActorId, cfg: Config, x: Execution, tx: Tx, e: ExternalStatus, terminal: Status,
                      mine: set<ActorId>) returns (completed: Option<bool>)
    requires w.Valid() && w.At(a, cfg, RecordOutcome(x, tx, e, terminal)) && a in mine
    modifies w, w.store
    ensures w.Ran(old(w.actors), old(w.acts), a, mine) && a !in w.actors
    ensures completed.Some? ==> Records(Calls(w.acts, a), x, tx, e, terminal)
    ensures completed == Some(true) ==> HasStatus(w.store.View(), x.payment, terminal)
    ensures completed == Some(false) ==> !HasStatus(w.store.View(), x.payment, Submitted)
  {
    hide w.Valid, Calls;
    var ok := w.UpdateExecutionExternalStatus(a, cfg, x, tx, e, terminal, mine);
    if !ok { return None; }
    completed := w.CompleteSubmittedPayment(a, cfg, x, terminal, mine);
  }

  /** The outcome a receipt and the provider's answer stand for. */
  predicate Verdict(chain: Chain, tx: Tx, e: ExternalStatus, terminal: Status) {
    && SlotOf(tx) in chain.mined && chain.mined[SlotOf(tx)].tx == tx && e != Pending
    && (chain.mined[SlotOf(tx)].ok || e == Reverted)
    && terminal == TerminalOf(e)
  }

  /** What a recorded outcome makes of the payment. */
  function TerminalOf(e: ExternalStatus): Status {
    if e == Filled then Completed else Failed
  }

  /** The receipt first, the provider next; anything short of a definitive answer is `Pending`. */
  method Observe(w: World, a: ActorId, cfg: Config, x: Execution, tx: Tx, mine: set<ActorId>)
    returns (e: ExternalStatus)
    requires w.Valid() && w.At(a, cfg, ReadReceipt(x, tx)) && a in mine
    modifies w, w.store
    ensures w.Ran(old(w.actors), old(w.acts), a, mine)
    ensures w.Went(a, cfg, if e == Pending then None else Some(RecordOutcome(x, tx, e, TerminalOf(e))))
    ensures e != Pending ==> Verdict(w.chain, tx, e, TerminalOf(e))
  {
    hide w.Valid, Calls, After, Past;
    var receipt := w.TransactionReceipt(a, cfg, x, tx, mine);
    if receipt.None? { return Pending; }
    if !receipt.value { return Reverted; }
    if x.provider !in cfg.checkers { return Pending; }
    ghost var seen := w.acts;
    StateNow(w);
    e := w.CheckStatus(a, cfg, x, tx, mine);
    StillSo(w, seen);
  }

  /**
   * Repair the status, then follow the transaction. Whenever an outcome was recorded the transaction is mined, and the
   * payment is terminal afterwards even if it was not this call that completed it.
   */
  method CheckAndUpdateOutcome(w: World, a: ActorId, cfg: Config, x: Execution, tx: Tx, mine: set<ActorId>)
    returns (completed: Option<bool>)
    requires w.Valid() && w.At(a, cfg, Repair(x, tx)) && a in mine
    modifies w, w.store
    ensures w.Ran(old(w.actors), old(w.acts), a, mine) && a !in w.actors
    ensures completed.Some? ==> Judged(w.acts, a, x, tx, completed.value)
  {
    hide w.Valid, Calls, After, Past, Verdict, Records, Judged;
    var ok := w.RepairSubmitted(a, cfg, x, tx, mine);
    if !ok { return None; }
    ghost var repaired := w.acts;
    StateNow(w);
    var e := Observe(w, a, cfg, x, tx, mine);
    if e == Pending { return None; }
    ghost var mined := w.acts;
    StateNow(w);
    completed := MarkTerminal(w, a, cfg, x, tx, e, TerminalOf(e), mine);
    if completed.Some? { Judge(w, repaired, mined, a, x, tx, e, TerminalOf(e), completed.value); }
  }

  /** An outcome that the chain and the provider support was recorded, and the payment is terminal. */
  ghost predicate Judged(acts: seq<Action>, a: ActorId, x: Execution, tx: Tx, completed: bool) {
    var s := After(acts);
    && Finished(s.db, x.payment)
    && exists e, terminal :: Verdict(s.chain, tx, e, terminal) && Records(Calls(acts, a), x, tx, e, terminal)
                             && (completed ==> HasStatus(s.db, x.payment, terminal))
  }

  /** What was seen on the way still holds at the end. */
  lemma Judge(w: World, repaired: seq<Action>, mined: seq<Action>, a: ActorId, x: Execution, tx: Tx,
              e: ExternalStatus, terminal: Status, completed: bool)
    requires w.Valid() && repaired <= w.acts && mined <= w.acts
    requires Past(After(repaired).db, x.payment) && Verdict(After(mined).chain, tx, e, terminal)
    requires Records(Calls(w.acts, a), x, tx, e, terminal)
    requires if completed
      then HasStatus(w.store.View(), x.payment, terminal) else !HasStatus(w.store.View(), x.payment, Submitted)
    ensures Judged(w.acts, a, x, tx, completed)
  {
    hide w.Valid, Calls, After, Records;
    StillSo(w, repaired);
    StillSo(w, mined);
    StateNow(w);
    assert Verdict(w.chain, tx, e, terminal);
  }

  lemma StaysJudged(w: World, seen: seq<Action>, a: ActorId, x: Execution, tx: Tx, completed: bool)
    requires w.Valid() && seen <= w.acts && Calls(w.acts, a) == Calls(seen, a) && Judged(seen, a, x, tx, completed)
    ensures Judged(w.acts, a, x, tx, completed)
  {
    hide w.Valid, Calls, After, Records;
    StateNow(w);
    StillSo(w, seen);
    StillFinished(w, seen, x.payment);
    var e, terminal :| Verdict(After(seen).chain, tx, e, terminal) && Records(Calls(seen, a), x, tx, e, terminal)
                       && (completed ==> HasStatus(After(seen).db, x.payment, terminal));
    assert Verdict(w.chain, tx, e, terminal);
  }

  /** All the actors of a sweep are done up to index `n`. */
  ghost predicate Gone(actors: map<ActorId, Actor>, work: seq<Work>, n: nat)
    requires n <= |work|
  {
    forall k :: 0 <= k < n ==> work[k].a !in actors
  }

  lemma NoneGone(actors: map<ActorId, Actor>, work: seq<Work>)
    ensures Gone(actors, work, 0)
  {
  }

  /** The actor at index `k` is done; the others are where they were. */
  lemma NextInLine(w: World, cfg: Config, kind: Sweep, work: seq<Work>, k: nat, before: map<ActorId, Actor>)
    requires k < |work| && Same(before, w.actors, Owners(work) - {work[k].a}) && work[k].a !in w.actors
    requires forall i, j :: 0 <= i < j < |work| ==> work[i].a != work[j].a
    requires forall i :: 0 <= i < |work| ==> Found(kind, work[i].pc)
    requires forall i :: k <= i < |work| ==> work[i].a in before && before[work[i].a] == Actor(cfg, work[i].pc)
    requires Gone(before, work, k)
    ensures w.Waiting(cfg, kind, work, k + 1) && Gone(w.actors, work, k + 1)
  {
    hide Found;
    forall i | 0 <= i < |work| && i != k
      ensures work[i].a in Owners(work) - {work[k].a}
    {
    }
  }

  /** A payment reported as recovered is settled: the last call of its actor says how. */
  ghost predicate Recovered(acts: seq<Action>, db: Db, work: seq<Work>, r: seq<Result<(), string>>)
    requires |r| <= |work|
  {
    forall k :: 0 <= k < |r| && r[k].Ok? ==>
      work[k].pc.ReadQuote? && SettledBy(Calls(acts, work[k].a), db, work[k].pc.p)
  }

  lemma NoneRecovered(acts: seq<Action>, db: Db, work: seq<Work>)
    ensures Recovered(acts, db, work, [])
  {
  }

  /** One more payment is executed, and nothing that was settled is undone. */
  lemma RecoveredMore(w: World, seen: seq<Action>, db: Db, work: seq<Work>, r: seq<Result<(), string>>,
                      one: Result<(), string>)
    requires w.Valid() && seen <= w.acts && After(seen).db == db && |r| < |work| && Recovered(seen, db, work, r)
    requires SameCalls(seen, w.acts, Owners(work) - {work[|r|].a})
    requires forall i, j :: 0 <= i < j < |work| ==> work[i].a != work[j].a
    requires one.Ok? ==>
      work[|r|].pc.ReadQuote? && SettledBy(Calls(w.acts, work[|r|].a), w.store.View(), work[|r|].pc.p)
    ensures Recovered(w.acts, w.store.View(), work, r + [one])
  {
    hide w.Valid, Calls, After, SettledBy;
    forall k | 0 <= k < |r| && r[k].Ok?
      ensures work[k].pc.ReadQuote? && SettledBy(Calls(w.acts, work[k].a), w.store.View(), work[k].pc.p)
    {
      assert work[k].a in Owners(work);
      StaysSettled(w, seen, db, Calls(seen, work[k].a), work[k].pc.p);
    }
  }

  /** Every payment found without a row is executed, whatever became of the others. */
  method RecoverStaleProcessingWithoutExecution(w: World, cfg: Config)
    returns (r: seq<Result<(), string>>, ghost work: seq<Work>)
    requires w.Valid() && cfg in w.fleet
    modifies w, w.store
    ensures w.Valid() && old(w.acts) <= w.acts && |r| == |work|
    ensures forall k :: 0 <= k < |work| ==> Found(ExecutePayments, work[k].pc)
    ensures Gone(w.actors, work, |work|) && Recovered(w.acts, w.store.View(), work, r)
  {
    hide w.Valid, Calls, After, Recovered, SettledBy, Same, Gone;
    var found := w.Query(cfg, ExecutePayments);
    r, work := [], found;
    NoneRecovered(w.acts, w.store.View(), found);
    NoneGone(w.actors, found);
    for k := 0 to |found|
      invariant w.Valid() && old(w.acts) <= w.acts && |r| == k && w.Waiting(cfg, ExecutePayments, found, k)
      invariant Gone(w.actors, found, k) && Recovered(w.acts, w.store.View(), found, r)
    {
      ghost var seen, db, before := w.acts, w.store.View(), w.actors;
      StateNow(w);
      var one := ExecuteTestnetPayment(w, found[k].a, cfg, found[k].pc.p, Owners(found));
      RecoveredMore(w, seen, db, found, r, one);
      NextInLine(w, cfg, ExecutePayments, found, k, before);
      r := r + [one];
    }
  }

  /** A candidate reported as driven is settled. */
  ghost predicate Driven(acts: seq<Action>, db: Db, ids: seq<ActorId>, ps: seq<PaymentId>,
                         r: seq<Option<Result<(), string>>>)
    requires |r| == |ids| <= |ps|
  {
    forall k :: 0 <= k < |r| && r[k] == Some(Ok(())) ==> SettledBy(Calls(acts, ids[k]), db, ps[k])
  }

  lemma NoneDriven(acts: seq<Action>, db: Db, ps: seq<PaymentId>)
    ensures Driven(acts, db, [], ps, [])
  {
  }

  lemma DrivenMore(w: World, seen: seq<Action>, db: Db, ids: seq<ActorId>, a: ActorId, ps: seq<PaymentId>,
                   r: seq<Option<Result<(), string>>>, one: Option<Result<(), string>>)
    requires w.Valid() && seen <= w.acts && After(seen).db == db && |r| == |ids| < |ps| && Driven(seen, db, ids, ps, r)
    requires a !in ids && forall b <- ids :: Calls(w.acts, b) == Calls(seen, b)
    requires one == Some(Ok(())) ==> SettledBy(Calls(w.acts, a), w.store.View(), ps[|r|])
    ensures Driven(w.acts, w.store.View(), ids + [a], ps, r + [one])
  {
    hide w.Valid, Calls, After, SettledBy;
    forall k | 0 <= k < |r| && r[k] == Some(Ok(()))
      ensures SettledBy(Calls(w.acts, ids[k]), w.store.View(), ps[k])
    {
      StaysSettled(w, seen, db, Calls(seen, ids[k]), ps[k]);
    }
  }

  /** A candidate is read again just before it is driven; `None` when there is nothing left to drive. */
  method DriveCandidate(w: World, cfg: Config, a: ActorId, p: PaymentId, mine: set<ActorId>)
    returns (r: Option<Result<(), string>>, ghost row: Option<Execution>)
    requires w.Valid() && cfg in w.fleet && a !in w.actors && a in mine
    modifies w, w.store
    ensures w.Ran(old(w.actors), old(w.acts), a, mine) && a !in w.actors
    ensures r.Some? <==> row.Some?
    ensures r.None? ==> Calls(w.acts, a) == old(Calls(w.acts, a))
    ensures row.Some? ==> row.value.payment == p && !row.value.broadcast
    ensures row.Some? && row.value.signed.Some? ==>
      OnlyBroadcast(old(Calls(w.acts, a)), Calls(w.acts, a), row.value, row.value.signed.value)
    ensures r == Some(Ok(())) ==> SettledBy(Calls(w.acts, a), w.store.View(), p)
  {
    hide w.Valid, Calls, SettledBy;
    var x := w.Refetch(a, cfg, p, mine);
    r, row := None, x;
    if x.Some? {
      var one := DriveExecutionForward(w, a, cfg, x.value, mine);
      r := Some(one);
    }
  }

  /** Each stale candidate that is not yet broadcast is driven by an actor of its own, one after the other. */
  method DriveStaleNotYetBroadcast(w: World, cfg: Config, candidates: seq<PaymentId>)
    returns (r: seq<Option<Result<(), string>>>, ghost ids: seq<ActorId>)
    requires w.Valid() && cfg in w.fleet
    modifies w, w.store
    ensures w.Valid() && old(w.acts) <= w.acts && |r| == |ids| == |candidates|
    ensures Driven(w.acts, w.store.View(), ids, candidates, r)
  {
    hide w.Valid, Calls, After, Driven, SettledBy;
    r, ids := [], [];
    NoneDriven(w.acts, w.store.View(), candidates);
    var used: set<ActorId> := {};
    for k := 0 to |candidates|
      invariant w.Valid() && old(w.acts) <= w.acts && |r| == |ids| == k && (forall b <- ids :: b in used)
      invariant Driven(w.acts, w.store.View(), ids, candidates, r)
    {
      var a := w.NewActor(used);
      used := used + {a};
      ghost var seen, db := w.acts, w.store.View();
      StateNow(w);
      var one, _ := DriveCandidate(w, cfg, a, candidates[k], used);
      DrivenMore(w, seen, db, ids, a, candidates, r, one);
      r, ids := r + [one], ids + [a];
    }
  }

  /** Row `k` has the lowest nonce of its wallet, and is the first found among equals. */
  ghost predicate IsLowest(work: seq<Work>, k: nat) {
    && k < |work| && work[k].pc.Repair?
    && forall i :: 0 <= i < |work| && work[i].pc.Repair? && work[i].pc.x.wallet == work[k].pc.x.wallet ==>
      work[k].pc.x.nonce < work[i].pc.x.nonce || (work[k].pc.x.nonce == work[i].pc.x.nonce && k <= i)
  }

  /**
   * A row that is not its wallet's lowest causes no call at all; a completion reported for a lowest one is justified.
   */
  ghost predicate Checked(asked: seq<Action>, acts: seq<Action>, work: seq<Work>, done: map<nat, Option<bool>>, k: nat)
    requires k < |work|
  {
    if IsLowest(work, k)
    then k in done && (done[k].Some? ==> Judged(acts, work[k].a, work[k].pc.x, work[k].pc.tx, done[k].value))
    else k !in done && Calls(acts, work[k].a) == Calls(asked, work[k].a)
  }

  /** The actors of the pending rows wait as the query left them, the others are done. */
  ghost predicate Standing(w: World, cfg: Config, asked: seq<Action>, work: seq<Work>, pending: set<nat>)
    reads w
  {
    && (forall k <- pending ::
        k < |work| && w.At(work[k].a, cfg, work[k].pc) && Calls(w.acts, work[k].a) == Calls(asked, work[k].a))
    && (forall k :: 0 <= k < |work| && k !in pending ==> work[k].a !in w.actors)
  }

  lemma StandingMore(w: World, cfg: Config, asked: seq<Action>, seen: seq<Action>, before: map<ActorId, Actor>,
                     work: seq<Work>, pending: set<nat>, k: nat)
    requires k in pending && k < |work| && work[k].a !in w.actors
    requires forall i, j :: 0 <= i < j < |work| ==> work[i].a != work[j].a
    requires Same(before, w.actors, Owners(work) - {work[k].a}) && SameCalls(seen, w.acts, Owners(work) - {work[k].a})
    requires forall i <- pending :: i < |work| && work[i].a in before && before[work[i].a] == Actor(cfg, work[i].pc)
                                    && Calls(seen, work[i].a) == Calls(asked, work[i].a)
    requires forall i :: 0 <= i < |work| && i !in pending ==> work[i].a !in before
    ensures Standing(w, cfg, asked, work, pending - {k})
  {
    hide Calls;
    forall i | 0 <= i < |work| && i != k
      ensures work[i].a in Owners(work) - {work[k].a}
    {
    }
  }

  lemma CheckedMore(w: World, asked: seq<Action>, seen: seq<Action>, work: seq<Work>, pending: set<nat>, k: nat,
                    done: map<nat, Option<bool>>, done': map<nat, Option<bool>>)
    requires w.Valid() && seen <= w.acts && k in pending && k < |work|
    requires forall i, j :: 0 <= i < j < |work| ==> work[i].a != work[j].a
    requires SameCalls(seen, w.acts, Owners(work) - {work[k].a})
    requires forall i :: 0 <= i < |work| && i !in pending ==> Checked(asked, seen, work, done, i)
    requires Checked(asked, w.acts, work, done', k) && (done' == done || (k in done' && done' == done[k := done'[k]]))
    ensures forall i :: 0 <= i < |work| && i !in pending - {k} ==> Checked(asked, w.acts, work, done', i)
  {
    hide w.Valid, Calls, Judged;
    forall i | 0 <= i < |work| && i !in pending
      ensures Checked(asked, w.acts, work, done', i)
    {
      assert Checked(asked, seen, work, done, i) && work[i].a in Owners(work) - {work[k].a};
      if IsLowest(work, i) && done[i].Some? {
        StaysJudged(w, seen, work[i].a, work[i].pc.x, work[i].pc.tx, done[i].value);
      }
    }
  }

  /** The sweep in progress: what is pending waits, what is done was done properly. */
  ghost predicate Sweeping(w: World, cfg: Config, asked: seq<Action>, work: seq<Work>, pending: set<nat>,
                           done: map<nat, Option<bool>>)
    reads w
  {
    && (forall i, j :: 0 <= i < j < |work| ==> work[i].a != work[j].a)
    && (forall k :: 0 <= k < |work| ==> Found(CheckOutcomes, work[k].pc))
    && Standing(w, cfg, asked, work, pending)
    && (forall k :: 0 <= k < |work| && k !in pending ==> Checked(asked, w.acts, work, done, k))
    && (forall k <- done :: k !in pending)
  }

  /** One row of the sweep: checked if it is its wallet's lowest, else left alone. */
  method CheckRow(w: World, cfg: Config, ghost asked: seq<Action>, work: seq<Work>, ghost pending: set<nat>, k: nat,
                  lowest: bool, done: map<nat, Option<bool>>) returns (done': map<nat, Option<bool>>)
    requires w.Valid() && k in pending && k < |work| && lowest == IsLowest(work, k)
    requires Sweeping(w, cfg, asked, work, pending, done)
    modifies w, w.store
    ensures w.Valid() && old(w.acts) <= w.acts && Sweeping(w, cfg, asked, work, pending - {k}, done')
  {
    hide w.Valid, Calls, Same, SameCalls, Judged, Checked, IsLowest;
    ghost var seen, before := w.acts, w.actors;
    if lowest {
      var one := CheckAndUpdateOutcome(w, work[k].a, cfg, work[k].pc.x, work[k].pc.tx, Owners(work));
      done' := done[k := one];
    } else {
      w.Stop(work[k].a, Owners(work));
      done' := done;
    }
    CheckedNow(asked, w.acts, work, done', k);
    CheckedMore(w, asked, seen, work, pending, k, done, done');
    StandingMore(w, cfg, asked, seen, before, work, pending, k);
  }

  /** Only the lowest unconfirmed nonce of each wallet is checked, in any order. */
  method CheckBroadcastOutcomes(w: World, cfg: Config)
    returns (done: map<nat, Option<bool>>, ghost work: seq<Work>, ghost asked: seq<Action>)
    requires w.Valid() && cfg in w.fleet
    modifies w, w.store
    ensures w.Valid() && old(w.acts) <= asked <= w.acts
    ensures forall k :: 0 <= k < |work| ==> Found(CheckOutcomes, work[k].pc) && work[k].a !in w.actors
    ensures forall k :: 0 <= k < |work| ==> Checked(asked, w.acts, work, done, k)
  {
    hide w.Valid, Calls, Checked, IsLowest;
    var found := w.Query(cfg, CheckOutcomes);
    asked, work := w.acts, found;
    var rows := seq(|found|, k requires 0 <= k < |found| && found[k].pc.Repair? => found[k].pc.x);
    var lowest := LowestByWallet(rows);
    var pending := Indices(|found|);
    done := map[];
    while pending != {}
      invariant w.Valid() && asked <= w.acts && (forall k <- pending :: k < |found|)
      invariant Sweeping(w, cfg, asked, found, pending, done)
      decreases pending
    {
      var k :| k in pending;
      IsLowestExactly(found, rows, lowest, k);
      done := CheckRow(w, cfg, asked, found, pending, k, lowest[rows[k].wallet] == k, done);
      pending := pending - {k};
    }
  }

  function Indices(n: nat): (s: set<nat>)
    ensures forall k: nat :: k in s <==> k < n
  {
    if n == 0 then {} else Indices(n - 1) + {n - 1}
  }

  lemma CheckedNow(asked: seq<Action>, acts: seq<Action>, work: seq<Work>, done: map<nat, Option<bool>>, k: nat)
    requires k < |work| && work[k].pc.Repair?
    requires IsLowest(work, k) ==>
      k in done && (done[k].Some? ==> Judged(acts, work[k].a, work[k].pc.x, work[k].pc.tx, done[k].value))
    requires !IsLowest(work, k) ==> k !in done && Calls(acts, work[k].a) == Calls(asked, work[k].a)
    ensures Checked(asked, acts, work, done, k)
  {
  }

  /** The map built by the loop holds exactly the lowest rows. */
  lemma IsLowestExactly(work: seq<Work>, rows: seq<Execution>, lowest: map<Wallet, nat>, k: nat)
    requires |rows| == |work| && k < |work|
    requires forall i :: 0 <= i < |work| ==> work[i].pc.Repair? && rows[i] == work[i].pc.x && rows[i].broadcast
    requires forall i :: 0 <= i < |rows| && rows[i].broadcast ==> rows[i].wallet in lowest
    requires forall w <- lowest :: lowest[w] < |rows| && rows[lowest[w]].broadcast && rows[lowest[w]].wallet == w
    requires forall i :: 0 <= i < |rows| && rows[i].broadcast ==>
      var j := lowest[rows[i].wallet];
      rows[j].nonce < rows[i].nonce || (rows[j].nonce == rows[i].nonce && j <= i)
    ensures lowest[rows[k].wallet] == k <==> IsLowest(work, k)
  {
    var j := lowest[rows[k].wallet];
    assert work[j].pc.x == rows[j];
  }
}
