/** The Postgres store (go-api/internal/postgres): each method is one statement or one transaction on the tables. */
module PostgresStore {
  import opened Common
  import opened Payments
  import opened Database
  import opened Protocol
  import Money

  datatype Insertion = Inserted | LostRace | Rejected

  class Store {
    var payments: map<PaymentId, Payment>
    var byKey: map<Key, PaymentId>
    var hops: map<PaymentId, seq<Hop>>
    var quotes: map<PaymentId, seq<QuoteRow>>
    var outbox: map<EventId, OutboxRow>
    var executions: map<ExecId, Execution>
    var byPayment: map<PaymentId, ExecId>
    var byNonce: map<(Wallet, int), ExecId>
    var wallets: map<Wallet, int>

    /** The tables as one value. */
    function View(): Db
      reads this
    {
      Db(payments, byKey, hops, quotes, outbox, executions, byPayment, byNonce, wallets)
    }

    constructor ()
      ensures View() == EMPTY
    {
      payments, byKey, hops, quotes, outbox := map[], map[], map[], map[], map[];
      executions, byPayment, byNonce, wallets := map[], map[], map[], map[];
    }

    /** Another session's committed work becomes visible. */
    method Load(db: Db)
      modifies this
      ensures View() == db
    {
      payments, byKey, hops, quotes, outbox := db.payments, db.byKey, db.hops, db.quotes, db.outbox;
      executions, byPayment, byNonce, wallets := db.executions, db.byPayment, db.byNonce, db.wallets;
    }

    method FindByIdempotencyKey(d: Draft) returns (r: Option<Answer>)
      ensures r.Some? <==> KeyTaken(View(), d)
      ensures r.Some? ==> r.value == AnswerFor(View(), d)
      ensures r.Some? ==>
        var id, asked := byKey[d.req.key], d.req;
        var stored := payments[id].req;
        && (r.value == Replayed(id) <==>
            && stored.source == asked.source && stored.destination == asked.destination && stored.asset == asked.asset
            && stored.mode == asked.mode && Money.SameNumber(stored.amount, asked.amount))
        && (r.value == Conflict <==>
            || stored.source != asked.source || stored.destination != asked.destination || stored.asset != asked.asset
            || stored.mode != asked.mode || !Money.SameNumber(stored.amount, asked.amount))
    {
      hide Money.SameNumber;
      if d.req.key !in byKey || byKey[d.req.key] !in payments { return None; }
      var id := byKey[d.req.key];
      r := Some(if Matches(payments[id].req, d.req) then Replayed(id) else Conflict);
    }

    /** The creation transaction: everything is inserted, or nothing is. */
    method InsertPayment(d: Draft, id: PaymentId, event: EventId) returns (r: Insertion)
      modifies this
      ensures r == if KeyTaken(old(View()), d) then LostRace else if Insertable(d) then Inserted else Rejected
      ensures View() == if r == Inserted then Database.InsertPayment(old(View()), d, id, event) else old(View())
      ensures r == Inserted ==>
        && payments == old(payments)[id := Payment(d.req, Routed, None)] && byKey == old(byKey)[d.req.key := id]
        && hops == old(hops)[id := d.hops] && quotes == old(quotes)[id := d.quotes]
        && outbox == old(outbox)[event := OutboxRow(id, false)]
    {
      hide BaseUnits, QuotesInsertable, Money.Numeral;
      if d.req.key in byKey && byKey[d.req.key] in payments { return LostRace; }
      var before := View();
      var amount := BaseUnits(d.req.amount);
      if !Money.Numeral(d.req.amount) || amount.None? || amount.value <= 0 { return Rejected; }
      if d.req.source == d.req.destination { return Rejected; }
      payments := payments[id := Payment(d.req, Routed, None)];
      byKey := byKey[d.req.key := id];
      InsertHops(id, d.hops);
      var inserted := InsertQuotes(id, d.quotes);
      if !inserted {
        Load(before);
        return Rejected;
      }
      outbox := outbox[event := OutboxRow(id, false)];
      r := Inserted;
    }

    method InsertHops(id: PaymentId, rows: seq<Hop>)
      modifies this`hops
      ensures hops == old(hops)[id := rows]
    {
      hops := hops[id := []];
      for i := 0 to |rows|
        invariant hops == old(hops)[id := rows[..i]]
      {
        hops := hops[id := hops[id] + [rows[i]]];
        assert rows[..i + 1] == rows[..i] + [rows[i]];
      }
      assert rows[..|rows|] == rows;
    }

    /** Row by row, until one violates a unique constraint. */
    method InsertQuotes(id: PaymentId, rows: seq<QuoteRow>) returns (ok: bool)
      modifies this`quotes
      ensures ok <==> QuotesInsertable(rows)
      ensures ok ==> quotes == old(quotes)[id := rows]
    {
      quotes := quotes[id := []];
      for i := 0 to |rows|
        invariant quotes == old(quotes)[id := rows[..i]] && QuotesInsertable(rows[..i])
      {
        var q := rows[i];
        if exists j :: 0 <= j < i && (rows[j].provider == q.provider || (rows[j].selected && q.selected)) {
          return false;
        }
        quotes := quotes[id := quotes[id] + [q]];
        assert rows[..i + 1] == rows[..i] + [rows[i]];
      }
      assert rows[..|rows|] == rows;
      ok := true;
    }

    method MarkOutboxPublished(event: EventId)
      modifies this`outbox
      ensures View() == MarkPublished(old(View()), event)
      ensures event in outbox ==> outbox == old(outbox)[event := OutboxRow(old(outbox)[event].payment, true)]
    {
      if event in outbox { outbox := outbox[event := outbox[event].(published := true)]; }
    }

    /** The guarded status update behind every transition; it answers whether a row was affected. */
    method UpdateStatus(p: PaymentId, from: Status, to: Status) returns (affected: bool)
      modifies this`payments
      ensures affected == HasStatus(old(View()), p, from)
      ensures View() == MoveStatus(old(View()), p, from, to)
      ensures affected ==>
        payments == old(payments)[p := Payment(old(payments)[p].req, to, old(payments)[p].failureReason)]
      ensures !affected ==> payments == old(payments)
    {
      affected := p in payments && payments[p].status == from;
      if affected { payments := payments[p := payments[p].(status := to)]; }
    }

    method ClaimPayment(p: PaymentId) returns (claimed: bool, mode: Mode)
      modifies this`payments
      ensures claimed == HasStatus(old(View()), p, Routed)
      ensures claimed ==> mode == old(payments)[p].req.mode
      ensures View() == MoveStatus(old(View()), p, Routed, Processing)
    {
      claimed := UpdateStatus(p, Routed, Processing);
      mode := if p in payments then payments[p].req.mode else Simulated;
    }

    method MarkProcessingFailed(p: PaymentId, reason: string) returns (failed: bool)
      modifies this`payments
      ensures failed == HasStatus(old(View()), p, Processing)
      ensures View() == FailProcessing(old(View()), p, reason)
      ensures failed ==> payments == old(payments)[p := Payment(old(payments)[p].req, Failed, Some(reason))]
    {
      failed := p in payments && payments[p].status == Processing;
      if failed { payments := payments[p := payments[p].(status := Failed, failureReason := Some(reason))]; }
    }

    method SeedWalletNonce(w: Wallet, initial: int)
      modifies this`wallets
      ensures View() == SeedWallet(old(View()), w, initial)
      ensures wallets == if w in old(wallets) then old(wallets) else old(wallets)[w := initial]
    {
      if w !in wallets { wallets := wallets[w := initial]; }
    }

    /** The counter moves first and is rolled back unless the row goes in: a lost race burns no nonce. */
    method TryCreateExecution(id: ExecId, p: PaymentId, provider: Provider, w: Wallet) returns (r: Allocation)
      modifies this
      ensures r == Allocate(old(View()), id, p, provider, w)
      ensures View() == if r.Allocated? then InsertRow(old(View()), r.row) else old(View())
      ensures r == Unseeded <==> w !in old(wallets)
      ensures r == AlreadyExists <==> w in old(wallets) && p in old(byPayment)
      ensures r.Allocated? ==>
        && r.row == Execution(id, p, provider, w, old(wallets)[w], None, false, Pending, false)
        && wallets == old(wallets)[w := old(wallets)[w] + 1] && executions == old(executions)[id := r.row]
        && byPayment == old(byPayment)[p := id] && byNonce == old(byNonce)[(w, r.row.nonce) := id]
    {
      if w !in wallets { return Unseeded; }
      var before := wallets;
      wallets := wallets[w := wallets[w] + 1];
      var nonce := wallets[w] - 1;
      if p in byPayment {
        wallets := before;
        return AlreadyExists;
      }
      if p !in payments || (w, nonce) in byNonce {
        wallets := before;
        return ConstraintViolated;
      }
      var row := Execution(id, p, provider, w, nonce, None, false, Pending, false);
      executions := executions[id := row];
      byPayment := byPayment[p := id];
      byNonce := byNonce[(w, nonce) := id];
      r := Allocated(row);
    }

    method PersistSignedExecution(id: ExecId, tx: Tx)
      modifies this`executions
      ensures View() == PersistSigned(old(View()), id, tx)
      ensures id in executions ==> executions == old(executions)[id := old(executions)[id].(signed := Some(tx))]
    {
      if id in executions { executions := executions[id := executions[id].(signed := Some(tx))]; }
    }

    method MarkExecutionBroadcast(id: ExecId)
      modifies this`executions
      ensures View() == MarkBroadcast(old(View()), id)
      ensures id in executions ==> executions == old(executions)[id := old(executions)[id].(broadcast := true)]
    {
      if id in executions { executions := executions[id := executions[id].(broadcast := true)]; }
    }

    method UpdateExecutionExternalStatus(id: ExecId, e: ExternalStatus)
      modifies this`executions
      ensures View() == RecordExternal(old(View()), id, e)
      ensures id in executions ==>
        executions == old(executions)[id := old(executions)[id].(external := e, confirmed := true)]
    {
      if id in executions { executions := executions[id := executions[id].(external := e, confirmed := true)]; }
    }

    method GetQuoteByPaymentID(p: PaymentId) returns (q: Option<QuoteRow>)
      ensures q == if p in quotes then SelectedQuote(quotes[p]) else None
    {
      q := None;
      if p in quotes {
        var rows, i := quotes[p], 0;
        while i < |rows|
          invariant 0 <= i <= |rows| && SelectedQuote(rows) == SelectedQuote(rows[i..])
        {
          if rows[i].selected { return Some(rows[i]); }
          i := i + 1;
        }
      }
    }
  }
}
