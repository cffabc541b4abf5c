/**
 Settling one transaction several times: when a settlement goes through, and why the
 order and the number of callbacks, retries and drift passes do not matter.
 */
module Settlement {
  import opened Ledger
  import opened Store
  import opened Bank

  /** One call of the settle method; `hook` is the webhook configuration it reads. */
  datatype Attempt = Attempt(receipt: Option<string>, hook: bool)

  /** Runs the attempts in order and counts how many report having settled the row. */
  function SettleAll(db: Db, id: TxnId, d: Direction, attempts: seq<Attempt>): Outcome<(Db, nat)>
    decreases |attempts|
  {
    if attempts == [] then Done((db, 0))
    else
      match ExecSettle(db, id, d, attempts[0].receipt, attempts[0].hook)
      case Abort(e) => Abort(e)
      case Done(first) =>
        match SettleAll(first.0, id, d, attempts[1..])
        case Abort(e) => Abort(e)
        case Done(rest) => Done((rest.0, rest.1 + if first.1 then 1 else 0))
  }

  /** A row the next verdict may settle. */
  predicate Ready(db: Db, id: TxnId, d: Direction)
  {
    id in db.txns && db.txns[id].direction == d && db.txns[id].status == Processing && id !in db.records
  }

  /**
   Exactly when a row that is not settled yet gets settled: it is in the right direction,
   PROCESSING, has no reconciliation record, and the receipt is on no other row.
   */
  lemma SettlesIff(db: Db, id: TxnId, d: Direction, receipt: Option<string>, hook: bool)
    requires id in db.txns ==> db.txns[id].status != Settled
    ensures ExecSettle(db, id, d, receipt, hook).Done? <==> Ready(db, id, d) && ReceiptFree(db.txns, id, receipt)
    ensures ExecSettle(db, id, d, receipt, hook).Done? ==>
              var r := ExecSettle(db, id, d, receipt, hook).value;
              && r.1
              && id in r.0.txns && r.0.txns[id].status == Settled
              && id in r.0.records && r.0.records[id].expected == r.0.txns[id].amount
              && r.0.records[id].confirmed == Some(r.0.txns[id].amount)
  {
  }

  /** An escalated payout carries a record already, so it can still fail but never settle. */
  lemma EscalatedCannotSettle(db: Db, id: TxnId, receipt: Option<string>, hook: bool, escalated: Db)
    requires Exec(db, Escalate(id), false) == Done(escalated)
    requires db.txns[id].direction == Outbound && db.txns[id].status == Processing
    ensures ExecSettle(escalated, id, Outbound, receipt, hook) == Abort(UniqueViolation)
    ensures ExecFail(escalated, id, Outbound, hook).Done?
  {
  }

  predicate Carries(attempts: seq<Attempt>, receipt: string)
  {
    exists i | 0 <= i < |attempts| :: attempts[i].receipt == Some(receipt)
  }

  /** The state any sequence of agreeing attempts ends in. */
  function SettledOnce(db: Db, id: TxnId, receipt: Option<string>, first: Attempt): Db
    requires id in db.txns
  {
    var t := db.txns[id];
    db.(txns := db.txns[id := t.(status := Settled, receipt := receipt)],
        ledger := db.ledger + SettleEntries(id, t),
        records := db.records[id := Confirmed(t.amount)],
        outbox := db.outbox + Notify(first.hook, id, t, Settled, first.receipt))
  }

  lemma CarriesCons(attempts: seq<Attempt>, receipt: string)
    requires attempts != []
    ensures Carries(attempts, receipt) <==> attempts[0].receipt == Some(receipt) || Carries(attempts[1..], receipt)
  {
    var rest := attempts[1..];
    if Carries(rest, receipt) {
      var i :| 0 <= i < |rest| && rest[i].receipt == Some(receipt);
      assert attempts[i + 1].receipt == Some(receipt);
    }
    if Carries(attempts, receipt) && attempts[0].receipt != Some(receipt) {
      var i :| 0 <= i < |attempts| && attempts[i].receipt == Some(receipt);
      assert rest[i - 1].receipt == Some(receipt);
    }
  }

  /** No two attempts carry different receipts; an empty one counts as none. */
  predicate Agreeing(attempts: seq<Attempt>, receipt: string)
  {
    forall a | a in attempts :: !Truthy(a.receipt) || a.receipt == Some(receipt)
  }

  function Receipted(db: Db, id: TxnId, receipt: string): Db
    requires id in db.txns
  {
    db.(txns := db.txns[id := db.txns[id].(receipt := Some(receipt))])
  }

  /** Once settled, further agreeing attempts only ever back-fill a missing or empty receipt. */
  lemma {:induction false} SettledStays(db: Db, id: TxnId, d: Direction, attempts: seq<Attempt>, receipt: string)
    requires id in db.txns && db.txns[id].direction == d && db.txns[id].status == Settled
    requires !Truthy(db.txns[id].receipt) || db.txns[id].receipt == Some(receipt)
    requires receipt != "" && Carries(attempts, receipt) ==> ReceiptFree(db.txns, id, Some(receipt))
    requires Agreeing(attempts, receipt)
    ensures SettleAll(db, id, d, attempts)
         == Done((if receipt != "" && Carries(attempts, receipt) then Receipted(db, id, receipt) else db, 0))
    decreases |attempts|
  {
    if attempts != [] {
      assert attempts[0] in attempts;
      CarriesCons(attempts, receipt);
      var next := if Truthy(attempts[0].receipt) then Receipted(db, id, receipt) else db;
      assert db.txns[id].receipt == Some(receipt) ==> Receipted(db, id, receipt) == db;
      assert ExecSettle(db, id, d, attempts[0].receipt, attempts[0].hook) == Done((next, false));
      SettledStays(next, id, d, attempts[1..], receipt);
      assert Receipted(next, id, receipt) == Receipted(db, id, receipt);
    }
  }

  /** The receipt the row is left with: the one that was carried, or else whatever the first attempt wrote. */
  function FinalReceipt(attempts: seq<Attempt>, receipt: string): Option<string>
    requires attempts != []
  {
    if receipt != "" && Carries(attempts, receipt) then Some(receipt) else attempts[0].receipt
  }

  /** What the receipts of a sequence need of the other rows. */
  predicate Usable(db: Db, id: TxnId, attempts: seq<Attempt>, receipt: string)
    requires attempts != []
  {
    && ReceiptFree(db.txns, id, attempts[0].receipt)
    && ReceiptFree(db.txns, id, FinalReceipt(attempts, receipt))
  }

  lemma FirstSettles(db: Db, id: TxnId, d: Direction, a: Attempt)
    requires Ready(db, id, d) && db.txns[id].receipt == None && ReceiptFree(db.txns, id, a.receipt)
    ensures ExecSettle(db, id, d, a.receipt, a.hook) == Done((SettledOnce(db, id, a.receipt, a), true))
  {
  }

  lemma FirstUncarried(attempts: seq<Attempt>, receipt: string)
    requires attempts != [] && Agreeing(attempts, receipt)
    ensures !Carries(attempts, receipt) ==> attempts[0].receipt != Some(receipt)
    ensures !(receipt != "" && Carries(attempts, receipt)) ==> !Truthy(attempts[0].receipt)
  {
    assert attempts[0] in attempts;
    CarriesCons(attempts, receipt);
  }

  /**
   Any non-empty sequence of agreeing attempts on a ready row, empty receipts included,
   goes through, reports exactly one settlement, and ends in one closed form.
   */
  lemma AgreeingAttemptsSettleOnce(db: Db, id: TxnId, d: Direction, attempts: seq<Attempt>, receipt: string)
    requires Ready(db, id, d) && db.txns[id].receipt == None
    requires attempts != [] && Agreeing(attempts, receipt) && Usable(db, id, attempts, receipt)
    ensures SettleAll(db, id, d, attempts)
         == Done((SettledOnce(db, id, FinalReceipt(attempts, receipt), attempts[0]), 1))
  {
    var a := attempts[0];
    assert a in attempts;
    var first := SettledOnce(db, id, a.receipt, a);
    FirstSettles(db, id, d, a);
    CarriesCons(attempts, receipt);
    FirstUncarried(attempts, receipt);
    SettledStays(first, id, d, attempts[1..], receipt);
    assert Receipted(first, id, receipt) == SettledOnce(db, id, Some(receipt), a);
  }

  /**
   Confluence, exactly: two such sequences, of any lengths and in any orders, go through,
   settle once, and write the same entries and record. They leave the same row iff both
   carried the receipt, or neither did and their first attempts wrote the same. The
   deliveries are the same iff their first attempts' payloads are.
   */
  lemma SettlementIsConfluent(db: Db, id: TxnId, d: Direction, xs: seq<Attempt>, ys: seq<Attempt>, receipt: string)
    requires Ready(db, id, d) && db.txns[id].receipt == None
    requires xs != [] && Agreeing(xs, receipt) && Usable(db, id, xs, receipt)
    requires ys != [] && Agreeing(ys, receipt) && Usable(db, id, ys, receipt)
    ensures SettleAll(db, id, d, xs).Done? && SettleAll(db, id, d, ys).Done?
    ensures var a, b := SettleAll(db, id, d, xs).value, SettleAll(db, id, d, ys).value;
            && a.0.ledger == b.0.ledger && a.0.records == b.0.records
            && a.1 == b.1 == 1
            && (a.0.txns == b.0.txns <==>
                  if receipt != "" && (Carries(xs, receipt) || Carries(ys, receipt))
                  then Carries(xs, receipt) && Carries(ys, receipt)
                  else xs[0].receipt == ys[0].receipt)
            && (a.0.outbox == b.0.outbox <==>
                  Notify(xs[0].hook, id, db.txns[id], Settled, xs[0].receipt)
                  == Notify(ys[0].hook, id, db.txns[id], Settled, ys[0].receipt))
  {
    AgreeingAttemptsSettleOnce(db, id, d, xs, receipt);
    AgreeingAttemptsSettleOnce(db, id, d, ys, receipt);
    var t := db.txns[id];
    var n, m := Notify(xs[0].hook, id, t, Settled, xs[0].receipt), Notify(ys[0].hook, id, t, Settled, ys[0].receipt);
    assert (db.outbox + n)[|db.outbox|..] == n && (db.outbox + m)[|db.outbox|..] == m;
    var a, b := SettleAll(db, id, d, xs).value.0, SettleAll(db, id, d, ys).value.0;
    assert a.txns[id].receipt == FinalReceipt(xs, receipt) && b.txns[id].receipt == FinalReceipt(ys, receipt);
    FirstUncarried(xs, receipt);
    FirstUncarried(ys, receipt);
  }

  /** The empty receipt is where order matters: it is stored if it comes first and dropped if not. */
  lemma EmptyReceiptDiverges(db: Db, id: TxnId, d: Direction, hook: bool)
    requires Ready(db, id, d) && db.txns[id].receipt == None && ReceiptFree(db.txns, id, Some(""))
    ensures var empty, bare := Attempt(Some(""), hook), Attempt(None, hook);
            var a, b := SettleAll(db, id, d, [empty, bare]), SettleAll(db, id, d, [bare, empty]);
            && a.Done? && b.Done?
            && id in a.value.0.txns && a.value.0.txns[id].receipt == Some("")
            && id in b.value.0.txns && b.value.0.txns[id].receipt == None
  {
    var empty, bare := Attempt(Some(""), hook), Attempt(None, hook);
    AgreeingAttemptsSettleOnce(db, id, d, [empty, bare], "");
    AgreeingAttemptsSettleOnce(db, id, d, [bare, empty], "");
  }

  /**
   A stored empty receipt is a value to the unique key: while one row holds it, a settlement
   that carries it cannot go through on another, and one without a receipt still can.
   */
  lemma SecondEmptyReceiptAborts(db: Db, id: TxnId, other: TxnId, d: Direction, hook: bool)
    requires Ready(db, id, d) && db.txns[id].receipt == None
    requires other in db.txns && other != id && db.txns[other].receipt == Some("")
    ensures ExecSettle(db, id, d, Some(""), hook) == Abort(UniqueViolation)
    ensures ExecSettle(db, id, d, None, hook).Done?
  {
  }
}
