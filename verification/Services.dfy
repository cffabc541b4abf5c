/**
 The services as the code has them: methods that read and write the tables statement by
 statement and roll back on a throw, each proved to amount to its atomic specification.
 */
module Services {
  import opened Ledger
  import opened Store
  import opened Bank
  import opened Protocol
  import opened Safety
  import opened Settlement
  import opened Handlers
  import opened Escalation

  /** The database client: one method per statement the services issue. */
  class Database {
    var tenants: map<TenantId, bool>
    var txns: map<TxnId, Txn>
    var ledger: seq<Entry>
    var records: map<TxnId, Record>
    var outbox: seq<Notice>
    var queries: map<string, Query>

    function Value(): Db
      reads this
    {
      Db(tenants, txns, ledger, records, outbox, queries)
    }

    /** What the unique indexes guarantee. */
    ghost predicate Valid()
      reads this
    {
      AllUnique(txns)
    }

    constructor (tenants: map<TenantId, bool>)
      ensures Valid() && Value() == Db(tenants, map[], [], map[], [], map[])
    {
      this.tenants := tenants;
      txns, ledger, records, outbox, queries := map[], [], map[], [], map[];
    }

    /** Undoes everything since `saved` was read. */
    method Rollback(saved: Db)
      requires AllUnique(saved.txns)
      modifies this
      ensures Valid() && Value() == saved
    {
      tenants, txns, ledger := saved.tenants, saved.txns, saved.ledger;
      records, outbox, queries := saved.records, saved.outbox, saved.queries;
    }

    method CreateTransaction(id: TxnId, row: Txn) returns (ok: bool)
      requires Valid()
      modifies this`txns
      ensures Valid()
      ensures ok <==> id !in old(txns) && UniqueAt(old(txns), id, row)
      ensures txns == if ok then old(txns)[id := row] else old(txns)
    {
      ok := id !in txns && UniqueAt(txns, id, row);
      if ok {
        txns := txns[id := row];
      }
    }

    /** `None` leaves a column alone. */
    method UpdateTransaction(id: TxnId, status: Option<Status>, receipt: Option<string>, checkout: Option<string>)
      returns (ok: bool)
      requires Valid() && id in txns
      modifies this`txns
      ensures Valid()
      ensures ok <==>
                && ReceiptFree(old(txns), id, receipt)
                && (checkout.Some? ==> CheckoutFree(old(txns), id, checkout.value))
      ensures txns == if ok then old(txns)[id := Patched(old(txns)[id], PatchTxn(id, status, receipt, checkout))]
                      else old(txns)
    {
      var patch := PatchTxn(id, status, receipt, checkout);
      PatchUnique(Value(), patch);
      ok := UniqueAt(txns, id, Patched(txns[id], patch));
      if ok {
        txns := txns[id := Patched(txns[id], patch)];
      }
    }

    method CreateEntries(es: seq<Entry>)
      modifies this`ledger
      ensures ledger == old(ledger) + es
    {
      ledger := ledger + es;
    }

    method CreateRecord(id: TxnId, record: Record) returns (ok: bool)
      modifies this`records
      ensures ok <==> id !in old(records)
      ensures records == if ok then old(records)[id := record] else old(records)
    {
      ok := id !in records;
      if ok {
        records := records[id := record];
      }
    }

    /** updateMany on one transaction's record: no error when there is none. */
    method UpdateRecords(id: TxnId, drift: bool, close: bool, confirmed: Option<int>)
      modifies this`records
      ensures records == if id in old(records)
                         then old(records)[
                                id := PatchedRecord(old(records)[id], PatchRecord(id, drift, close, confirmed))]
                         else old(records)
    {
      if id in records {
        records := records[id := PatchedRecord(records[id], PatchRecord(id, drift, close, confirmed))];
      }
    }

    method CreateDelivery(notice: Notice)
      modifies this`outbox
      ensures outbox == old(outbox) + [notice]
    {
      outbox := outbox + [notice];
    }

    method FindByCheckout(checkout: Option<string>) returns (found: Option<TxnId>)
      requires Valid()
      ensures found == FindCheckout(txns, checkout)
    {
      if checkout.None? {
        return None;
      }
      if id :| id in txns && txns[id].checkout == checkout {
        var other := FindCheckout(txns, checkout).value;
        assert id != other ==> !Clash(txns[id], txns[other]);
        return Some(id);
      }
      return None;
    }

    method FindByOriginator(originator: Option<string>) returns (found: Option<TxnId>)
      requires Valid()
      ensures found == FindOriginator(txns, originator)
    {
      if !Truthy(originator) {
        return None;
      }
      if id :| id in txns && txns[id].originator == originator {
        var other := FindOriginator(txns, originator).value;
        assert id != other ==> !Clash(txns[id], txns[other]);
        return Some(id);
      }
      return None;
    }

    method FindByIdempotencyKey(tenant: TenantId, key: Option<string>) returns (found: Option<TxnId>)
      ensures found.Some? ==> found.value in txns && txns[found.value].tenant == tenant && txns[found.value].key == key
      ensures found.None? ==> forall id | id in txns :: !(txns[id].tenant == tenant && txns[id].key == key)
    {
      if id :| id in txns && txns[id].tenant == tenant && txns[id].key == key {
        return Some(id);
      }
      return None;
    }

    method FindOpenQuery(id: TxnId) returns (found: bool)
      ensures found <==> InFlight(Value(), id)
    {
      found := exists q | q in queries :: queries[q].payout == id && queries[q].open;
    }
  }

  predicate IsSettled(txns: map<TxnId, Txn>, id: TxnId)
  {
    id in txns && txns[id].status == Settled
  }

  /** A receipt that a settled row has nothing against: none, an empty one, its own, or the first it gets. */
  predicate MayAgree(txns: map<TxnId, Txn>, id: TxnId, receipt: Option<string>)
    requires id in txns
  {
    var stored := txns[id].receipt;
    || receipt == None || receipt == Some("") || receipt == stored
    || ((stored == None || stored == Some("")) && forall j | j in txns && j != id :: txns[j].receipt != receipt)
  }

  predicate Moved(before: Db, after: Db, id: TxnId)
  {
    id in before.txns && id in after.txns && after.txns[id].status != before.txns[id].status
  }

  /**
   Whom a transition tells what: if it moved the row and the row's tenant has a webhook
   configured, one delivery with the row's new status and receipt; otherwise nothing.
   */
  predicate TenantIsTold(before: Db, after: Db, id: TxnId)
  {
    if Moved(before, after, id) && before.txns[id].tenant in before.tenants && before.tenants[before.txns[id].tenant]
    then
      after.outbox
      == before.outbox + [Notice(id, after.txns[id].status, before.txns[id].direction,
                                 after.txns[id].receipt, before.txns[id].amount)]
    else after.outbox == before.outbox
  }

  /** A failure goes through exactly on a row of its direction that is not final, and fails it. */
  predicate FailsExactly(before: Db, after: Db, id: TxnId, d: Direction, done: bool)
  {
    && (done <==>
          id in before.txns && before.txns[id].direction == d && before.txns[id].status in {Pending, Processing})
    && (done ==> id in after.txns && after.txns[id] == before.txns[id].(status := Failed))
  }

  /** A settlement that goes through leaves the receipt it carries, or else the one the row had. */
  predicate KeepsReceipt(before: Db, after: Db, id: TxnId, receipt: Option<string>)
  {
    && id in before.txns && id in after.txns
    && after.txns[id]
       == before.txns[id].(status := Settled,
                           receipt := if receipt.Some? && (before.txns[id].status != Settled || receipt.value != "")
                                      then receipt else before.txns[id].receipt)
  }

  class TransactionStateMachine {
    const db: Database

    constructor (db: Database)
      ensures this.db == db
    {
      this.db := db;
    }

    /** `t` is the row as it was read, before the statement that moved it to `status`. */
    method EnqueueWebhookDelivery(id: TxnId, t: Txn, hook: bool, status: Status, receipt: Option<string>)
      modifies db`outbox
      ensures db.outbox == old(db.outbox) + Notify(hook, id, t, status, receipt)
      ensures old(db.outbox) <= db.outbox && |db.outbox| == |old(db.outbox)| + if hook then 1 else 0
      ensures hook && id in db.txns && db.txns[id] == Patched(t, PatchTxn(id, Some(status), receipt, None)) &&
              (status == Settled || (status == Failed && receipt.None? && t.receipt.None?)) ==>
                NoticeOk(db.Value(), db.outbox[|db.outbox| - 1])
    {
      if !hook {
        return;
      }
      db.CreateDelivery(Notice(id, status, t.direction, Coalesce(receipt, t.receipt), t.amount));
    }

    method TransitionToSettled(id: TxnId, receipt: Option<string>) returns (r: Outcome<bool>)
      requires db.Valid()
      modifies db
      ensures db.Valid()
      ensures match ExecSettle(old(db.Value()), id, Inbound, receipt, HookOf(old(db.Value()), id))
              case Abort(e) => r == Abort(e) && db.Value() == old(db.Value())
              case Done(p) => r == Done(p.1) && db.Value() == p.0
      ensures TenantIsTold(old(db.Value()), db.Value(), id)
      ensures r.Done? ==> KeepsReceipt(old(db.Value()), db.Value(), id, receipt)
      ensures !IsSettled(old(db.txns), id) ==>
                (r.Done? <==> Ready(old(db.Value()), id, Inbound) && ReceiptFree(old(db.txns), id, receipt))
      ensures IsSettled(old(db.txns), id) && old(db.txns)[id].direction == Inbound ==>
                (r.Done? <==> MayAgree(old(db.txns), id, receipt))
      ensures r.Done? && !IsSettled(old(db.txns), id) ==>
                && r.value && IsSettled(db.txns, id)
                && id in db.records
                && db.records[id] == Record(old(db.txns)[id].amount, Some(old(db.txns)[id].amount), false, true)
    {
      var saved := db.Value();
      if !IsSettled(db.txns, id) {
        SettlesIff(saved, id, Inbound, receipt, HookOf(saved, id));
      }
      if id !in db.txns {
        return Abort(NotFound);
      }
      var t, hook := db.txns[id], HookOf(saved, id);
      if t.direction == Outbound {
        return Abort(WrongDirection);
      }
      if t.status == Settled {
        if !Truthy(t.receipt) && Truthy(receipt) {
          var filled := db.UpdateTransaction(id, None, receipt, None);
          return if filled then Done(false) else Abort(UniqueViolation);
        }
        if !Truthy(receipt) || t.receipt == receipt {
          return Done(false);
        }
        return Abort(ReceiptConflict);
      }
      if Settled !in Allowed(t.status) {
        return Abort(IllegalTransition);
      }
      var ok := db.UpdateTransaction(id, Some(Settled), receipt, None);
      if !ok {
        return Abort(UniqueViolation);
      }
      db.CreateEntries(CollectionEntries(t.tenant, id, t.amount));
      ok := db.CreateRecord(id, Confirmed(t.amount));
      if !ok {
        db.Rollback(saved);
        return Abort(UniqueViolation);
      }
      EnqueueWebhookDelivery(id, t, hook, Settled, receipt);
      return Done(true);
    }

    /**
     The same call with a receipt that is not text, as a callback may carry one: the update is
     refused, so it succeeds only where no update is needed, and never changes anything.
     */
    method TransitionToSettledUntyped(id: TxnId, truthy: bool) returns (r: Outcome<bool>)
      ensures r.Done? <==> id in db.txns && db.txns[id].direction == Inbound && IsSettled(db.txns, id) && !truthy
      ensures r.Done? ==> r == Done(false)
    {
      if id !in db.txns {
        return Abort(NotFound);
      }
      var t := db.txns[id];
      if t.direction == Outbound {
        return Abort(WrongDirection);
      }
      if t.status == Settled {
        if !Truthy(t.receipt) && truthy {
          return Abort(InvalidValue);
        }
        return if truthy then Abort(ReceiptConflict) else Done(false);
      }
      return if Settled !in Allowed(t.status) then Abort(IllegalTransition) else Abort(InvalidValue);
    }

    method TransitionToFailed(id: TxnId) returns (r: Outcome<()>)
      requires db.Valid()
      modifies db
      ensures db.Valid()
      ensures match ExecFail(old(db.Value()), id, Inbound, HookOf(old(db.Value()), id))
              case Abort(e) => r == Abort(e) && db.Value() == old(db.Value())
              case Done(after) => r == Done(()) && db.Value() == after
      ensures TenantIsTold(old(db.Value()), db.Value(), id)
      ensures FailsExactly(old(db.Value()), db.Value(), id, Inbound, r.Done?)
    {
      if id !in db.txns {
        return Abort(NotFound);
      }
      var t, hook := db.txns[id], HookOf(db.Value(), id);
      if t.direction == Outbound {
        return Abort(WrongDirection);
      }
      if Failed !in Allowed(t.status) {
        return Abort(IllegalTransition);
      }
      var _ := db.UpdateTransaction(id, Some(Failed), None, None);
      assert db.ledger + FailEntries(id, t) == db.ledger;
      EnqueueWebhookDelivery(id, t, hook, Failed, None);
      return Done(());
    }

    method TransitionPayoutToSettled(id: TxnId, receipt: Option<string>) returns (r: Outcome<()>)
      requires db.Valid()
      modifies db
      ensures db.Valid()
      ensures match ExecSettle(old(db.Value()), id, Outbound, receipt, HookOf(old(db.Value()), id))
              case Abort(e) => r == Abort(e) && db.Value() == old(db.Value())
              case Done(p) => r == Done(()) && db.Value() == p.0
      ensures TenantIsTold(old(db.Value()), db.Value(), id)
      ensures r.Done? ==> KeepsReceipt(old(db.Value()), db.Value(), id, receipt)
      ensures !IsSettled(old(db.txns), id) ==>
                (r.Done? <==> Ready(old(db.Value()), id, Outbound) && ReceiptFree(old(db.txns), id, receipt))
      ensures IsSettled(old(db.txns), id) && old(db.txns)[id].direction == Outbound ==>
                (r.Done? <==> MayAgree(old(db.txns), id, receipt))
      ensures r.Done? && !IsSettled(old(db.txns), id) ==>
                && IsSettled(db.txns, id)
                && id in db.records
                && db.records[id] == Record(old(db.txns)[id].amount, Some(old(db.txns)[id].amount), false, true)
    {
      var saved := db.Value();
      if !IsSettled(db.txns, id) {
        SettlesIff(saved, id, Outbound, receipt, HookOf(saved, id));
      }
      if id !in db.txns {
        return Abort(NotFound);
      }
      var t, hook := db.txns[id], HookOf(saved, id);
      if t.direction != Outbound {
        return Abort(WrongDirection);
      }
      if t.status == Settled {
        if !Truthy(t.receipt) && Truthy(receipt) {
          var filled := db.UpdateTransaction(id, None, receipt, None);
          return if filled then Done(()) else Abort(UniqueViolation);
        }
        if !Truthy(receipt) || t.receipt == receipt {
          return Done(());
        }
        return Abort(ReceiptConflict);
      }
      if Settled !in Allowed(t.status) {
        return Abort(IllegalTransition);
      }
      var ok := db.UpdateTransaction(id, Some(Settled), receipt, None);
      if !ok {
        return Abort(UniqueViolation);
      }
      db.CreateEntries(SettlementEntries(t.tenant, id, t.amount));
      ok := db.CreateRecord(id, Confirmed(t.amount));
      if !ok {
        db.Rollback(saved);
        return Abort(UniqueViolation);
      }
      EnqueueWebhookDelivery(id, t, hook, Settled, receipt);
      return Done(());
    }

    method TransitionPayoutToFailed(id: TxnId) returns (r: Outcome<()>)
      requires db.Valid()
      modifies db
      ensures db.Valid()
      ensures match ExecFail(old(db.Value()), id, Outbound, HookOf(old(db.Value()), id))
              case Abort(e) => r == Abort(e) && db.Value() == old(db.Value())
              case Done(after) => r == Done(()) && db.Value() == after
      ensures TenantIsTold(old(db.Value()), db.Value(), id)
      ensures FailsExactly(old(db.Value()), db.Value(), id, Outbound, r.Done?)
    {
      if id !in db.txns {
        return Abort(NotFound);
      }
      var t, hook := db.txns[id], HookOf(db.Value(), id);
      if t.direction != Outbound {
        return Abort(WrongDirection);
      }
      if Failed !in Allowed(t.status) {
        return Abort(IllegalTransition);
      }
      var _ := db.UpdateTransaction(id, Some(Failed), None, None);
      db.CreateEntries(ReleaseEntries(t.tenant, id, t.amount));
      EnqueueWebhookDelivery(id, t, hook, Failed, None);
      return Done(());
    }

    /** A C2B confirmation: the row is created already settled. */
    method RecordInboundSettlement(op: Op) returns (r: Outcome<TxnId>)
      requires db.Valid() && op.C2bRecord?
      modifies db
      ensures db.Valid()
      ensures match Exec(old(db.Value()), op, false)
              case Abort(e) => r == Abort(e) && db.Value() == old(db.Value())
              case Done(after) => r == Done(op.id) && db.Value() == after
      ensures r.Done? ==>
                && db.txns == old(db.txns)[op.id := Txn(op.tenant, op.channel, Inbound, Settled, op.amount, None, None,
                                                        Some(op.transId), None)]
                && db.outbox == old(db.outbox)
                && db.records == old(db.records)[op.id := Record(op.amount, Some(op.amount), false, true)]
                && db.ledger == old(db.ledger) + CollectionEntries(op.tenant, op.id, op.amount)
    {
      var saved := db.Value();
      var ok := db.CreateTransaction(op.id, C2bRow(op));
      if !ok {
        return Abort(UniqueViolation);
      }
      db.CreateEntries(CollectionEntries(op.tenant, op.id, op.amount));
      ok := db.CreateRecord(op.id, Confirmed(op.amount));
      if !ok {
        db.Rollback(saved);
        return Abort(UniqueViolation);
      }
      return Done(op.id);
    }
  }

  /** How an initiation goes on after its row is created. */
  datatype Daraja = Accepts(acceptWritten: bool) | Rejects

  /** A payout with the request's idempotency key exists already. */
  predicate KeyKnown(txns: map<TxnId, Txn>, op: Op)
    requires op.Reserve?
  {
    Truthy(op.key) && exists id | id in txns :: txns[id].tenant == op.tenant && txns[id].key == op.key
  }

  /** The answer to a request whose key made a payout before: that payout, as it is now. */
  predicate Replays(txns: map<TxnId, Txn>, op: Op, r: Outcome<(TxnId, Status)>)
    requires op.Reserve?
  {
    && r.Done? && r.value.0 in txns && r.value.1 == txns[r.value.0].status
    && txns[r.value.0].tenant == op.tenant && txns[r.value.0].key == op.key
  }

  /** The tables once another request's reservation has committed, if it can. */
  function AfterRival(db: Db, rival: Option<Op>): Db
    requires rival.Some? ==> rival.value.Reserve?
  {
    if rival.None? then db else OrElse(Exec(db, rival.value, false), db)
  }

  class B2cService {
    const db: Database

    constructor (db: Database)
      ensures this.db == db
    {
      this.db := db;
    }

    /** Lock, read, compare: the balance that was verified, or why the payout is declined. */
    method AssertSufficientBalance(tenant: TenantId, amount: int) returns (r: Outcome<int>)
      ensures r.Done? <==> 0 < amount <= Balance(db.ledger, tenant, TenantBalance) && tenant in db.tenants
      ensures r.Done? ==> r.value == Balance(db.ledger, tenant, TenantBalance)
      ensures r == Abort(BadAmount) <==> amount <= 0
      ensures r == Abort(NotFound) <==> amount > 0 && tenant !in db.tenants
      ensures r.Abort? ==> r.error in {BadAmount, NotFound, InsufficientBalance}
    {
      if amount <= 0 {
        return Abort(BadAmount);
      }
      if tenant !in db.tenants {
        return Abort(NotFound);
      }
      var credits := SumFor(db.ledger, tenant, TenantBalance, Credit);
      var available := credits - SumFor(db.ledger, tenant, TenantBalance, Debit);
      return if amount > available then Abort(InsufficientBalance) else Done(available);
    }

    method ReserveFunds(op: Op) returns (r: Outcome<()>)
      requires db.Valid() && op.Reserve?
      modifies db
      ensures db.Valid()
      ensures match Exec(old(db.Value()), op, false)
              case Abort(e) => r == Abort(e) && db.Value() == old(db.Value())
              case Done(after) => r == Done(()) && db.Value() == after
      ensures r.Done? ==>
                && db.txns == old(db.txns)[op.id := Txn(op.tenant, B2c, Outbound, Pending, op.amount, None,
                                                        Some(op.originator), None, op.key)]
                && db.ledger == old(db.ledger) + ReservationEntries(op.tenant, op.id, op.amount)
    {
      var checked := AssertSufficientBalance(op.tenant, op.amount);
      if checked.Abort? {
        return Abort(checked.error);
      }
      var ok := db.CreateTransaction(op.id, PayoutRow(op));
      if !ok {
        return Abort(UniqueViolation);
      }
      db.CreateEntries(ReservationEntries(op.tenant, op.id, op.amount));
      return Done(());
    }

    method ReleaseReservation(id: TxnId)
      requires db.Valid() && id in db.txns
      modifies db
      ensures db.Valid()
      ensures Exec(old(db.Value()), Release(id), false) == Done(db.Value())
      ensures db.txns == old(db.txns)[id := old(db.txns)[id].(status := Failed)]
      ensures db.ledger == old(db.ledger) + ReleaseEntries(old(db.txns)[id].tenant, id, old(db.txns)[id].amount)
    {
      var _ := db.UpdateTransaction(id, Some(Failed), None, None);
      db.CreateEntries(ReleaseEntries(db.txns[id].tenant, id, db.txns[id].amount));
    }

    /**
     One payout request. `rival` is a reservation that another request may commit between
     the key lookup and this one's. A known key replays the row it made, at once or after
     the lost race; otherwise the payout ends reserved and PROCESSING, or declined with
     nothing changed, or FAILED with every account of every tenant back where it was.
     */
    method Initiate(op: Op, daraja: Daraja, rival: Option<Op>) returns (r: Outcome<(TxnId, Status)>)
      requires db.Valid() && op.Reserve? && (rival.Some? ==> rival.value.Reserve?)
      modifies db
      ensures db.Valid()
      ensures KeyKnown(old(db.txns), op) ==> db.Value() == old(db.Value()) && Replays(db.txns, op, r)
      ensures !KeyKnown(old(db.txns), op) ==>
                var mid := AfterRival(old(db.Value()), rival);
                match Exec(mid, op, false)
                case Abort(e) =>
                  && db.Value() == mid
                  && if e == UniqueViolation && KeyKnown(mid.txns, op) then Replays(db.txns, op, r) else r == Abort(e)
                case Done(reserved) =>
                  if daraja == Accepts(true) && op.amount % 100 == 0
                  then r == Done((op.id, Processing)) && Exec(reserved, Accept(op.id), false) == Done(db.Value())
                  else r == Abort(Upstream) && Exec(reserved, Release(op.id), false) == Done(db.Value())
      ensures !KeyKnown(old(db.txns), op) && (r == Done((op.id, Processing)) || r == Abort(Upstream)) ==>
                && op.id in db.txns
                && (op.id !in AfterRival(old(db.Value()), rival).txns ==>
                      db.txns[op.id] == Txn(op.tenant, B2c, Outbound, if r.Done? then Processing else Failed,
                                            op.amount, None, Some(op.originator), None, op.key))
      ensures r.Abort? ==>
                forall tenant, account ::
                  Balance(db.ledger, tenant, account)
                  == Balance(AfterRival(old(db.Value()), rival).ledger, tenant, account)
    {
      if Truthy(op.key) {
        var existing := db.FindByIdempotencyKey(op.tenant, op.key);
        if existing.Some? {
          return Done((existing.value, db.txns[existing.value].status));
        }
      }
      if rival.Some? {
        var _ := ReserveFunds(rival.value);
      }
      ghost var before := db.ledger;
      var reserved := ReserveFunds(op);
      if reserved.Abort? {
        if Truthy(op.key) && reserved.error == UniqueViolation {
          var existing := db.FindByIdempotencyKey(op.tenant, op.key);
          if existing.Some? {
            return Done((existing.value, db.txns[existing.value].status));
          }
        }
        return Abort(reserved.error);
      }
      if daraja == Accepts(true) && op.amount % 100 == 0 {
        var _ := db.UpdateTransaction(op.id, Some(Processing), None, None);
        return Done((op.id, Processing));
      }
      ReleaseReservation(op.id);
      forall tenant: TenantId, account: Account
        ensures Balance(db.ledger, tenant, account) == Balance(before, tenant, account)
      {
        ReleaseUndoesReserve(before, op.tenant, op.id, op.amount, tenant, account);
      }
      return Abort(Upstream);
    }
  }

  /**
   A retry that loses the race to its own first request is not always replayed. The check
   of the balance comes before the insert that would meet the key, so it is replayed iff
   what the winner left covers the amount a second time, and declined for funds otherwise.
   */
  lemma LostRaceIsReplayedIff(db: Db, op: Op, rival: Op)
    requires op.Reserve? && rival.Reserve? && Exec(db, rival, false).Done?
    requires op.tenant == rival.tenant && op.key == rival.key && op.key.Some? && op.amount > 0
    ensures var mid := Exec(db, rival, false).value;
            Exec(mid, op, false)
            == Abort(if op.amount + rival.amount <= Balance(db.ledger, op.tenant, TenantBalance)
                     then UniqueViolation else InsufficientBalance)
    ensures Truthy(op.key) ==> KeyKnown(Exec(db, rival, false).value.txns, op)
  {
    var reservation := ReservationEntries(rival.tenant, rival.id, rival.amount);
    BalanceConcat(db.ledger, reservation, op.tenant, TenantBalance);
    PairBalance(rival.tenant, rival.id, rival.amount, TenantBalance, PayoutReserved, op.tenant, TenantBalance);
    assert Clash(PayoutRow(rival), PayoutRow(op));
    var mid := Exec(db, rival, false).value;
    assert rival.id in mid.txns && mid.txns[rival.id] == PayoutRow(rival);
  }

  /** A release is the inverse of its reservation on every account. */
  lemma ReleaseUndoesReserve(
    ledger: seq<Entry>, owner: TenantId, id: TxnId, amount: int, tenant: TenantId, account: Account)
    ensures Balance(ledger + ReservationEntries(owner, id, amount) + ReleaseEntries(owner, id, amount), tenant, account)
         == Balance(ledger, tenant, account)
  {
    var reservation, release := ReservationEntries(owner, id, amount), ReleaseEntries(owner, id, amount);
    BalanceConcat(ledger + reservation, release, tenant, account);
    BalanceConcat(ledger, reservation, tenant, account);
    PairBalance(owner, id, amount, TenantBalance, PayoutReserved, tenant, account);
    PairBalance(owner, id, amount, PayoutReserved, TenantBalance, tenant, account);
  }

  class StkPushService {
    const db: Database

    constructor (db: Database)
      ensures this.db == db
    {
      this.db := db;
    }

    /** One collection request: no ledger entry, and the checkout id only ever with PROCESSING. */
    method Initiate(op: Op, daraja: Daraja, checkout: string) returns (r: Outcome<(TxnId, Status)>)
      requires db.Valid() && op.StkCreate?
      modifies db
      ensures db.Valid()
      ensures db.ledger == old(db.ledger) && db.records == old(db.records) && db.outbox == old(db.outbox)
      ensures r.Done? <==>
                && op.id !in old(db.txns) && daraja == Accepts(true) && op.amount % 100 == 0
                && CheckoutFree(old(db.txns), op.id, checkout)
      ensures r.Done? ==>
                db.txns == old(db.txns)[op.id := Txn(op.tenant, StkPush, Inbound, Processing, op.amount,
                                                     Some(checkout), None, None, None)]
      ensures r == Abort(Upstream) ==>
                db.txns == old(db.txns)[op.id := Txn(op.tenant, StkPush, Inbound, Failed, op.amount,
                                                     None, None, None, None)]
      ensures r.Abort? && r != Abort(Upstream) ==> db.Value() == old(db.Value())
    {
      var ok := db.CreateTransaction(op.id, CollectionRow(op));
      if !ok {
        return Abort(UniqueViolation);
      }
      assert forall j | j in old(db.txns) :: j != op.id && j in db.txns && db.txns[j] == old(db.txns)[j];
      if daraja == Accepts(true) && op.amount % 100 == 0 {
        ok := db.UpdateTransaction(op.id, Some(Processing), None, Some(checkout));
        if ok {
          return Done((op.id, Processing));
        }
      }
      var _ := db.UpdateTransaction(op.id, Some(Failed), None, None);
      return Abort(Upstream);
    }
  }

  /** The operator's verdict is what the row says. */
  predicate VerdictApplied(t: Txn, t': Txn, settled: bool, receipt: Option<string>)
  {
    t' == if settled then t.(status := Settled, receipt := receipt) else t.(status := Failed)
  }

  class PayoutResolutionService {
    const db: Database
    const stateMachine: TransactionStateMachine

    constructor (stateMachine: TransactionStateMachine)
      ensures this.stateMachine == stateMachine && db == stateMachine.db
    {
      this.stateMachine, db := stateMachine, stateMachine.db;
    }

    method CloseRecord(id: TxnId, settled: bool)
      requires db.Valid() && id in db.txns
      modifies db`records
      ensures Exec(old(db.Value()), Close(id, settled), false) == Done(db.Value())
      ensures id in old(db.records) ==>
                && id in db.records && db.records[id].reconciled
                && (settled ==> db.records[id].confirmed == Some(db.txns[id].amount))
    {
      db.UpdateRecords(id, false, true, if settled then Some(db.txns[id].amount) else None);
    }

    /** The transition the operator's verdict calls for. */
    method ApplyVerdict(id: TxnId, settled: bool, receipt: Option<string>) returns (r: Outcome<()>)
      requires stateMachine.db == db && db.Valid()
      requires id in db.txns && db.txns[id].direction == Outbound && db.txns[id].status == Processing
      requires settled ==> receipt.Some?
      modifies db
      ensures db.Valid()
      ensures r.Abort? ==> db.Value() == old(db.Value())
      ensures r.Done? <==> (settled ==> id !in old(db.records) && ReceiptFree(old(db.txns), id, receipt))
      ensures r.Done? ==> id in db.txns
      ensures r.Done? ==>
                var op := if settled then Settle(id, Outbound, receipt, Operator) else Fail(id, Outbound, Operator);
                Exec(old(db.Value()), op, HookOf(old(db.Value()), id)) == Done(db.Value())
      ensures r.Done? ==> VerdictApplied(old(db.txns)[id], db.txns[id], settled, receipt)
      ensures r.Done? ==> TenantIsTold(old(db.Value()), db.Value(), id)
      ensures r.Done? && (settled || id in old(db.records)) ==> id in db.records
    {
      if settled {
        r := stateMachine.TransitionPayoutToSettled(id, receipt);
      } else {
        r := stateMachine.TransitionPayoutToFailed(id);
      }
    }

    /** An operator's verdict on a stuck payout, applied through the same transitions. */
    method Resolve(id: TxnId, settled: bool, receipt: Option<string>) returns (r: Outcome<()>)
      requires stateMachine.db == db && db.Valid()
      requires settled ==> Truthy(receipt)
      modifies db
      ensures db.Valid()
      ensures r.Abort? ==> db.Value() == old(db.Value())
      ensures r.Done? <==>
                && id in old(db.txns)
                && old(db.txns)[id].direction == Outbound && old(db.txns)[id].status == Processing
                && (settled ==> id !in old(db.records) && ReceiptFree(old(db.txns), id, receipt))
      ensures r.Done? ==>
                var first := if settled then Settle(id, Outbound, receipt, Operator) else Fail(id, Outbound, Operator);
                var moved := Exec(old(db.Value()), first, HookOf(old(db.Value()), id));
                moved.Done? && Exec(moved.value, Close(id, settled), false) == Done(db.Value())
      ensures r.Done? ==>
                && id in db.txns && VerdictApplied(old(db.txns)[id], db.txns[id], settled, receipt)
                && TenantIsTold(old(db.Value()), db.Value(), id)
      ensures r.Done? && (settled || id in old(db.records)) ==>
                && id in db.records && db.records[id].reconciled
                && (settled ==> db.records[id].confirmed == Some(old(db.txns)[id].amount))
    {
      if id !in db.txns {
        return Abort(NotFound);
      }
      if db.txns[id].direction != Outbound {
        return Abort(WrongDirection);
      }
      if db.txns[id].status != Processing {
        return Abort(IllegalTransition);
      }
      r := ApplyVerdict(id, settled, receipt);
      if r.Done? {
        CloseRecord(id, settled);
      }
    }
  }

  /** The row moved to SETTLED from one moment to the other. */
  predicate SettledBetween(before: Db, after: Db, id: Option<TxnId>)
  {
    && id.Some? && id.value in before.txns && id.value in after.txns
    && before.txns[id.value].status != Settled
    && after.txns[id.value].status == Settled
  }

  /** The success branch of an STK callback throws: its receipt cannot be read or written, or the settlement aborts. */
  predicate SuccessThrows(db: Db, id: TxnId, receipt: Receipt)
  {
    match receipt
    case Unreadable => true
    case NotText(_, truthy) =>
      !(id in db.txns && db.txns[id].direction == Inbound && IsSettled(db.txns, id) && !truthy)
    case _ => Resolve(db, id, Inbound, Success, StkText(receipt), Callback).Abort?
  }

  /** The handler throws, and its event will be retried. */
  predicate StkThrows(db: Db, found: Option<TxnId>, verdict: Verdict, receipt: Receipt)
  {
    found.Some? &&
      if verdict == Success then SuccessThrows(db, found.value, receipt)
      else Resolve(db, found.value, Inbound, Failure, StkText(receipt), Callback).Abort?
  }

  predicate B2cThrows(db: Db, found: Option<TxnId>, verdict: Verdict, receipt: Receipt)
  {
    found.Some? &&
      (|| !B2cUsable(verdict, receipt)
       || Resolve(db, found.value, Outbound, verdict, B2cText(receipt), Callback).Abort?)
  }

  /** When a success callback carrying the text `r` throws, read off the row and the table. */
  lemma StkTextThrows(db: Db, id: TxnId, checkout: string, r: string)
    requires AllUnique(db.txns)
    requires id in db.txns && db.txns[id].checkout == Some(checkout) && db.txns[id].direction == Inbound
    ensures var t := db.txns[id];
            var free := forall j | j in db.txns && j != id :: db.txns[j].receipt != Some(r);
            StkThrows(db, FindCheckout(db.txns, Some(checkout)), StkVerdict(Numeric(ZERO)), Text(r)) <==>
              match t.status
              case Processing => id in db.records || !free
              case Settled => r != "" && t.receipt != Some(r) && (t.receipt !in {None, Some("")} || !free)
              case _ => true
  {
    FoundByCheckout(db.txns, id, checkout);
  }

  /** Nothing but `query` is closed, nothing is opened or reassigned, and no other table changes. */
  ghost predicate OnlyCloses(before: Db, after: Db, query: Option<string>)
  {
    && Money(after) == Money(before)
    && (forall q :: q in after.queries <==> q in before.queries)
    && (forall q | q in after.queries :: after.queries[q].payout == before.queries[q].payout)
    && (forall q | q in after.queries && q != "" ::
          after.queries[q].open <==> before.queries[q].open && query != Some(q))
    && (OneOpenQuery(before.queries) && Truthy(query) && query.value in before.queries
        && before.queries[query.value].open ==>
          !InFlight(after, before.queries[query.value].payout))
  }

  class WebhookHandlers {
    const db: Database
    const stateMachine: TransactionStateMachine

    constructor (stateMachine: TransactionStateMachine)
      ensures this.stateMachine == stateMachine && db == stateMachine.db
    {
      this.stateMachine, db := stateMachine, stateMachine.db;
    }

    /** The success branch. `settledNow` gates the receipt email: true for the one call that settles the row. */
    method ApplyStkSuccess(id: TxnId, receipt: Receipt) returns (threw: bool, settledNow: bool)
      requires stateMachine.db == db && db.Valid()
      modifies db
      ensures db.Valid()
      ensures db.Value() == if !StkUsable(Success, receipt) then old(db.Value())
                            else OrElse(Resolve(old(db.Value()), id, Inbound, Success, StkText(receipt), Callback),
                                        old(db.Value()))
      ensures threw <==> SuccessThrows(old(db.Value()), id, receipt)
      ensures settledNow <==> SettledBetween(old(db.Value()), db.Value(), Some(id))
      ensures threw ==> db.Value() == old(db.Value())
    {
      if receipt.Unreadable? {
        return true, false;
      }
      var r;
      if receipt.NotText? {
        r := stateMachine.TransitionToSettledUntyped(id, receipt.truthy);
      } else {
        r := stateMachine.TransitionToSettled(id, StkText(receipt));
      }
      return r.Abort?, r == Done(true);
    }

    /** The two branches of an STK callback whose row was found. */
    method ApplyStk(id: TxnId, verdict: Verdict, receipt: Receipt) returns (threw: bool, settledNow: bool)
      requires stateMachine.db == db && db.Valid() && verdict != Unknown
      modifies db
      ensures db.Valid()
      ensures db.Value() == HandleStk(old(db.Value()), Some(id), verdict, receipt)
      ensures threw <==> StkThrows(old(db.Value()), Some(id), verdict, receipt)
      ensures threw ==> db.Value() == old(db.Value()) && !settledNow
      ensures settledNow <==> SettledBetween(old(db.Value()), db.Value(), Some(id))
    {
      threw, settledNow := false, false;
      if verdict == Success {
        threw, settledNow := ApplyStkSuccess(id, receipt);
      } else {
        var r := stateMachine.TransitionToFailed(id);
        threw := r.Abort?;
      }
    }

    method ProcessStkCallback(checkout: Option<string>, code: Code, receipt: Receipt)
      returns (threw: bool, settledNow: bool)
      requires stateMachine.db == db && db.Valid()
      modifies db
      ensures db.Valid()
      ensures db.Value() == Handle(old(db.Value()), StkResult(checkout, code, receipt))
      ensures threw <==>
                || checkout.None?
                || StkThrows(old(db.Value()), FindCheckout(old(db.txns), checkout), StkVerdict(code), receipt)
      ensures threw ==> db.Value() == old(db.Value()) && !settledNow
      ensures settledNow <==> SettledBetween(old(db.Value()), db.Value(), FindCheckout(old(db.txns), checkout))
    {
      if checkout.None? {
        return true, false;
      }
      var found := db.FindByCheckout(checkout);
      if found.None? {
        return false, false;
      }
      threw, settledNow := ApplyStk(found.value, StkVerdict(code), receipt);
    }

    /** The two branches of a B2C result, once the payout is found and the code converted. */
    method ApplyB2c(id: TxnId, verdict: Verdict, receipt: Receipt) returns (threw: bool)
      requires stateMachine.db == db && db.Valid() && verdict != Unknown
      modifies db
      ensures db.Valid()
      ensures db.Value() == if !B2cUsable(verdict, receipt) then old(db.Value())
                            else OrElse(Resolve(old(db.Value()), id, Outbound, verdict, B2cText(receipt), Callback),
                                        old(db.Value()))
      ensures threw <==>
                || !B2cUsable(verdict, receipt)
                || Resolve(old(db.Value()), id, Outbound, verdict, B2cText(receipt), Callback).Abort?
      ensures threw ==> db.Value() == old(db.Value())
    {
      if verdict == Success {
        if receipt.Unreadable? {
          return true;
        }
        var r := stateMachine.TransitionPayoutToSettled(id, B2cText(receipt));
        threw := r.Abort?;
      } else {
        var r := stateMachine.TransitionPayoutToFailed(id);
        threw := r.Abort?;
      }
    }

    /** A B2C result whose code was converted. */
    method ProcessConverted(originator: Option<string>, verdict: Verdict, receipt: Receipt) returns (threw: bool)
      requires stateMachine.db == db && db.Valid() && verdict != Unknown
      modifies db
      ensures db.Valid()
      ensures db.Value() == HandleB2c(old(db.Value()), FindOriginator(old(db.txns), originator), verdict, receipt)
      ensures threw <==> B2cThrows(old(db.Value()), FindOriginator(old(db.txns), originator), verdict, receipt)
      ensures threw ==> db.Value() == old(db.Value())
    {
      threw := false;
      if !Truthy(originator) {
        return;
      }
      var found := db.FindByOriginator(originator);
      if found.None? {
        return;
      }
      threw := ApplyB2c(found.value, verdict, receipt);
    }

    method ProcessB2cResult(originator: Option<string>, code: Code, receipt: Receipt) returns (threw: bool)
      requires stateMachine.db == db && db.Valid()
      modifies db
      ensures db.Valid()
      ensures db.Value() == Handle(old(db.Value()), B2cResult(originator, code, receipt))
      ensures threw <==>
                || B2cVerdict(code) == Unknown
                || B2cThrows(old(db.Value()), FindOriginator(old(db.txns), originator), B2cVerdict(code), receipt)
      ensures threw ==> db.Value() == old(db.Value())
    {
      var verdict := B2cVerdict(code);
      if verdict == Unknown {
        return true;
      }
      threw := ProcessConverted(originator, verdict, receipt);
    }

    /**
     The answer to a status query closes the query and does nothing else to anything. A
     parameter list that cannot be searched throws first, and leaves the query open.
     */
    method ProcessTransactionStatusResult(query: Option<string>, readable: bool) returns (threw: bool)
      requires db.Valid()
      modifies db`queries
      ensures db.Valid()
      ensures threw <==> Truthy(query) && query.value in db.queries && !readable
      ensures threw ==> db.queries == old(db.queries)
      ensures !threw ==> OnlyCloses(old(db.Value()), db.Value(), query)
      ensures db.Value() == Handle(old(db.Value()), StatusResult(query, readable))
    {
      threw := false;
      if Truthy(query) && query.value in db.queries {
        if !readable {
          return true;
        }
        db.queries := db.queries[query.value := db.queries[query.value].(open := false)];
      }
    }

    method ProcessTransactionStatusTimeout(query: Option<string>)
      requires db.Valid()
      modifies db`queries
      ensures db.Valid()
      ensures OnlyCloses(old(db.Value()), db.Value(), query)
      ensures db.Value() == Handle(old(db.Value()), StatusTimeout(query))
    {
      if Truthy(query) && query.value in db.queries {
        db.queries := db.queries[query.value := db.queries[query.value].(open := false)];
      }
    }
  }

  /** The inputs a drift pass amounts to: one answer per row whose query did not throw. */
  function Answers(batch: seq<TxnId>, answer: TxnId -> Option<Code>): seq<Input>
  {
    if batch == [] then []
    else
      (match answer(batch[0])
       case None => []
       case Some(code) => [DriftAnswer(batch[0], code)]) + Answers(batch[1..], answer)
  }

  function Passes(batch: seq<TxnId>, fate: TxnId -> Fate): seq<Happening>
  {
    seq(|batch|, i requires 0 <= i < |batch| => Pass(batch[i], fate(batch[i])))
  }

  /** A row that is as it was, with a record iff it had one. */
  predicate SameRow(before: Db, after: Db, id: TxnId)
  {
    && (id in after.txns <==> id in before.txns)
    && (id in before.txns ==> after.txns[id] == before.txns[id])
    && (id in after.records <==> id in before.records)
  }

  lemma ExecFrame(db: Db, op: Op, hook: bool, other: TxnId)
    requires other != op.id
    ensures SameRow(db, OrElse(Exec(db, op, hook), db), other)
  {
    if Exec(db, op, hook).Done? {
      ExecShape(db, op, hook);
    }
  }

  /** Settling, failing or marking one row leaves the others as they are. */
  lemma DriftStepFrame(db: Db, id: TxnId, code: Code, other: TxnId)
    requires other != id
    ensures SameRow(db, DriftStep(db, id, code), other)
  {
    var v := DriftVerdict(code);
    if v != Unknown {
      var op := if v == Success then Settle(id, Inbound, None, Drift) else Fail(id, Inbound, Drift);
      ExecFrame(db, op, HookOf(db, id), other);
      ExecFrame(OrElse(Exec(db, op, HookOf(db, id)), db), MarkDrift(id), false, other);
    }
  }

  lemma {:induction false} AnswersSnoc(db: Db, batch: seq<TxnId>, id: TxnId, answer: TxnId -> Option<Code>)
    ensures HandleAll(db, Answers(batch + [id], answer))
         == match answer(id)
            case None => HandleAll(db, Answers(batch, answer))
            case Some(code) => Handle(HandleAll(db, Answers(batch, answer)), DriftAnswer(id, code))
    decreases |batch|
  {
    if batch == [] {
      assert [id][1..] == [];
      assert Answers([id], answer) == match answer(id) { case None => [] case Some(code) => [DriftAnswer(id, code)] };
      if answer(id).Some? {
        assert Answers([id], answer)[1..] == [];
      }
      assert batch + [id] == [id];
    } else {
      assert (batch + [id])[1..] == batch[1..] + [id];
      var all, part := Answers(batch + [id], answer), Answers(batch, answer);
      match answer(batch[0])
      case None =>
        AnswersSnoc(db, batch[1..], id, answer);
        assert all == Answers(batch[1..] + [id], answer) && part == Answers(batch[1..], answer);
      case Some(code) =>
        AnswersSnoc(Handle(db, DriftAnswer(batch[0], code)), batch[1..], id, answer);
        assert all[1..] == Answers(batch[1..] + [id], answer) && part[1..] == Answers(batch[1..], answer);
    }
  }

  lemma {:induction false} HappenSnoc(k: Desk, hs: seq<Happening>, h: Happening)
    ensures HappenAll(k, hs + [h]) == Happen(HappenAll(k, hs), h)
    decreases |hs|
  {
    if hs == [] {
      assert hs + [h] == [h] && [h][1..] == [];
    } else {
      assert (hs + [h])[1..] == hs[1..] + [h];
      HappenSnoc(Happen(k, hs[0]), hs[1..], h);
    }
  }

  lemma ResolvedRow(db: Db, id: TxnId, v: Verdict)
    requires v != Unknown && Resolve(db, id, Inbound, v, None, Drift).Done?
    ensures id in Resolve(db, id, Inbound, v, None, Drift).value.txns
  {
    ExecShape(db, if v == Success then Settle(id, Inbound, None, Drift) else Fail(id, Inbound, Drift), HookOf(db, id));
  }

  lemma QueryOpened(db: Db, query: string, id: TxnId, j: TxnId)
    requires query !in db.queries
    ensures InFlight(db.(queries := db.queries[query := Query(id, true)]), j) <==> j == id || InFlight(db, j)
  {
    var db' := db.(queries := db.queries[query := Query(id, true)]);
    assert db'.queries[query] == Query(id, true);
    if InFlight(db, j) {
      var q :| q in db.queries && db.queries[q].payout == j && db.queries[q].open;
      assert db'.queries[q] == db.queries[q];
    }
  }

  predicate HasDrift(records: map<TxnId, Record>, id: TxnId)
  {
    id in records && records[id].drift
  }

  /** What a stuck row is after its pass: as its answer says, or as it was without one. */
  predicate RowAnswered(before: Db, after: Db, id: TxnId, answer: Option<Code>)
    requires id in before.txns
  {
    && id in after.txns
    && if answer.None? || !Truthy(before.txns[id].checkout) then after.txns[id] == before.txns[id]
       else
         && (after.txns[id].status == Settled <==>
               !Absent(answer.value) && AsNumber(answer.value) == Is(ZERO) && id !in before.records)
         && (after.txns[id].status == Failed <==> ReadsNonzero(answer.value))
  }

  /** The first `i` rows of a pass are as their answers say, and nothing else has changed. */
  ghost predicate PassSoFar(before: Db, now: Db, batch: seq<TxnId>, i: nat, answer: TxnId -> Option<Code>)
    requires i <= |batch| && forall id | id in batch :: id in before.txns
  {
    && (forall k | 0 <= k < i :: RowAnswered(before, now, batch[k], answer(batch[k])))
    && (forall j | j !in batch[..i] :: SameRow(before, now, j))
  }

  lemma RowToCome(before: Db, now: Db, batch: seq<TxnId>, i: nat, answer: TxnId -> Option<Code>)
    requires i < |batch| && (forall id | id in batch :: id in before.txns) && PassSoFar(before, now, batch, i, answer)
    requires forall p, q | 0 <= p < q < |batch| :: batch[p] != batch[q]
    ensures var id := batch[i];
            id in now.txns && now.txns[id] == before.txns[id] && (id in now.records <==> id in before.records)
  {
    assert batch[i] !in batch[..i];
  }

  lemma OneMoreAnswered(before: Db, mid: Db, now: Db, batch: seq<TxnId>, i: nat, answer: TxnId -> Option<Code>)
    requires i < |batch| && (forall id | id in batch :: id in before.txns) && PassSoFar(before, mid, batch, i, answer)
    requires forall p, q | 0 <= p < q < |batch| :: batch[p] != batch[q]
    requires batch[i] in mid.txns && RowAnswered(mid, now, batch[i], answer(batch[i]))
    requires forall j | j != batch[i] :: SameRow(mid, now, j)
    ensures PassSoFar(before, now, batch, i + 1, answer)
  {
    RowToCome(before, mid, batch, i, answer);
    assert batch[..i + 1] == batch[..i] + [batch[i]];
    forall k | 0 <= k < i + 1 ensures RowAnswered(before, now, batch[k], answer(batch[k])) {
      if k < i {
        assert SameRow(mid, now, batch[k]);
      }
    }
    forall j | j !in batch[..i + 1] ensures SameRow(before, now, j) {
      assert SameRow(before, mid, j) && SameRow(mid, now, j);
    }
  }

  class DriftDetector {
    const db: Database
    const stateMachine: TransactionStateMachine
    var alerts: seq<TxnId>

    constructor (stateMachine: TransactionStateMachine)
      ensures this.stateMachine == stateMachine && db == stateMachine.db && alerts == []
    {
      this.stateMachine, db, alerts := stateMachine, stateMachine.db, [];
    }

    method FlagDrift(id: TxnId)
      requires db.Valid() && id in db.txns
      modifies db`records
      ensures Exec(old(db.Value()), MarkDrift(id), false) == Done(db.Value())
      ensures id in db.records ==> db.records[id].drift
    {
      db.UpdateRecords(id, true, false, None);
    }

    /** The transition a verdict calls for; whether it went through. */
    method ApplyVerdict(id: TxnId, verdict: Verdict) returns (applied: bool)
      requires stateMachine.db == db && db.Valid() && verdict != Unknown
      modifies db
      ensures db.Valid()
      ensures applied ==> Resolve(old(db.Value()), id, Inbound, verdict, None, Drift) == Done(db.Value())
      ensures !applied ==>
                && Resolve(old(db.Value()), id, Inbound, verdict, None, Drift).Abort?
                && db.Value() == old(db.Value())
    {
      if verdict == Success {
        var r := stateMachine.TransitionToSettled(id, None);
        applied := r.Done?;
      } else {
        var r := stateMachine.TransitionToFailed(id);
        applied := r.Done?;
      }
    }

    method RecordDriftAndReconcile(id: TxnId, code: Code)
      requires stateMachine.db == db && db.Valid() && id in db.txns
      modifies db
      ensures db.Valid()
      ensures db.Value() == DriftStep(old(db.Value()), id, code)
      ensures Moved(old(db.Value()), db.Value(), id) && id in db.records ==> db.records[id].drift
    {
      if DriftVerdict(code) == Unknown {
        return;
      }
      ghost var before := db.Value();
      var applied := ApplyVerdict(id, DriftVerdict(code));
      if !applied {
        return;
      }
      ResolvedRow(before, id, DriftVerdict(code));
      FlagDrift(id);
    }

    /** One stuck row: its query answers, or throws and is logged. */
    method ReconcileOne(id: TxnId, answer: Option<Code>)
      requires stateMachine.db == db && db.Valid()
      requires id in db.txns && db.txns[id].status == Processing && db.txns[id].direction == Inbound
      modifies db
      ensures db.Valid()
      ensures db.Value() == match answer
                            case None => old(db.Value())
                            case Some(code) => Handle(old(db.Value()), DriftAnswer(id, code))
      ensures forall j | j != id :: SameRow(old(db.Value()), db.Value(), j)
      ensures RowAnswered(old(db.Value()), db.Value(), id, answer)
      ensures answer.Some? && Truthy(old(db.txns)[id].checkout) ==>
                var settles := !Absent(answer.value) && AsNumber(answer.value) == Is(ZERO);
                (db.Value() == old(db.Value()) <==>
                   if settles then id in old(db.records) else !ReadsNonzero(answer.value))
    {
      if !Truthy(db.txns[id].checkout) || answer.None? {
        return;
      }
      ghost var before := db.Value();
      DriftMoves(before, id, answer.value);
      RecordDriftAndReconcile(id, answer.value);
      forall j | j != id ensures SameRow(before, db.Value(), j) {
        DriftStepFrame(before, id, answer.value, j);
      }
    }

    /**
     One pass over stuck collections. A query that throws skips its row; every other row
     gets exactly the transition a callback with that verdict would have caused.
     */
    method DetectStuckTransactions(batch: seq<TxnId>, answer: TxnId -> Option<Code>)
      requires stateMachine.db == db && db.Valid()
      requires forall i, j | 0 <= i < j < |batch| :: batch[i] != batch[j]
      requires forall id | id in batch ::
                 id in db.txns && db.txns[id].status == Processing && db.txns[id].direction == Inbound
      modifies db
      ensures db.Valid()
      ensures db.Value() == HandleAll(old(db.Value()), Answers(batch, answer))
      ensures forall id | id in batch :: RowAnswered(old(db.Value()), db.Value(), id, answer(id))
      ensures forall id | id in old(db.txns) && id !in batch :: id in db.txns && db.txns[id] == old(db.txns)[id]
    {
      var i := 0;
      while i < |batch|
        invariant 0 <= i <= |batch| && db.Valid()
        invariant db.Value() == HandleAll(old(db.Value()), Answers(batch[..i], answer))
        invariant PassSoFar(old(db.Value()), db.Value(), batch, i, answer)
      {
        var id := batch[i];
        assert batch[..i + 1] == batch[..i] + [id];
        AnswersSnoc(old(db.Value()), batch[..i], id, answer);
        RowToCome(old(db.Value()), db.Value(), batch, i, answer);
        ghost var mid := db.Value();
        ReconcileOne(id, answer(id));
        OneMoreAnswered(old(db.Value()), mid, db.Value(), batch, i, answer);
        i := i + 1;
      }
      assert batch[..i] == batch;
    }

    /** Asks Safaricom about a payout unless an answer is awaited already; no row or entry changes. */
    method AttemptQuery(id: TxnId, query: Option<string>)
      requires db.Valid() && id in db.txns
      modifies db`queries
      ensures OneOpenQuery(old(db.queries)) ==> OneOpenQuery(db.queries)
      ensures old(InFlight(db.Value(), id)) ==> db.queries == old(db.queries)
      ensures InFlight(db.Value(), id) <==>
                || old(InFlight(db.Value(), id))
                || (Truthy(db.txns[id].originator) && query.Some? && query.value !in old(db.queries))
      ensures forall j | j != id :: InFlight(db.Value(), j) <==> old(InFlight(db.Value(), j))
      ensures db.Value() == AttemptStatusQuery(old(db.Value()), id, query)
    {
      if !Truthy(db.txns[id].originator) {
        return;
      }
      var inFlight := db.FindOpenQuery(id);
      if inFlight || query.None? || query.value in db.queries {
        return;
      }
      forall j {
        QueryOpened(db.Value(), query.value, id, j);
      }
      db.queries := db.queries[query.value := Query(id, true)];
    }

    method EscalatePayout(id: TxnId, fate: Fate)
      requires db.Valid() && id in db.txns
      modifies db`queries, db`records, this`alerts
      ensures Desk(db.Value(), alerts) == EscalateOne(Desk(old(db.Value()), old(alerts)), id, fate)
      ensures forall j :: HasDrift(db.records, j) <==> HasDrift(old(db.records), j) || (j == id && fate.saved)
      ensures fate.saved && id !in old(db.records) ==> db.records[id] == Record(db.txns[id].amount, None, true, false)
      ensures alerts == if !HasDrift(old(db.records), id) && fate.saved && fate.alerted
                        then old(alerts) + [id] else old(alerts)
    {
      if id in db.records && db.records[id].drift {
        return;
      }
      AttemptQuery(id, fate.query);
      if !fate.saved {
        return;
      }
      if id in db.records {
        db.UpdateRecords(id, true, false, None);
      } else {
        var _ := db.CreateRecord(id, Record(db.txns[id].amount, None, true, false));
      }
      if fate.alerted {
        alerts := alerts + [id];
      }
    }

    /** One pass over stuck payouts: escalate each, once, and resolve none. */
    method DetectStuckPayouts(batch: seq<TxnId>, fate: TxnId -> Fate)
      requires db.Valid()
      requires forall id | id in batch ::
                 id in db.txns && db.txns[id].status == Processing && db.txns[id].direction == Outbound
      modifies db`queries, db`records, this`alerts
      ensures Desk(db.Value(), alerts) == HappenAll(Desk(old(db.Value()), old(alerts)), Passes(batch, fate))
      ensures forall j :: HasDrift(db.records, j) <==> HasDrift(old(db.records), j) || (j in batch && fate(j).saved)
      ensures forall j :: j in alerts <==>
                || j in old(alerts)
                || (j in batch && !HasDrift(old(db.records), j) && fate(j).saved && fate(j).alerted)
    {
      ghost var start := Desk(db.Value(), alerts);
      var i := 0;
      while i < |batch|
        invariant 0 <= i <= |batch|
        invariant Desk(db.Value(), alerts) == HappenAll(start, Passes(batch[..i], fate))
        invariant forall j :: HasDrift(db.records, j) <==>
                    HasDrift(old(db.records), j) || (j in batch[..i] && fate(j).saved)
        invariant forall j :: j in alerts <==>
                    || j in old(alerts)
                    || (j in batch[..i] && !HasDrift(old(db.records), j) && fate(j).saved && fate(j).alerted)
      {
        var id := batch[i];
        assert batch[..i + 1] == batch[..i] + [id];
        assert Passes(batch[..i + 1], fate) == Passes(batch[..i], fate) + [Pass(id, fate(id))];
        HappenSnoc(start, Passes(batch[..i], fate), Pass(id, fate(id)));
        EscalatePayout(id, fate(id));
        i := i + 1;
      }
      assert batch[..i] == batch;
    }
  }
}
