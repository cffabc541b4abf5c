/**
 The Postgres tables the payment core writes, the single-statement writes it issues
 against them, and the unique keys that make a statement (and with it the whole
 transaction) fail.
 */
module Store {
  import opened Ledger

  datatype Option<+T> = None | Some(value: T)

  datatype Direction = Inbound | Outbound

  datatype Channel = StkPush | Paybill | Till | B2c

  datatype Status = Pending | Processing | Settled | Failed | Reversed

  /** Columns that neither a decision nor an amount depends on are not modelled. */
  datatype Txn = Txn(
    tenant: TenantId, channel: Channel, direction: Direction, status: Status, amount: int,
    checkout: Option<string>, originator: Option<string>, receipt: Option<string>, key: Option<string>)

  /** A row of reconciliation_records; its primary index is the transaction id. */
  datatype Record = Record(expected: int, confirmed: Option<int>, drift: bool, reconciled: bool)

  /** The payload of one tenant_webhook_deliveries row. */
  datatype Notice = Notice(txn: TxnId, status: Status, direction: Direction, receipt: Option<string>, amount: int)

  /** A row of payout_status_queries; keyed by Safaricom's id for the query. */
  datatype Query = Query(payout: TxnId, open: bool)

  /** `tenants` maps each tenant to whether it has a webhook URL configured. */
  datatype Db = Db(
    tenants: map<TenantId, bool>, txns: map<TxnId, Txn>, ledger: seq<Entry>,
    records: map<TxnId, Record>, outbox: seq<Notice>, queries: map<string, Query>)

  datatype Error =
    | NotFound | WrongDirection | IllegalTransition | ReceiptConflict | UniqueViolation
    | BadAmount | InsufficientBalance | InvalidValue | Upstream

  datatype Outcome<+T> = Done(value: T) | Abort(error: Error)

  /** JavaScript truthiness of a nullable string: null and "" are both falsy. */
  predicate Truthy(s: Option<string>)
  {
    s.Some? && s.value != ""
  }

  /** `a ?? b`. */
  function Coalesce<T>(a: Option<T>, b: Option<T>): Option<T>
  {
    if a.Some? then a else b
  }

  /** Two rows that no unique index lets coexist. NULLs never collide. */
  predicate Clash(a: Txn, b: Txn)
  {
    || (a.receipt.Some? && a.receipt == b.receipt)
    || (a.checkout.Some? && a.checkout == b.checkout)
    || (a.originator.Some? && a.originator == b.originator)
    || (a.key.Some? && a.key == b.key && a.tenant == b.tenant)
  }

  predicate UniqueAt(txns: map<TxnId, Txn>, id: TxnId, t: Txn)
  {
    forall j | j in txns && j != id :: !Clash(txns[j], t)
  }

  predicate AllUnique(txns: map<TxnId, Txn>)
  {
    forall i, j | i in txns && j in txns && i != j :: !Clash(txns[i], txns[j])
  }

  predicate ReceiptFree(txns: map<TxnId, Txn>, id: TxnId, receipt: Option<string>)
  {
    receipt.Some? ==> forall j | j in txns && j != id :: txns[j].receipt != receipt
  }

  predicate CheckoutFree(txns: map<TxnId, Txn>, id: TxnId, checkout: string)
  {
    forall j | j in txns && j != id :: txns[j].checkout != Some(checkout)
  }

  /** One SQL statement. A patch leaves every column it does not name alone. */
  datatype Write =
    | InsertTxn(id: TxnId, row: Txn)
    | PatchTxn(id: TxnId, status: Option<Status>, receipt: Option<string>, checkout: Option<string>)
    | Append(entries: seq<Entry>)
    | InsertRecord(id: TxnId, record: Record)
    | PatchRecord(id: TxnId, drift: bool, close: bool, confirmed: Option<int>)
    | Enqueue(notice: Notice)

  function Patched(t: Txn, w: Write): Txn
    requires w.PatchTxn?
  {
    t.(status := if w.status.Some? then w.status.value else t.status,
       receipt := Coalesce(w.receipt, t.receipt),
       checkout := Coalesce(w.checkout, t.checkout))
  }

  function PatchedRecord(r: Record, w: Write): Record
    requires w.PatchRecord?
  {
    Record(r.expected, Coalesce(w.confirmed, r.confirmed), r.drift || w.drift, r.reconciled || w.close)
  }

  /** Runs one statement; `None` is a unique-key violation or a missing row. */
  function Apply1(db: Db, w: Write): Option<Db>
  {
    match w
    case InsertTxn(id, row) =>
      if id in db.txns || !UniqueAt(db.txns, id, row) then None
      else Some(db.(txns := db.txns[id := row]))
    case PatchTxn(id, _, _, _) =>
      if id !in db.txns || !UniqueAt(db.txns, id, Patched(db.txns[id], w)) then None
      else Some(db.(txns := db.txns[id := Patched(db.txns[id], w)]))
    case Append(es) => Some(db.(ledger := db.ledger + es))
    case InsertRecord(id, r) =>
      if id in db.records then None else Some(db.(records := db.records[id := r]))
    case PatchRecord(id, _, _, _) =>
      if id !in db.records then Some(db)
      else Some(db.(records := db.records[id := PatchedRecord(db.records[id], w)]))
    case Enqueue(n) => Some(db.(outbox := db.outbox + [n]))
  }

  /** Commits a buffered transaction: all its statements, or none of them. */
  function Apply(db: Db, ws: seq<Write>): Option<Db>
    decreases |ws|
  {
    if ws == [] then Some(db)
    else
      match Apply1(db, ws[0])
      case None => None
      case Some(db') => Apply(db', ws[1..])
  }

  /** Of a row's unique columns only those a patch writes can collide. */
  lemma PatchUnique(db: Db, w: Write)
    requires w.PatchTxn? && w.id in db.txns && AllUnique(db.txns)
    ensures UniqueAt(db.txns, w.id, Patched(db.txns[w.id], w)) <==>
            && ReceiptFree(db.txns, w.id, w.receipt)
            && (w.checkout.Some? ==> CheckoutFree(db.txns, w.id, w.checkout.value))
  {
    var t' := Patched(db.txns[w.id], w);
    forall j | j in db.txns && j != w.id
      ensures Clash(db.txns[j], t') <==>
              || (w.receipt.Some? && db.txns[j].receipt == w.receipt)
              || (w.checkout.Some? && db.txns[j].checkout == w.checkout)
    {
      assert !Clash(db.txns[j], db.txns[w.id]);
    }
  }
}
