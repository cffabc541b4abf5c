/**
 The atomic specification of the money core: each committed database transaction as
 one step on the tables. Whatever the code does in several statements, with locks and
 rollbacks, has to amount to one of these.
 */
module Bank {
  import opened Ledger
  import opened Store

  /** The whole transition graph; nothing else may happen to a status. */
  function Allowed(from: Status): set<Status>
  {
    match from
    case Pending => {Processing, Failed}
    case Processing => {Settled, Failed}
    case Settled => {Reversed}
    case Failed => {}
    case Reversed => {}
  }

  /** Who drives a transition: a Daraja callback, the drift detector, or an operator. */
  datatype Source = Callback | Drift | Operator

  datatype Op =
    | Reserve(id: TxnId, tenant: TenantId, amount: int, key: Option<string>, originator: string)
    | Accept(id: TxnId)
    | Release(id: TxnId)
    | StkCreate(id: TxnId, tenant: TenantId, amount: int)
    | StkAccept(id: TxnId, checkout: string)
    | StkFail(id: TxnId)
    | Settle(id: TxnId, direction: Direction, receipt: Option<string>, source: Source)
    | Fail(id: TxnId, direction: Direction, source: Source)
    | C2bRecord(id: TxnId, tenant: TenantId, channel: Channel, amount: int, transId: string)
    | MarkDrift(id: TxnId)
    | Escalate(id: TxnId)
    | Close(id: TxnId, settled: bool)

  function PayoutRow(op: Op): Txn
    requires op.Reserve?
  {
    Txn(op.tenant, B2c, Outbound, Pending, op.amount, None, Some(op.originator), None, op.key)
  }

  function CollectionRow(op: Op): Txn
    requires op.StkCreate?
  {
    Txn(op.tenant, StkPush, Inbound, Pending, op.amount, None, None, None, None)
  }

  function C2bRow(op: Op): Txn
    requires op.C2bRecord?
  {
    Txn(op.tenant, op.channel, Inbound, Settled, op.amount, None, None, Some(op.transId), None)
  }

  /** What settling a row adds to the ledger; the two directions are opposite. */
  function SettleEntries(id: TxnId, t: Txn): seq<Entry>
  {
    if t.direction == Outbound then SettlementEntries(t.tenant, id, t.amount)
    else CollectionEntries(t.tenant, id, t.amount)
  }

  /** Failing a payout gives the reservation back; a collection reserved nothing. */
  function FailEntries(id: TxnId, t: Txn): seq<Entry>
  {
    if t.direction == Outbound then ReleaseEntries(t.tenant, id, t.amount) else []
  }

  function Confirmed(amount: int): Record
  {
    Record(amount, Some(amount), false, true)
  }

  /** Whether the row's tenant has a webhook configured, as read along with the row. */
  function HookOf(db: Db, id: TxnId): bool
  {
    id in db.txns && db.txns[id].tenant in db.tenants && db.tenants[db.txns[id].tenant]
  }

  function Notify(hook: bool, id: TxnId, t: Txn, status: Status, receipt: Option<string>): seq<Notice>
  {
    if hook then [Notice(id, status, t.direction, Coalesce(receipt, t.receipt), t.amount)] else []
  }

  /**
   Settling a collection or a payout. The flag says whether this call moved the row to
   SETTLED, as opposed to finding it settled already.
   */
  function ExecSettle(db: Db, id: TxnId, direction: Direction, receipt: Option<string>, hook: bool): Outcome<(Db, bool)>
  {
    if id !in db.txns then Abort(NotFound)
    else
      var t := db.txns[id];
      var settled := t.(status := Settled, receipt := Coalesce(receipt, t.receipt));
      if t.direction != direction then Abort(WrongDirection)
      else if t.status == Settled then
        if !Truthy(t.receipt) && Truthy(receipt) then
          if ReceiptFree(db.txns, id, receipt) then Done((db.(txns := db.txns[id := settled]), false))
          else Abort(UniqueViolation)
        else if !Truthy(receipt) || t.receipt == receipt then Done((db, false))
        else Abort(ReceiptConflict)
      else if t.status != Processing then Abort(IllegalTransition)
      else if !ReceiptFree(db.txns, id, receipt) || id in db.records then Abort(UniqueViolation)
      else Done((db.(txns := db.txns[id := settled],
                     ledger := db.ledger + SettleEntries(id, t),
                     records := db.records[id := Confirmed(t.amount)],
                     outbox := db.outbox + Notify(hook, id, t, Settled, receipt)), true))
  }

  function ExecFail(db: Db, id: TxnId, direction: Direction, hook: bool): Outcome<Db>
  {
    if id !in db.txns then Abort(NotFound)
    else
      var t := db.txns[id];
      if t.direction != direction then Abort(WrongDirection)
      else if t.status != Pending && t.status != Processing then Abort(IllegalTransition)
      else Done(db.(txns := db.txns[id := t.(status := Failed)],
                    ledger := db.ledger + FailEntries(id, t),
                    outbox := db.outbox + Notify(hook, id, t, Failed, None)))
  }

  function ExecInsert(db: Db, id: TxnId, row: Txn): Outcome<Db>
  {
    if id in db.txns || !UniqueAt(db.txns, id, row) then Abort(UniqueViolation)
    else Done(db.(txns := db.txns[id := row]))
  }

  function ExecReserve(db: Db, op: Op): Outcome<Db>
    requires op.Reserve?
  {
    if op.amount <= 0 then Abort(BadAmount)
    else if op.tenant !in db.tenants then Abort(NotFound)
    else if op.amount > Balance(db.ledger, op.tenant, TenantBalance) then Abort(InsufficientBalance)
    else
      match ExecInsert(db, op.id, PayoutRow(op))
      case Abort(e) => Abort(e)
      case Done(db') => Done(db'.(ledger := db.ledger + ReservationEntries(op.tenant, op.id, op.amount)))
  }

  function ExecC2b(db: Db, op: Op): Outcome<Db>
    requires op.C2bRecord?
  {
    match ExecInsert(db, op.id, C2bRow(op))
    case Abort(e) => Abort(e)
    case Done(db') =>
      if op.id in db.records then Abort(UniqueViolation)
      else Done(db'.(ledger := db.ledger + CollectionEntries(op.tenant, op.id, op.amount),
                     records := db.records[op.id := Confirmed(op.amount)]))
  }

  /** The initiators' own writes: they set the status without looking at it. */
  function ExecInitiator(db: Db, op: Op): Outcome<Db>
    requires op.Accept? || op.Release? || op.StkAccept? || op.StkFail?
  {
    if op.id !in db.txns then Abort(NotFound)
    else
      var t := db.txns[op.id];
      match op
      case Accept(id) => Done(db.(txns := db.txns[id := t.(status := Processing)]))
      case Release(id) => Done(db.(txns := db.txns[id := t.(status := Failed)],
                                   ledger := db.ledger + ReleaseEntries(t.tenant, id, t.amount)))
      case StkAccept(id, checkout) =>
        if CheckoutFree(db.txns, id, checkout)
        then Done(db.(txns := db.txns[id := t.(status := Processing, checkout := Some(checkout))]))
        else Abort(UniqueViolation)
      case StkFail(id) => Done(db.(txns := db.txns[id := t.(status := Failed)]))
  }

  /** Writes to reconciliation records, each outside any state-machine transaction. */
  function ExecRecord(db: Db, op: Op): Outcome<Db>
    requires op.MarkDrift? || op.Escalate? || op.Close?
  {
    if op.id !in db.txns then Abort(NotFound)
    else
      var amount := db.txns[op.id].amount;
      if op.id !in db.records then
        if op.Escalate? then Done(db.(records := db.records[op.id := Record(amount, None, true, false)])) else Done(db)
      else
        var r := db.records[op.id];
        var r' :=
          if op.Close? then r.(reconciled := true, confirmed := if op.settled then Some(amount) else r.confirmed)
          else r.(drift := true);
        Done(db.(records := db.records[op.id := r']))
  }

  /** One committed transaction. `hook` is whether a tenant webhook was seen configured. */
  function Exec(db: Db, op: Op, hook: bool): Outcome<Db>
  {
    match op
    case Reserve(_, _, _, _, _) => ExecReserve(db, op)
    case StkCreate(id, _, _) => ExecInsert(db, id, CollectionRow(op))
    case C2bRecord(_, _, _, _, _) => ExecC2b(db, op)
    case Settle(id, direction, receipt, _) =>
      (match ExecSettle(db, id, direction, receipt, hook)
       case Abort(e) => Abort(e)
       case Done(r) => Done(r.0))
    case Fail(id, direction, _) => ExecFail(db, id, direction, hook)
    case MarkDrift(_) => ExecRecord(db, op)
    case Escalate(_) => ExecRecord(db, op)
    case Close(_, _) => ExecRecord(db, op)
    case _ => ExecInitiator(db, op)
  }
}
