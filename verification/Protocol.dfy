/**
 The atomic bank as a state machine: committed transactions, the initiators that are
 still between creating a row and finishing with it, and the requests sent to Daraja.
 */
module Protocol {
  import opened Ledger
  import opened Store
  import opened Bank

  /**
   What a worker still owes a row it created: after the creating commit it calls Daraja
   once and then writes the outcome, unless its process dies first.
   */
  datatype Call = NoCall | Call(id: TxnId, payout: bool, sent: bool)

  datatype Request = Request(id: TxnId, shillings: int)

  datatype State = State(db: Db, calls: seq<Call>, sent: seq<Request>)

  datatype Label =
    | Stutter
    | Commit(w: nat, op: Op, hook: bool)
    | Drop(w: nat)
    | Send(w: nat)
    | Config(tenants: map<TenantId, bool>)

  /** The lookups and validations that precede each transaction in the code. */
  predicate Enabled(s: State, w: nat, op: Op)
    requires w < |s.calls|
  {
    var c := s.calls[w];
    match op
    case Reserve(_, _, _, _, _) => c == NoCall
    case StkCreate(_, _, amount) => c == NoCall && amount > 0
    case C2bRecord(_, _, channel, amount, transId) => channel in {Paybill, Till} && amount > 0 && transId != ""
    case Accept(id) => c == Call(id, true, true)
    case Release(id) => c.Call? && c.id == id && c.payout
    case StkAccept(id, _) => c == Call(id, false, true)
    case StkFail(id) => c.Call? && c.id == id && !c.payout
    case Settle(id, direction, _, source) => id in s.db.txns && Found(s.db.txns[id], direction, source)
    case Fail(id, direction, source) => id in s.db.txns && Found(s.db.txns[id], direction, source)
    case MarkDrift(id) => true
    case Escalate(id) => id in s.db.txns && s.db.txns[id].direction == Outbound
    case Close(id, settled) => id in s.db.txns && (settled ==> s.db.txns[id].status == Settled)
  }

  /**
   How a transition's caller found its row: collections by checkoutRequestId, payouts by
   originatorConversationId; the drift detector settles collections only, and an operator
   only a payout it has seen PROCESSING, which never goes back to PENDING.
   */
  predicate Found(t: Txn, direction: Direction, source: Source)
  {
    match source
    case Callback => if direction == Inbound then t.checkout.Some? else t.originator.Some?
    case Drift => direction == Inbound && t.checkout.Some?
    case Operator => direction == Outbound && t.status != Pending
  }

  function CallAfter(op: Op, before: Call): Call
  {
    match op
    case Reserve(id, _, _, _, _) => Call(id, true, false)
    case StkCreate(id, _, _) => Call(id, false, false)
    case Accept(_) => NoCall
    case Release(_) => NoCall
    case StkAccept(_, _) => NoCall
    case StkFail(_) => NoCall
    case _ => before
  }

  predicate Step(s: State, l: Label, s': State)
  {
    match l
    case Stutter => s' == s
    case Commit(w, op, hook) =>
      && w < |s.calls|
      && Enabled(s, w, op)
      && Exec(s.db, op, hook).Done?
      && s' == State(Exec(s.db, op, hook).value, s.calls[w := CallAfter(op, s.calls[w])], s.sent)
    case Drop(w) => w < |s.calls| && s' == s.(calls := s.calls[w := NoCall])
    case Send(w) =>
      && w < |s.calls|
      && s.calls[w].Call?
      && !s.calls[w].sent
      && s.calls[w].id in s.db.txns
      && s.db.txns[s.calls[w].id].amount % 100 == 0
      && s' == s.(calls := s.calls[w := s.calls[w].(sent := true)],
                  sent := s.sent + [Request(s.calls[w].id, s.db.txns[s.calls[w].id].amount / 100)])
    case Config(tenants) => s' == s.(db := s.db.(tenants := tenants))
  }

  predicate Live(s: State, id: TxnId)
  {
    exists w | 0 <= w < |s.calls| :: s.calls[w].Call? && s.calls[w].id == id
  }

  /**
   The one ordering assumption: a payout's failure result is not applied while its
   initiator is still running. (A row its initiator still works on is PENDING, so
   "not while the row is PENDING" implies it.)
   */
  predicate E1(s: State, l: Label)
  {
    l.Commit? && l.op.Fail? && l.op.direction == Outbound && l.op.source == Callback ==> !Live(s, l.op.id)
  }

  // ---- The shape of a commit ----

  /** Columns no statement ever rewrites. */
  predicate SameIdentity(a: Txn, b: Txn)
  {
    && a.tenant == b.tenant && a.channel == b.channel && a.direction == b.direction
    && a.amount == b.amount && a.originator == b.originator && a.key == b.key
  }

  /** What a committed operation appends to the ledger. */
  function Gain(db: Db, op: Op): seq<Entry>
  {
    match op
    case Reserve(id, tenant, amount, _, _) => ReservationEntries(tenant, id, amount)
    case C2bRecord(id, tenant, _, amount, _) => CollectionEntries(tenant, id, amount)
    case Release(id) =>
      if id in db.txns then ReleaseEntries(db.txns[id].tenant, id, db.txns[id].amount) else []
    case Settle(id, _, _, _) =>
      if id in db.txns && db.txns[id].status != Settled then SettleEntries(id, db.txns[id]) else []
    case Fail(id, _, _) => if id in db.txns then FailEntries(id, db.txns[id]) else []
    case _ => []
  }

  /** What a committed operation appends to the outbox. */
  function Told(db: Db, op: Op, hook: bool): seq<Notice>
  {
    match op
    case Settle(id, _, receipt, _) =>
      if id in db.txns && db.txns[id].status != Settled then Notify(hook, id, db.txns[id], Settled, receipt) else []
    case Fail(id, _, _) => if id in db.txns then Notify(hook, id, db.txns[id], Failed, None) else []
    case _ => []
  }

  /** A commit touches one row, and appends to the ledger and the outbox for that row only. */
  predicate Shape(db: Db, op: Op, hook: bool, db': Db)
  {
    && db'.tenants == db.tenants
    && db'.queries == db.queries
    && (op.id in db'.txns && db'.txns == db.txns[op.id := db'.txns[op.id]])
    && (op.id in db.txns ==> SameIdentity(db.txns[op.id], db'.txns[op.id]))
    && db'.ledger == db.ledger + Gain(db, op)
    && db'.outbox == db.outbox + Told(db, op, hook)
    && (db'.records == db.records
        || (op.id in db'.records && db'.records == db.records[op.id := db'.records[op.id]]))
  }

  lemma SettleShape(db: Db, op: Op, hook: bool)
    requires op.Settle? && Exec(db, op, hook).Done?
    ensures Shape(db, op, hook, Exec(db, op, hook).value)
  {
  }

  lemma FailShape(db: Db, op: Op, hook: bool)
    requires op.Fail? && Exec(db, op, hook).Done?
    ensures Shape(db, op, hook, Exec(db, op, hook).value)
  {
  }

  lemma InsertShape(db: Db, op: Op, hook: bool)
    requires op.Reserve? || op.StkCreate? || op.C2bRecord?
    requires Exec(db, op, hook).Done?
    ensures Shape(db, op, hook, Exec(db, op, hook).value)
  {
  }

  lemma InitiatorShape(db: Db, op: Op, hook: bool)
    requires op.Accept? || op.Release? || op.StkAccept? || op.StkFail?
    requires Exec(db, op, hook).Done?
    ensures Shape(db, op, hook, Exec(db, op, hook).value)
  {
  }

  lemma RecordShape(db: Db, op: Op, hook: bool)
    requires op.MarkDrift? || op.Escalate? || op.Close?
    requires Exec(db, op, hook).Done?
    ensures Shape(db, op, hook, Exec(db, op, hook).value)
  {
  }

  lemma ExecShape(db: Db, op: Op, hook: bool)
    requires Exec(db, op, hook).Done?
    ensures Shape(db, op, hook, Exec(db, op, hook).value)
  {
    if op.Settle? {
      SettleShape(db, op, hook);
    } else if op.Fail? {
      FailShape(db, op, hook);
    } else if op.Reserve? || op.StkCreate? || op.C2bRecord? {
      InsertShape(db, op, hook);
    } else if op.MarkDrift? || op.Escalate? || op.Close? {
      RecordShape(db, op, hook);
    } else {
      InitiatorShape(db, op, hook);
    }
  }
}
