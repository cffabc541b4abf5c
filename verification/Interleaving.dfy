/**
 The same operations as the code runs them: any number of workers, each going through
 begin, lock, read, one buffered statement at a time, and commit, under READ COMMITTED.
 FOR UPDATE and UPDATE locks are held to the end of the transaction; a worker may abort
 or die between any two steps. Every such run refines a run of the atomic bank.
 */
module Interleaving {
  import opened Ledger
  import opened Store
  import opened Bank
  import opened Protocol
  import opened Safety

  datatype Lock = RowLock(id: TxnId) | TenantLock(tenant: TenantId)

  datatype Tx =
    | NoTx
    | Begun(op: Op)
    | Locked(op: Op)
    | Writing(op: Op, hook: bool, todo: seq<Write>, done: seq<Write>)

  /** Committed tables, and per worker the call it is in and its open transaction. */
  datatype Conc = Conc(db: Db, calls: seq<Call>, txs: seq<Tx>, sent: seq<Request>)

  datatype Move =
    | Begin(w: nat, op: Op)
    | TakeLock(w: nat)
    | Read(w: nat)
    | Statement(w: nat)
    | CommitTx(w: nat)
    | AbortTx(w: nat)
    | Crash(w: nat)
    | SendRequest(w: nat)
    | Reconfigure(tenants: map<TenantId, bool>)

  // ---- What the code does inside a transaction ----

  /** The reservation locks the tenant; transitions and updates lock the row they write. */
  function LockOf(op: Op): Option<Lock>
  {
    match op
    case Reserve(_, tenant, _, _, _) => Some(TenantLock(tenant))
    case StkCreate(_, _, _) => None
    case C2bRecord(_, _, _, _, _) => None
    case MarkDrift(_) => None
    case Escalate(_) => None
    case Close(_, _) => None
    case _ => Some(RowLock(op.id))
  }

  function Held(tx: Tx): Option<Lock>
  {
    if tx.Locked? || tx.Writing? then LockOf(tx.op) else None
  }

  function StatusPatch(id: TxnId, status: Status): Write
  {
    PatchTxn(id, Some(status), None, None)
  }

  function DeliveryWrites(hook: bool, id: TxnId, t: Txn, status: Status, receipt: Option<string>): seq<Write>
  {
    if hook then [Enqueue(Notice(id, status, t.direction, Coalesce(receipt, t.receipt), t.amount))] else []
  }

  function PlanSettle(t: Txn, id: TxnId, direction: Direction, receipt: Option<string>, hook: bool): Outcome<seq<Write>>
  {
    if t.direction != direction then Abort(WrongDirection)
    else if t.status == Settled then
      if !Truthy(t.receipt) && Truthy(receipt) then Done([PatchTxn(id, None, receipt, None)])
      else if !Truthy(receipt) || t.receipt == receipt then Done([])
      else Abort(ReceiptConflict)
    else if Settled !in Allowed(t.status) then Abort(IllegalTransition)
    else Done([PatchTxn(id, Some(Settled), receipt, None)]
              + ([Append(SettleEntries(id, t))]
                 + ([InsertRecord(id, Confirmed(t.amount))] + DeliveryWrites(hook, id, t, Settled, receipt))))
  }

  function PlanFail(t: Txn, id: TxnId, direction: Direction, hook: bool): Outcome<seq<Write>>
  {
    if t.direction != direction then Abort(WrongDirection)
    else if Failed !in Allowed(t.status) then Abort(IllegalTransition)
    else Done([StatusPatch(id, Failed)]
              + ((if t.direction == Outbound then [Append(ReleaseEntries(t.tenant, id, t.amount))] else [])
                 + DeliveryWrites(hook, id, t, Failed, None)))
  }

  /** The statements a transaction issues after reading `db`, or why it throws. */
  function Plan(db: Db, op: Op, hook: bool): Outcome<seq<Write>>
  {
    match op
    case Reserve(id, tenant, amount, _, _) =>
      if amount <= 0 then Abort(BadAmount)
      else if tenant !in db.tenants then Abort(NotFound)
      else if amount > Balance(db.ledger, tenant, TenantBalance) then Abort(InsufficientBalance)
      else Done(ReserveWrites(op))
    case StkCreate(id, _, _) => Done([InsertTxn(id, CollectionRow(op))])
    case C2bRecord(id, tenant, _, amount, _) =>
      Done([InsertTxn(id, C2bRow(op))]
           + ([Append(CollectionEntries(tenant, id, amount))] + [InsertRecord(id, Confirmed(amount))]))
    case _ =>
      if op.id !in db.txns then Abort(NotFound)
      else
        var t := db.txns[op.id];
        match op
        case Settle(id, direction, receipt, _) => PlanSettle(t, id, direction, receipt, hook)
        case Fail(id, direction, _) => PlanFail(t, id, direction, hook)
        case Accept(id) => Done([StatusPatch(id, Processing)])
        case Release(id) => Done([StatusPatch(id, Failed)] + [Append(ReleaseEntries(t.tenant, id, t.amount))])
        case StkAccept(id, checkout) => Done([PatchTxn(id, Some(Processing), None, Some(checkout))])
        case StkFail(id) => Done([StatusPatch(id, Failed)])
        case MarkDrift(id) => Done([PatchRecord(id, true, false, None)])
        case Close(id, settled) => Done([PatchRecord(id, false, true, if settled then Some(t.amount) else None)])
        case _ =>
          if op.id in db.records then Done([PatchRecord(op.id, true, false, None)])
          else Done([InsertRecord(op.id, Record(t.amount, None, true, false))])
  }

  function ReserveWrites(op: Op): seq<Write>
    requires op.Reserve?
  {
    [InsertTxn(op.id, PayoutRow(op))] + [Append(ReservationEntries(op.tenant, op.id, op.amount))]
  }

  // ---- The interleaved steps ----

  function Abs(s: Conc): State
  {
    State(s.db, s.calls, s.sent)
  }

  predicate IsInitiatorWrite(op: Op)
  {
    op.Accept? || op.Release? || op.StkAccept? || op.StkFail?
  }

  /** The unlocked lookups a handler makes before opening its transaction. */
  predicate CanBegin(s: Conc, w: nat, op: Op)
    requires w < |s.calls|
  {
    && Enabled(Abs(s), w, op)
    && (s.calls[w].Call? ==> IsInitiatorWrite(op))
    && !op.MarkDrift?
    && !op.Close?
    && (op.Settle? || op.Fail? ==> op.source == Callback || s.db.txns[op.id].status == Processing)
    && (op.Escalate? ==>
          && s.db.txns[op.id].status == Processing
          && !(op.id in s.db.records && s.db.records[op.id].drift))
  }

  /** What a worker goes on to after its transaction committed. */
  function AfterCommit(op: Op): Tx
  {
    match op
    case Settle(id, _, _, source) =>
      if source == Operator then Begun(Close(id, true)) else if source == Drift then Begun(MarkDrift(id)) else NoTx
    case Fail(id, _, source) =>
      if source == Operator then Begun(Close(id, false)) else if source == Drift then Begun(MarkDrift(id)) else NoTx
    case _ => NoTx
  }

  /** The catch blocks: a failed accept write is followed by the failure write. */
  function AfterAbort(op: Op): Tx
  {
    match op
    case Accept(id) => Begun(Release(id))
    case StkAccept(id, _) => Begun(StkFail(id))
    case _ => NoTx
  }

  /** A failure write that itself fails ends the initiator with the row left as it is. */
  function CallAfterAbort(op: Op, c: Call): Call
  {
    if op.Release? || op.StkFail? then NoCall else c
  }

  predicate Next(s: Conc, m: Move, s': Conc)
  {
    match m
    case Begin(w, op) =>
      && w < |s.txs| == |s.calls| && s.txs[w] == NoTx && CanBegin(s, w, op)
      && s' == s.(txs := s.txs[w := Begun(op)])
    case TakeLock(w) =>
      && w < |s.txs| && s.txs[w].Begun? && LockOf(s.txs[w].op).Some?
      && (forall v | 0 <= v < |s.txs| && v != w :: Held(s.txs[v]) != LockOf(s.txs[w].op))
      && s' == s.(txs := s.txs[w := Locked(s.txs[w].op)])
    case Read(w) =>
      && w < |s.txs| && (s.txs[w].Locked? || (s.txs[w].Begun? && LockOf(s.txs[w].op).None?))
      && (var op := s.txs[w].op;
          var plan := Plan(s.db, op, HookOf(s.db, op.id));
          plan.Done? && s' == s.(txs := s.txs[w := Writing(op, HookOf(s.db, op.id), plan.value, [])]))
    case Statement(w) =>
      && w < |s.txs| && s.txs[w].Writing? && s.txs[w].todo != []
      && (var tx := s.txs[w];
          s' == s.(txs := s.txs[w := Writing(tx.op, tx.hook, tx.todo[1..], tx.done + [tx.todo[0]])]))
    case CommitTx(w) =>
      && w < |s.txs| == |s.calls| && s.txs[w].Writing? && s.txs[w].todo == []
      && (var tx := s.txs[w];
          && Apply(s.db, tx.done).Some?
          && s' == Conc(Apply(s.db, tx.done).value, s.calls[w := CallAfter(tx.op, s.calls[w])],
                        s.txs[w := AfterCommit(tx.op)], s.sent))
    case AbortTx(w) =>
      && w < |s.txs| == |s.calls| && s.txs[w] != NoTx
      && s' == s.(txs := s.txs[w := AfterAbort(s.txs[w].op)],
                  calls := s.calls[w := CallAfterAbort(s.txs[w].op, s.calls[w])])
    case Crash(w) =>
      && w < |s.txs| == |s.calls|
      && s' == s.(txs := s.txs[w := NoTx], calls := s.calls[w := NoCall])
    case SendRequest(w) =>
      && w < |s.txs| && s.txs[w] == NoTx
      && Step(Abs(s), Send(w), Abs(s')) && s'.txs == s.txs
    case Reconfigure(tenants) =>
      && (forall w | 0 <= w < |s.txs| ::
            Held(s.txs[w]).Some? && Held(s.txs[w]).value.TenantLock? ==>
              var t := Held(s.txs[w]).value.tenant; (t in tenants <==> t in s.db.tenants))
      && s' == s.(db := s.db.(tenants := tenants))
  }

  /** The step of the atomic bank each interleaved step amounts to. */
  function LabelOf(s: Conc, m: Move): Label
  {
    match m
    case CommitTx(w) => if w < |s.txs| && s.txs[w].Writing? then Commit(w, s.txs[w].op, s.txs[w].hook) else Stutter
    case AbortTx(w) =>
      if w < |s.txs| && s.txs[w] != NoTx && (s.txs[w].op.Release? || s.txs[w].op.StkFail?) then Drop(w) else Stutter
    case Crash(w) => Drop(w)
    case SendRequest(w) => Send(w)
    case Reconfigure(tenants) => Config(tenants)
    case _ => Stutter
  }

  // ---- The invariant of the interleaved system ----

  /** What was planned from an earlier read is still what the atomic operation would do now. */
  ghost predicate PlanStands(db: Db, op: Op, hook: bool, ws: seq<Write>)
  {
    match op
    case Reserve(_, tenant, amount, _, _) =>
      && ws == ReserveWrites(op)
      && amount > 0
      && tenant in db.tenants
      && amount <= Balance(db.ledger, tenant, TenantBalance)
    case Escalate(id) =>
      && id in db.txns
      && (ws == [InsertRecord(id, Record(db.txns[id].amount, None, true, false))]
          || (id in db.records && ws == [PatchRecord(id, true, false, None)]))
    case _ => Plan(db, op, hook) == Done(ws)
  }

  ghost predicate TxOk(s: Conc, w: nat)
    requires w < |s.txs| == |s.calls|
  {
    var tx := s.txs[w];
    tx != NoTx ==>
      && Enabled(Abs(s), w, tx.op)
      && (tx.Writing? ==> PlanStands(s.db, tx.op, tx.hook, tx.done + tx.todo))
  }

  ghost predicate ConcInv(s: Conc)
  {
    && |s.txs| == |s.calls|
    && Inv(Abs(s))
    && (forall w | 0 <= w < |s.txs| :: TxOk(s, w))
    && (forall v, w | 0 <= v < |s.txs| && 0 <= w < |s.txs| && v != w ::
          Held(s.txs[v]).Some? ==> Held(s.txs[v]) != Held(s.txs[w]))
  }

  ghost predicate ConcInit(s: Conc)
  {
    Init(Abs(s)) && |s.txs| == |s.calls| && forall w | 0 <= w < |s.txs| :: s.txs[w] == NoTx
  }

  // ---- A buffered plan commits as the atomic operation ----

  lemma ApplyCons(db: Db, w: Write, ws: seq<Write>)
    ensures Apply(db, [w] + ws) == match Apply1(db, w) { case None => None case Some(db') => Apply(db', ws) }
  {
    assert ([w] + ws)[1..] == ws;
  }

  lemma ApplyOne(db: Db, w: Write)
    ensures Apply(db, [w]) == Apply1(db, w)
  {
    ApplyCons(db, w, []);
    assert [w] + [] == [w];
  }

  lemma ApplyDelivery(db: Db, hook: bool, id: TxnId, t: Txn, status: Status, receipt: Option<string>)
    ensures Apply(db, DeliveryWrites(hook, id, t, status, receipt))
         == Some(db.(outbox := db.outbox + Notify(hook, id, t, status, receipt)))
  {
    if hook {
      ApplyOne(db, DeliveryWrites(hook, id, t, status, receipt)[0]);
    } else {
      assert db.outbox + [] == db.outbox;
    }
  }

  /**
   The four statements of a first settlement, planned from a row `t` that may be stale by
   now: only the receipt's and the record's unique keys can stop them.
   */
  lemma SettleWritesApply(db: Db, op: Op, hook: bool, t: Txn)
    requires AllUnique(db.txns) && op.Settle? && op.id in db.txns
    requires t.direction == op.direction && t.status == Processing
    ensures var id, ws := op.id, PlanSettle(t, op.id, op.direction, op.receipt, hook).value;
            && (Apply(db, ws).Some? <==> ReceiptFree(db.txns, id, op.receipt) && id !in db.records)
            && (Apply(db, ws).Some? ==>
                  Apply(db, ws).value
                  == db.(txns := db.txns[id := Patched(db.txns[id], PatchTxn(id, Some(Settled), op.receipt, None))],
                         ledger := db.ledger + SettleEntries(id, t),
                         records := db.records[id := Confirmed(t.amount)],
                         outbox := db.outbox + Notify(hook, id, t, Settled, op.receipt)))
  {
    var id := op.id;
    var patch := PatchTxn(id, Some(Settled), op.receipt, None);
    var told := DeliveryWrites(hook, id, t, Settled, op.receipt);
    PatchUnique(db, patch);
    ApplyCons(db, patch, [Append(SettleEntries(id, t))] + ([InsertRecord(id, Confirmed(t.amount))] + told));
    if Apply1(db, patch).Some? {
      var db1 := Apply1(db, patch).value;
      ApplyCons(db1, Append(SettleEntries(id, t)), [InsertRecord(id, Confirmed(t.amount))] + told);
      var db2 := db1.(ledger := db1.ledger + SettleEntries(id, t));
      ApplyCons(db2, InsertRecord(id, Confirmed(t.amount)), told);
      if id !in db.records {
        ApplyDelivery(db2.(records := db2.records[id := Confirmed(t.amount)]), hook, id, t, Settled, op.receipt);
      }
    }
  }

  /** The statements of a failure, planned from a row that may be stale: no key stops them. */
  lemma FailWritesApply(db: Db, op: Op, hook: bool, t: Txn)
    requires AllUnique(db.txns) && op.Fail? && op.id in db.txns
    requires t.direction == op.direction && Failed in Allowed(t.status)
    ensures var id, ws := op.id, PlanFail(t, op.id, op.direction, hook).value;
            && Apply(db, ws).Some?
            && Apply(db, ws).value
               == db.(txns := db.txns[id := db.txns[id].(status := Failed)],
                      ledger := db.ledger + FailEntries(id, t),
                      outbox := db.outbox + Notify(hook, id, t, Failed, None))
  {
    var id := op.id;
    var told := DeliveryWrites(hook, id, t, Failed, None);
    var release := if t.direction == Outbound then [Append(ReleaseEntries(t.tenant, id, t.amount))] else [];
    PatchUnique(db, StatusPatch(id, Failed));
    ApplyCons(db, StatusPatch(id, Failed), release + told);
    var db1 := Apply1(db, StatusPatch(id, Failed)).value;
    if t.direction == Outbound {
      ApplyCons(db1, release[0], told);
      ApplyDelivery(db1.(ledger := db1.ledger + FailEntries(id, t)), hook, id, t, Failed, None);
    } else {
      assert release + told == told;
      assert db1.ledger + [] == db1.ledger;
      ApplyDelivery(db1, hook, id, t, Failed, None);
    }
  }

  lemma SettleApplies(db: Db, op: Op, hook: bool, ws: seq<Write>)
    requires AllUnique(db.txns) && op.Settle? && PlanStands(db, op, hook, ws)
    ensures Exec(db, op, hook).Done? <==> Apply(db, ws).Some?
    ensures Apply(db, ws).Some? ==> Exec(db, op, hook) == Done(Apply(db, ws).value)
  {
    if db.txns[op.id].status != Settled {
      SettleWritesApply(db, op, hook, db.txns[op.id]);
    } else if ws != [] {
      ApplyOne(db, ws[0]);
      PatchUnique(db, ws[0]);
    }
  }

  lemma FailApplies(db: Db, op: Op, hook: bool, ws: seq<Write>)
    requires AllUnique(db.txns) && op.Fail? && PlanStands(db, op, hook, ws)
    ensures Apply(db, ws).Some? && Exec(db, op, hook) == Done(Apply(db, ws).value)
  {
    FailWritesApply(db, op, hook, db.txns[op.id]);
  }

  lemma InsertApplies(db: Db, op: Op, hook: bool, ws: seq<Write>)
    requires op.Reserve? || op.StkCreate? || op.C2bRecord?
    requires PlanStands(db, op, hook, ws)
    ensures Exec(db, op, hook).Done? <==> Apply(db, ws).Some?
    ensures Apply(db, ws).Some? ==> Exec(db, op, hook) == Done(Apply(db, ws).value)
  {
    match op
    case Reserve(id, tenant, amount, _, _) =>
      var es := Append(ReservationEntries(tenant, id, amount));
      ApplyCons(db, InsertTxn(id, PayoutRow(op)), [es]);
      ApplyOne(db.(txns := db.txns[id := PayoutRow(op)]), es);
    case StkCreate(id, _, _) => ApplyOne(db, ws[0]);
    case C2bRecord(id, tenant, _, amount, _) =>
      var es := Append(CollectionEntries(tenant, id, amount));
      var record := InsertRecord(id, Confirmed(amount));
      ApplyCons(db, InsertTxn(id, C2bRow(op)), [es] + [record]);
      var db1 := db.(txns := db.txns[id := C2bRow(op)]);
      ApplyCons(db1, es, [record]);
      ApplyOne(db1.(ledger := db1.ledger + es.entries), record);
  }

  lemma InitiatorApplies(db: Db, op: Op, hook: bool, ws: seq<Write>)
    requires AllUnique(db.txns) && IsInitiatorWrite(op) && PlanStands(db, op, hook, ws)
    ensures Exec(db, op, hook).Done? <==> Apply(db, ws).Some?
    ensures Apply(db, ws).Some? ==> Exec(db, op, hook) == Done(Apply(db, ws).value)
  {
    PatchUnique(db, ws[0]);
    if op.Release? {
      var t := db.txns[op.id];
      var es := Append(ReleaseEntries(t.tenant, op.id, t.amount));
      ApplyCons(db, ws[0], [es]);
      ApplyOne(Apply1(db, ws[0]).value, es);
    } else {
      ApplyOne(db, ws[0]);
    }
  }

  lemma RecordApplies(db: Db, op: Op, hook: bool, ws: seq<Write>)
    requires op.MarkDrift? || op.Escalate? || op.Close?
    requires PlanStands(db, op, hook, ws) && Apply(db, ws).Some?
    ensures Exec(db, op, hook) == Done(Apply(db, ws).value)
  {
    ApplyOne(db, ws[0]);
  }

  /** Whatever the plan was read from, committing it now is the atomic operation now. */
  lemma PlanApplies(db: Db, op: Op, hook: bool, ws: seq<Write>)
    requires AllUnique(db.txns) && PlanStands(db, op, hook, ws) && Apply(db, ws).Some?
    ensures Exec(db, op, hook) == Done(Apply(db, ws).value)
  {
    if op.Settle? {
      SettleApplies(db, op, hook, ws);
    } else if op.Fail? {
      FailApplies(db, op, hook, ws);
    } else if IsInitiatorWrite(op) {
      InitiatorApplies(db, op, hook, ws);
    } else if op.MarkDrift? || op.Escalate? || op.Close? {
      RecordApplies(db, op, hook, ws);
    } else {
      InsertApplies(db, op, hook, ws);
    }
  }

  // ---- Other workers' commits leave a plan standing ----

  /** What a lookup may have relied on in a row. */
  predicate LookupStays(a: Txn, b: Txn)
  {
    && SameIdentity(a, b)
    && (a.checkout.Some? ==> b.checkout.Some?)
    && (a.status != Pending ==> b.status != Pending)
    && (a.status == Settled ==> b.status == Settled)
  }

  lemma RowLookupStays(s: State, w: nat, op: Op, hook: bool, id: TxnId)
    requires Inv(s) && w < |s.calls| && Enabled(s, w, op) && Exec(s.db, op, hook).Done?
    requires id in s.db.txns
    ensures id in Exec(s.db, op, hook).value.txns
    ensures LookupStays(s.db.txns[id], Exec(s.db, op, hook).value.txns[id])
  {
    ExecShape(s.db, op, hook);
    ExecMove(s.db, op, hook);
    assert CallOk(s.db, s.calls[w]);
  }

  /** A lookup that succeeded stays true: nothing that let a worker begin is ever undone. */
  lemma EnabledStays(s: State, l: Label, s': State, v: nat, op: Op)
    requires Inv(s) && Step(s, l, s')
    requires v < |s.calls| == |s'.calls| && s'.calls[v] == s.calls[v]
    requires Enabled(s, v, op)
    ensures Enabled(s', v, op)
  {
    if l.Commit? && op.id in s.db.txns {
      RowLookupStays(s, l.w, l.op, l.hook, op.id);
    }
  }

  /** Under exclusive locks, the row a transaction read is still the row when it commits. */
  lemma LockedRowStays(db: Db, other: Op, otherHook: bool, id: TxnId)
    requires id in db.txns && Exec(db, other, otherHook).Done?
    requires LockOf(other) != Some(RowLock(id))
    ensures id in Exec(db, other, otherHook).value.txns
    ensures Exec(db, other, otherHook).value.txns[id] == db.txns[id]
  {
  }

  /** The balance read under the tenant lock stays a lower bound until the holder is done. */
  lemma LockedBalanceGrows(s: State, w: nat, other: Op, otherHook: bool, tenant: TenantId)
    requires Inv(s) && w < |s.calls| && Enabled(s, w, other) && Exec(s.db, other, otherHook).Done?
    requires LockOf(other) != Some(TenantLock(tenant))
    ensures Balance(Exec(s.db, other, otherHook).value.ledger, tenant, TenantBalance)
         >= Balance(s.db.ledger, tenant, TenantBalance)
  {
    ExecShape(s.db, other, otherHook);
    assert other.id in s.db.txns ==> RowOk(s.db.txns[other.id]);
    BalanceConcat(s.db.ledger, Gain(s.db, other), tenant, TenantBalance);
    GainBalance(s.db, other, tenant);
  }

  /** A locked row's plan: nothing it was read from has changed. */
  lemma LockedPlanStays(db: Db, other: Op, otherHook: bool, op: Op, hook: bool, ws: seq<Write>)
    requires Exec(db, other, otherHook).Done? && PlanStands(db, op, hook, ws)
    requires LockOf(op) == Some(RowLock(op.id)) && LockOf(other) != LockOf(op)
    ensures PlanStands(Exec(db, other, otherHook).value, op, hook, ws)
  {
    LockedRowStays(db, other, otherHook, op.id);
  }

  /** A plan made without a lock rests on columns no commit changes, or on a record that stays. */
  lemma UnlockedPlanStays(db: Db, other: Op, otherHook: bool, op: Op, hook: bool, ws: seq<Write>)
    requires Exec(db, other, otherHook).Done? && PlanStands(db, op, hook, ws)
    requires LockOf(op).None?
    ensures PlanStands(Exec(db, other, otherHook).value, op, hook, ws)
  {
    ExecShape(db, other, otherHook);
  }

  lemma PlanStays(s: State, w: nat, other: Op, otherHook: bool, op: Op, hook: bool, ws: seq<Write>)
    requires Inv(s) && w < |s.calls| && Enabled(s, w, other) && Exec(s.db, other, otherHook).Done?
    requires LockOf(op).Some? ==> LockOf(other) != LockOf(op)
    requires PlanStands(s.db, op, hook, ws)
    ensures PlanStands(Exec(s.db, other, otherHook).value, op, hook, ws)
  {
    if op.Reserve? {
      ExecShape(s.db, other, otherHook);
      LockedBalanceGrows(s, w, other, otherHook, op.tenant);
    } else if LockOf(op).Some? {
      LockedPlanStays(s.db, other, otherHook, op, hook, ws);
    } else {
      UnlockedPlanStays(s.db, other, otherHook, op, hook, ws);
    }
  }

  // ---- Refinement ----

  /** The commit of a standing plan is the atomic step. */
  lemma CommitIsStep(s: Conc, w: nat, s': Conc)
    requires ConcInv(s) && Next(s, CommitTx(w), s')
    ensures Step(Abs(s), Commit(w, s.txs[w].op, s.txs[w].hook), Abs(s'))
  {
    var tx := s.txs[w];
    assert TxOk(s, w);
    assert tx.done + tx.todo == tx.done;
    PlanApplies(s.db, tx.op, tx.hook, tx.done);
  }

  lemma CommitSparesOthers(s: Conc, w: nat, s': Conc, v: nat)
    requires ConcInv(s) && Next(s, CommitTx(w), s')
    requires v < |s.txs| && v != w
    ensures TxOk(s', v)
  {
    var tx := s.txs[w];
    CommitIsStep(s, w, s');
    assert TxOk(s, v) && TxOk(s, w);
    if s.txs[v] != NoTx {
      EnabledStays(Abs(s), Commit(w, tx.op, tx.hook), Abs(s'), v, s.txs[v].op);
      if s.txs[v].Writing? {
        assert Held(s.txs[v]) == LockOf(s.txs[v].op) && Held(s.txs[w]) == LockOf(tx.op);
        PlanStays(Abs(s), w, tx.op, tx.hook, s.txs[v].op, s.txs[v].hook, s.txs[v].done + s.txs[v].todo);
      }
    }
  }

  lemma CommitFollowUp(s: Conc, w: nat, s': Conc)
    requires ConcInv(s) && Next(s, CommitTx(w), s')
    ensures TxOk(s', w)
  {
    CommitIsStep(s, w, s');
    ExecMove(s.db, s.txs[w].op, s.txs[w].hook);
  }

  lemma CommitRefines(s: Conc, w: nat, s': Conc)
    requires ConcInv(s) && Next(s, CommitTx(w), s')
    ensures Step(Abs(s), LabelOf(s, CommitTx(w)), Abs(s'))
    ensures ConcInv(s')
  {
    CommitIsStep(s, w, s');
    StepKeeps(Abs(s), Commit(w, s.txs[w].op, s.txs[w].hook), Abs(s'));
    CommitFollowUp(s, w, s');
    forall v | 0 <= v < |s'.txs| ensures TxOk(s', v) {
      if v != w {
        CommitSparesOthers(s, w, s', v);
      }
    }
  }

  predicate Local(m: Move)
  {
    m.Begin? || m.TakeLock? || m.Read? || m.Statement? || m.AbortTx? || m.Crash? || m.SendRequest?
  }

  lemma LocalIsStep(s: Conc, m: Move, s': Conc)
    requires ConcInv(s) && Local(m) && Next(s, m, s')
    ensures Step(Abs(s), LabelOf(s, m), Abs(s'))
    ensures s'.db == s.db && |s'.txs| == |s.txs| == |s'.calls| && m.w < |s.txs|
    ensures forall v | 0 <= v < |s.txs| && v != m.w :: s'.txs[v] == s.txs[v] && s'.calls[v] == s.calls[v]
  {
  }

  lemma TxStays(s: Conc, s': Conc, v: nat)
    requires v < |s.txs| == |s.calls| == |s'.txs| == |s'.calls|
    requires s'.db == s.db && s'.txs[v] == s.txs[v] && s'.calls[v] == s.calls[v]
    requires TxOk(s, v)
    ensures TxOk(s', v)
  {
  }

  lemma ReadOk(s: Conc, w: nat, s': Conc)
    requires ConcInv(s) && Next(s, Read(w), s')
    ensures TxOk(s', w)
  {
    assert TxOk(s, w);
    var ws := s'.txs[w].todo;
    assert [] + ws == ws;
  }

  lemma StatementOk(s: Conc, w: nat, s': Conc)
    requires ConcInv(s) && Next(s, Statement(w), s')
    ensures TxOk(s', w)
  {
    assert TxOk(s, w);
    var tx := s.txs[w];
    assert tx.done + [tx.todo[0]] + tx.todo[1..] == tx.done + tx.todo;
  }

  lemma AbortOk(s: Conc, w: nat, s': Conc)
    requires ConcInv(s) && Next(s, AbortTx(w), s')
    ensures TxOk(s', w)
  {
    assert TxOk(s, w);
  }

  lemma LocalOwn(s: Conc, m: Move, s': Conc)
    requires ConcInv(s) && Local(m) && Next(s, m, s')
    ensures m.w < |s'.txs| == |s'.calls| && TxOk(s', m.w)
  {
    match m
    case Read(w) => ReadOk(s, w, s');
    case Statement(w) => StatementOk(s, w, s');
    case AbortTx(w) => AbortOk(s, w, s');
    case TakeLock(w) => assert TxOk(s, w);
    case _ =>
  }

  /** Steps of one worker that commit nothing. */
  lemma LocalRefines(s: Conc, m: Move, s': Conc)
    requires ConcInv(s) && Local(m) && Next(s, m, s')
    ensures Step(Abs(s), LabelOf(s, m), Abs(s'))
    ensures ConcInv(s')
  {
    LocalIsStep(s, m, s');
    StepKeeps(Abs(s), LabelOf(s, m), Abs(s'));
    LocalOwn(s, m, s');
    forall v | 0 <= v < |s'.txs| ensures TxOk(s', v) {
      if v != m.w {
        TxStays(s, s', v);
      }
    }
  }

  lemma ReconfigureRefines(s: Conc, tenants: map<TenantId, bool>, s': Conc)
    requires ConcInv(s) && Next(s, Reconfigure(tenants), s')
    ensures Step(Abs(s), LabelOf(s, Reconfigure(tenants)), Abs(s'))
    ensures ConcInv(s')
  {
    StepKeeps(Abs(s), Config(tenants), Abs(s'));
    forall v | 0 <= v < |s'.txs| ensures TxOk(s', v) {
      assert TxOk(s, v);
      if s.txs[v].Writing? && s.txs[v].op.Reserve? {
        assert Held(s.txs[v]) == Some(TenantLock(s.txs[v].op.tenant));
      }
    }
  }

  /** Each interleaved step is one atomic step or a stutter, and keeps the invariant. */
  lemma StepRefines(s: Conc, m: Move, s': Conc)
    requires ConcInv(s) && Next(s, m, s')
    ensures Step(Abs(s), LabelOf(s, m), Abs(s'))
    ensures ConcInv(s')
  {
    if m.CommitTx? {
      CommitRefines(s, m.w, s');
    } else if m.Reconfigure? {
      ReconfigureRefines(s, m.tenants, s');
    } else {
      LocalRefines(s, m, s');
    }
  }

  // ---- What the locks are for ----

  /**
   Without the row lock a second settlement planned from the same read still could not
   credit twice: the reconciliation record's unique key stops it.
   */
  lemma StaleSettleCannotCommit(db: Db, op: Op, hook: bool, ws: seq<Write>)
    requires AllUnique(db.txns) && op.Settle? && Plan(db, op, hook) == Done(ws)
    requires db.txns[op.id].status == Processing && Apply(db, ws).Some?
    ensures Apply(Apply(db, ws).value, ws) == None
  {
    SettleApplies(db, op, hook, ws);
    ExecUnique(db, op, hook);
    SettleWritesApply(db, op, hook, db.txns[op.id]);
    SettleWritesApply(Apply(db, ws).value, op, hook, db.txns[op.id]);
  }

  /** A payout failure has no such key: without the row lock it would be released twice. */
  lemma StaleFailReleasesTwice(db: Db, op: Op, hook: bool, ws: seq<Write>)
    requires AllUnique(db.txns) && op.Fail? && Plan(db, op, hook) == Done(ws)
    requires db.txns[op.id].direction == Outbound
    ensures Apply(db, ws).Some? && Apply(Apply(db, ws).value, ws).Some?
    ensures var t := db.txns[op.id];
            Balance(Apply(Apply(db, ws).value, ws).value.ledger, t.tenant, TenantBalance)
            == Balance(db.ledger, t.tenant, TenantBalance) + 2 * t.amount
  {
    var t := db.txns[op.id];
    var es := ReleaseEntries(t.tenant, op.id, t.amount);
    FailWritesApply(db, op, hook, t);
    FailApplies(db, op, hook, ws);
    ExecUnique(db, op, hook);
    FailWritesApply(Apply(db, ws).value, op, hook, t);
    BalanceConcat(db.ledger, es, t.tenant, TenantBalance);
    BalanceConcat(db.ledger + es, es, t.tenant, TenantBalance);
    PairBalance(t.tenant, op.id, t.amount, PayoutReserved, TenantBalance, t.tenant, TenantBalance);
  }

  /** Discharging and releasing one reservation, in either order. */
  lemma BothOutcomes(ledger: seq<Entry>, tenant: TenantId, id: TxnId, amount: int, account: Account)
    ensures var paid, back := SettlementEntries(tenant, id, amount), ReleaseEntries(tenant, id, amount);
            && Balance(ledger + paid + back, tenant, account) == Balance(ledger + back + paid, tenant, account)
            && Balance(ledger + paid + back, tenant, account)
               == Balance(ledger, tenant, account)
                  + match account
                    case PayoutsPaid => amount
                    case TenantBalance => amount
                    case PayoutReserved => -2 * amount
                    case PendingSettlement => 0
  {
    var paid, back := SettlementEntries(tenant, id, amount), ReleaseEntries(tenant, id, amount);
    BalanceConcat(ledger + paid, back, tenant, account);
    BalanceConcat(ledger, paid, tenant, account);
    BalanceConcat(ledger + back, paid, tenant, account);
    BalanceConcat(ledger, back, tenant, account);
    PairBalance(tenant, id, amount, PayoutReserved, PayoutsPaid, tenant, account);
    PairBalance(tenant, id, amount, PayoutReserved, TenantBalance, tenant, account);
  }

  lemma StaleFailAfterSettle(db: Db, settle: Op, fail: Op, h: bool, k: bool, ws: seq<Write>, wf: seq<Write>)
    requires AllUnique(db.txns) && settle.Settle? && fail.Fail? && settle.id == fail.id
    requires Plan(db, settle, h) == Done(ws) && Plan(db, fail, k) == Done(wf)
    requires db.txns[fail.id].direction == Outbound && db.txns[fail.id].status == Processing
    requires Apply(db, ws).Some?
    ensures var t := db.txns[fail.id];
            && Apply(Apply(db, ws).value, wf).Some?
            && Apply(Apply(db, ws).value, wf).value.ledger
               == db.ledger + SettlementEntries(t.tenant, fail.id, t.amount)
                  + ReleaseEntries(t.tenant, fail.id, t.amount)
  {
    SettleApplies(db, settle, h, ws);
    ExecUnique(db, settle, h);
    SettleWritesApply(db, settle, h, db.txns[fail.id]);
    FailWritesApply(Apply(db, ws).value, fail, k, db.txns[fail.id]);
  }

  lemma StaleSettleAfterFail(db: Db, settle: Op, fail: Op, h: bool, k: bool, ws: seq<Write>, wf: seq<Write>)
    requires AllUnique(db.txns) && settle.Settle? && fail.Fail? && settle.id == fail.id
    requires Plan(db, settle, h) == Done(ws) && Plan(db, fail, k) == Done(wf)
    requires db.txns[fail.id].direction == Outbound && db.txns[fail.id].status == Processing
    requires settle.id !in db.records && ReceiptFree(db.txns, settle.id, settle.receipt)
    ensures var t := db.txns[fail.id];
            && Apply(db, wf).Some? && Apply(Apply(db, wf).value, ws).Some?
            && Apply(Apply(db, wf).value, ws).value.ledger
               == db.ledger + ReleaseEntries(t.tenant, fail.id, t.amount)
                  + SettlementEntries(t.tenant, fail.id, t.amount)
  {
    FailApplies(db, fail, k, wf);
    ExecUnique(db, fail, k);
    FailWritesApply(db, fail, k, db.txns[fail.id]);
    SettleWritesApply(Apply(db, wf).value, settle, h, db.txns[fail.id]);
  }

  /**
   Nor is there one between the two outcomes: a settlement and a failure that both read
   the payout PROCESSING would, without the row lock, both commit, in either order. The
   amount is then paid out and spendable again, and was taken from the reserve twice.
   */
  lemma StaleOutcomesBothCommit(
    db: Db, settle: Op, fail: Op, h: bool, k: bool, ws: seq<Write>, wf: seq<Write>, account: Account)
    requires AllUnique(db.txns) && settle.Settle? && fail.Fail? && settle.id == fail.id
    requires Plan(db, settle, h) == Done(ws) && Plan(db, fail, k) == Done(wf)
    requires db.txns[fail.id].direction == Outbound && db.txns[fail.id].status == Processing
    requires settle.id !in db.records && ReceiptFree(db.txns, settle.id, settle.receipt)
    ensures Apply(db, ws).Some? && Apply(Apply(db, ws).value, wf).Some?
    ensures Apply(db, wf).Some? && Apply(Apply(db, wf).value, ws).Some?
    ensures var t := db.txns[fail.id];
            var one, other := Apply(Apply(db, ws).value, wf).value, Apply(Apply(db, wf).value, ws).value;
            && Balance(one.ledger, t.tenant, account) == Balance(other.ledger, t.tenant, account)
            && Balance(one.ledger, t.tenant, account)
               == Balance(db.ledger, t.tenant, account)
                  + match account
                    case PayoutsPaid => t.amount
                    case TenantBalance => t.amount
                    case PayoutReserved => -2 * t.amount
                    case PendingSettlement => 0
  {
    var t := db.txns[fail.id];
    SettleWritesApply(db, settle, h, t);
    FailWritesApply(db, fail, k, t);
    StaleFailAfterSettle(db, settle, fail, h, k, ws, wf);
    StaleSettleAfterFail(db, settle, fail, h, k, ws, wf);
    BothOutcomes(db.ledger, t.tenant, fail.id, t.amount, account);
  }

  /**
   Two reservations that both read the balance before either commits: without the tenant
   lock both go through, and the tenant is overdrawn iff together they exceed the balance.
   */
  lemma StaleReservesOverdraw(db: Db, a: Op, b: Op, wa: seq<Write>, wb: seq<Write>)
    requires a.Reserve? && b.Reserve? && a.tenant == b.tenant && a.id != b.id
    requires Plan(db, a, false) == Done(wa) && Plan(db, b, false) == Done(wb)
    requires a.id !in db.txns && b.id !in db.txns
    requires UniqueAt(db.txns, a.id, PayoutRow(a)) && UniqueAt(db.txns, b.id, PayoutRow(b))
    requires !Clash(PayoutRow(a), PayoutRow(b))
    ensures Apply(db, wa).Some? && Apply(Apply(db, wa).value, wb).Some?
    ensures Balance(Apply(Apply(db, wa).value, wb).value.ledger, a.tenant, TenantBalance) < 0
            <==> a.amount + b.amount > Balance(db.ledger, a.tenant, TenantBalance)
  {
    var ea := Append(ReservationEntries(a.tenant, a.id, a.amount));
    var eb := Append(ReservationEntries(b.tenant, b.id, b.amount));
    ApplyCons(db, InsertTxn(a.id, PayoutRow(a)), [ea]);
    ApplyOne(db.(txns := db.txns[a.id := PayoutRow(a)]), ea);
    var db1 := Apply(db, wa).value;
    ApplyCons(db1, InsertTxn(b.id, PayoutRow(b)), [eb]);
    ApplyOne(db1.(txns := db1.txns[b.id := PayoutRow(b)]), eb);
    BalanceConcat(db.ledger, ea.entries, a.tenant, TenantBalance);
    BalanceConcat(db1.ledger, eb.entries, a.tenant, TenantBalance);
    PairBalance(a.tenant, a.id, a.amount, TenantBalance, PayoutReserved, a.tenant, TenantBalance);
    PairBalance(b.tenant, b.id, b.amount, TenantBalance, PayoutReserved, a.tenant, TenantBalance);
  }
}
