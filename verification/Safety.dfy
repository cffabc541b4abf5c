/**
 Safety over whole runs of the atomic bank. `Inv` holds in every reachable state with no
 assumption on the order of callbacks; `PayoutInv` extends it to payouts and needs E1.
 */
module Safety {
  import opened Ledger
  import opened Store
  import opened Bank
  import opened Books
  import opened Protocol

  // ---- The invariants ----

  predicate RowOk(t: Txn)
  {
    && t.amount > 0
    && t.status != Reversed
    && (t.receipt.Some? ==> t.status == Settled)
    && (t.checkout.Some? ==> t.direction == Inbound && t.status != Pending)
    && (t.direction == Outbound ==> t.originator.Some?)
  }

  ghost predicate RowsInv(txns: map<TxnId, Txn>)
  {
    AllUnique(txns) && forall id | id in txns :: RowOk(txns[id])
  }

  /** A row that still has its initiator is untouched, or (payouts only) was failed behind its back. */
  predicate CallOk(db: Db, c: Call)
  {
    c.Call? ==>
      && c.id in db.txns
      && c.payout == (db.txns[c.id].direction == Outbound)
      && (db.txns[c.id].status == Pending || (c.payout && db.txns[c.id].status == Failed))
  }

  ghost predicate CallsInv(s: State)
  {
    && (forall w | 0 <= w < |s.calls| :: CallOk(s.db, s.calls[w]))
    && (forall v, w | 0 <= v < w < |s.calls| :: s.calls[v].Call? && s.calls[w].Call? ==> s.calls[v].id != s.calls[w].id)
  }

  /** A reconciliation record carries the row's amount, and confirms it iff the row is settled. */
  predicate RecordOk(db: Db, id: TxnId)
  {
    && (id in db.records ==>
          && id in db.txns
          && db.records[id].expected == db.txns[id].amount
          && db.records[id].confirmed in {None, Some(db.txns[id].amount)})
    && (id in db.txns ==>
          (db.txns[id].status == Settled <==> id in db.records && db.records[id].confirmed.Some?))
  }

  ghost predicate RecordsInv(db: Db)
  {
    forall id | id in db.txns || id in db.records :: RecordOk(db, id)
  }

  ghost predicate Solvent(db: Db)
  {
    forall tenant: TenantId :: Balance(db.ledger, tenant, TenantBalance) >= 0
  }

  /** Every Daraja request asked for exactly the row's amount, and no row was requested twice. */
  ghost predicate SendsInv(s: State)
  {
    && (forall i | 0 <= i < |s.sent| ::
          s.sent[i].id in s.db.txns && s.sent[i].shillings * 100 == s.db.txns[s.sent[i].id].amount)
    && (forall i, j | 0 <= i < j < |s.sent| :: s.sent[i].id != s.sent[j].id)
    && (forall w, i | 0 <= w < |s.calls| && 0 <= i < |s.sent| ::
          s.calls[w].Call? && !s.calls[w].sent ==> s.sent[i].id != s.calls[w].id)
  }

  /** The entries of every row in direction `d` are exactly its journal. */
  ghost predicate Journaled(db: Db, d: Direction)
  {
    forall id | id in db.txns && db.txns[id].direction == d :: Of(db.ledger, id) == Journal(id, db.txns[id])
  }

  predicate NoticeOk(db: Db, n: Notice)
  {
    && n.txn in db.txns
    && n.status == db.txns[n.txn].status
    && n.status in {Settled, Failed}
    && n.amount == db.txns[n.txn].amount
    && n.direction == db.txns[n.txn].direction
    && (Truthy(n.receipt) ==> n.status == Settled && n.receipt == db.txns[n.txn].receipt)
  }

  /** Rows in direction `d` have at most one delivery, and it reports the row's final status. */
  ghost predicate Notified(db: Db, d: Direction)
  {
    && (forall i | 0 <= i < |db.outbox| && db.outbox[i].direction == d :: NoticeOk(db, db.outbox[i]))
    && (forall i, j | 0 <= i < j < |db.outbox| && db.outbox[i].direction == d :: db.outbox[i].txn != db.outbox[j].txn)
  }

  ghost predicate Anchored(db: Db)
  {
    && (forall e | e in db.ledger :: e.txn in db.txns)
    && (forall i | 0 <= i < |db.outbox| ::
          db.outbox[i].txn in db.txns && db.outbox[i].direction == db.txns[db.outbox[i].txn].direction)
  }

  /** Holds in every reachable state, whatever order callbacks arrive in. */
  ghost predicate Inv(s: State)
  {
    && RowsInv(s.db.txns)
    && CallsInv(s)
    && RecordsInv(s.db)
    && Solvent(s.db)
    && SendsInv(s)
    && Anchored(s.db)
    && Journaled(s.db, Inbound)
    && Notified(s.db, Inbound)
  }

  ghost predicate LiveIsPending(s: State)
  {
    forall w | 0 <= w < |s.calls| && s.calls[w].Call? && s.calls[w].id in s.db.txns ::
      s.db.txns[s.calls[w].id].status == Pending
  }

  /** Holds in every state reachable under E1. */
  ghost predicate PayoutInv(s: State)
  {
    LiveIsPending(s) && Journaled(s.db, Outbound) && Notified(s.db, Outbound)
  }

  ghost predicate Init(s: State)
  {
    && s.db.txns == map[] && s.db.ledger == [] && s.db.records == map[] && s.db.outbox == []
    && s.sent == []
    && forall w | 0 <= w < |s.calls| :: s.calls[w] == NoCall
  }

  lemma InitInv(s: State)
    requires Init(s)
    ensures Inv(s) && PayoutInv(s)
  {
  }

  // ---- What a commit does to its own row ----

  predicate RowMove(db: Db, op: Op, t': Txn)
  {
    match op
    case Reserve(id, _, _, _, _) => id !in db.txns && t' == PayoutRow(op)
    case StkCreate(id, _, _) => id !in db.txns && t' == CollectionRow(op)
    case C2bRecord(id, _, _, _, _) => id !in db.txns && t' == C2bRow(op)
    case Accept(id) => id in db.txns && t' == db.txns[id].(status := Processing)
    case Release(id) => id in db.txns && t' == db.txns[id].(status := Failed)
    case StkAccept(id, checkout) =>
      id in db.txns && t' == db.txns[id].(status := Processing, checkout := Some(checkout))
    case StkFail(id) => id in db.txns && t' == db.txns[id].(status := Failed)
    case Settle(id, d, receipt, _) =>
      && id in db.txns && db.txns[id].direction == d
      && db.txns[id].status in {Processing, Settled}
      && (t' == db.txns[id].(status := Settled, receipt := Coalesce(receipt, db.txns[id].receipt))
          || (t' == db.txns[id] && t'.status == Settled))
    case Fail(id, d, _) =>
      && id in db.txns && db.txns[id].direction == d
      && db.txns[id].status in {Pending, Processing}
      && t' == db.txns[id].(status := Failed)
    case _ => op.id in db.txns && t' == db.txns[op.id]
  }

  lemma ExecMove(db: Db, op: Op, hook: bool)
    requires Exec(db, op, hook).Done?
    ensures op.id in Exec(db, op, hook).value.txns
    ensures RowMove(db, op, Exec(db, op, hook).value.txns[op.id])
  {
  }

  lemma InsertUnique(db: Db, op: Op, hook: bool)
    requires op.Reserve? || op.StkCreate? || op.C2bRecord?
    requires AllUnique(db.txns) && Exec(db, op, hook).Done?
    ensures AllUnique(Exec(db, op, hook).value.txns)
  {
  }

  lemma UpdateUnique(db: Db, op: Op, hook: bool)
    requires !op.Reserve? && !op.StkCreate? && !op.C2bRecord?
    requires AllUnique(db.txns) && Exec(db, op, hook).Done?
    ensures AllUnique(Exec(db, op, hook).value.txns)
  {
    ExecMove(db, op, hook);
    ExecShape(db, op, hook);
    var t' := Exec(db, op, hook).value.txns[op.id];
    forall j | j in db.txns && j != op.id ensures !Clash(db.txns[j], t') && !Clash(t', db.txns[j]) {
      assert !Clash(db.txns[j], db.txns[op.id]);
    }
  }

  lemma ExecUnique(db: Db, op: Op, hook: bool)
    requires AllUnique(db.txns) && Exec(db, op, hook).Done?
    ensures AllUnique(Exec(db, op, hook).value.txns)
  {
    if op.Reserve? || op.StkCreate? || op.C2bRecord? {
      InsertUnique(db, op, hook);
    } else {
      UpdateUnique(db, op, hook);
    }
  }

  /** A settled row's receipt is only ever filled in, never replaced. */
  lemma SettleKeepsReceipt(db: Db, op: Op, hook: bool)
    requires op.Settle? && Exec(db, op, hook).Done? && op.id in db.txns
    requires RowOk(db.txns[op.id])
    ensures op.id in Exec(db, op, hook).value.txns
    ensures Truthy(db.txns[op.id].receipt) ==> Exec(db, op, hook).value.txns[op.id].receipt == db.txns[op.id].receipt
  {
  }

  // ---- Preservation, one invariant at a time ----

  lemma RowKeeps(s: State, w: nat, op: Op, t': Txn)
    requires Inv(s) && w < |s.calls| && Enabled(s, w, op) && RowMove(s.db, op, t')
    requires op.Reserve? ==> op.amount > 0
    ensures RowOk(t')
  {
    assert CallOk(s.db, s.calls[w]);
    if op.id in s.db.txns {
      assert RowOk(s.db.txns[op.id]);
    }
  }

  lemma RowsKeep(s: State, w: nat, op: Op, hook: bool)
    requires Inv(s) && w < |s.calls| && Enabled(s, w, op) && Exec(s.db, op, hook).Done?
    ensures RowsInv(Exec(s.db, op, hook).value.txns)
  {
    ExecShape(s.db, op, hook);
    ExecMove(s.db, op, hook);
    ExecUnique(s.db, op, hook);
    RowKeeps(s, w, op, Exec(s.db, op, hook).value.txns[op.id]);
  }

  /** A commit by another worker leaves a call's row as its initiator may find it. */
  lemma CallStays(s: State, w: nat, op: Op, hook: bool, c: Call)
    requires Inv(s) && w < |s.calls| && Enabled(s, w, op) && Exec(s.db, op, hook).Done?
    requires CallOk(s.db, c) && (c.Call? && c.id == op.id ==> CallAfter(op, s.calls[w]) == s.calls[w])
    ensures CallOk(Exec(s.db, op, hook).value, c)
  {
    ExecShape(s.db, op, hook);
    ExecMove(s.db, op, hook);
    if op.id in s.db.txns {
      assert RowOk(s.db.txns[op.id]);
    }
  }

  lemma OwnCallOk(s: State, w: nat, op: Op, hook: bool)
    requires Inv(s) && w < |s.calls| && Enabled(s, w, op) && Exec(s.db, op, hook).Done?
    ensures CallOk(Exec(s.db, op, hook).value, CallAfter(op, s.calls[w]))
    ensures CallAfter(op, s.calls[w]).Call? ==>
              CallAfter(op, s.calls[w]) == s.calls[w] || CallAfter(op, s.calls[w]).id !in s.db.txns
  {
    ExecMove(s.db, op, hook);
    assert CallOk(s.db, s.calls[w]);
    if CallAfter(op, s.calls[w]) == s.calls[w] {
      CallStays(s, w, op, hook, s.calls[w]);
    }
  }

  lemma CallsKeep(s: State, w: nat, op: Op, hook: bool, s': State)
    requires Inv(s) && w < |s.calls| && Step(s, Commit(w, op, hook), s')
    ensures CallsInv(s')
  {
    OwnCallOk(s, w, op, hook);
    ExecMove(s.db, op, hook);
    assert CallOk(s.db, s.calls[w]);
    forall v | 0 <= v < |s'.calls| ensures CallOk(s'.db, s'.calls[v]) {
      assert CallOk(s.db, s.calls[v]);
      if v != w {
        CallStays(s, w, op, hook, s.calls[v]);
      }
    }
    forall u, v | 0 <= u < v < |s'.calls| && s'.calls[u].Call? && s'.calls[v].Call?
      ensures s'.calls[u].id != s'.calls[v].id
    {
      assert CallOk(s.db, s.calls[u]) && CallOk(s.db, s.calls[v]);
    }
  }

  /** How a commit moves the record of its own row. */
  predicate RecordMove(db: Db, op: Op, db': Db)
  {
    if op.C2bRecord? || (op.Settle? && op.id in db.txns && db.txns[op.id].status != Settled) then
      op.id in db'.txns && db'.records == db.records[op.id := Confirmed(db'.txns[op.id].amount)]
    else if (op.MarkDrift? || op.Escalate? || op.Close?) && op.id in db.txns && op.id in db'.records then
      && db'.records == db.records[op.id := db'.records[op.id]]
      && db'.records[op.id].expected
         == (if op.id in db.records then db.records[op.id].expected else db.txns[op.id].amount)
      && db'.records[op.id].confirmed
         == (if op.id !in db.records then None
             else if op.Close? && op.settled then Some(db.txns[op.id].amount)
             else db.records[op.id].confirmed)
    else db'.records == db.records
  }

  lemma ExecRecordMove(db: Db, op: Op, hook: bool)
    requires Exec(db, op, hook).Done?
    ensures RecordMove(db, op, Exec(db, op, hook).value)
  {
  }

  lemma OwnRecordKeeps(s: State, w: nat, op: Op, hook: bool)
    requires Inv(s) && w < |s.calls| && Enabled(s, w, op) && Exec(s.db, op, hook).Done?
    ensures RecordOk(Exec(s.db, op, hook).value, op.id)
  {
    ExecRecordMove(s.db, op, hook);
    ExecMove(s.db, op, hook);
    assert CallOk(s.db, s.calls[w]);
    assert op.id in s.db.txns || op.id in s.db.records ==> RecordOk(s.db, op.id);
  }

  lemma RecordsKeep(s: State, w: nat, op: Op, hook: bool)
    requires Inv(s) && w < |s.calls| && Enabled(s, w, op) && Exec(s.db, op, hook).Done?
    ensures RecordsInv(Exec(s.db, op, hook).value)
  {
    ExecShape(s.db, op, hook);
    OwnRecordKeeps(s, w, op, hook);
    var db' := Exec(s.db, op, hook).value;
    forall id | (id in db'.txns || id in db'.records) && id != op.id ensures RecordOk(db', id) {
      assert RecordOk(s.db, id);
    }
  }

  /** Only a reservation lowers a spendable balance, and by its own amount. */
  lemma GainBalance(db: Db, op: Op, tenant: TenantId)
    requires op.id in db.txns ==> db.txns[op.id].amount >= 0
    requires op.C2bRecord? ==> op.amount >= 0
    ensures op.Reserve? && tenant == op.tenant ==> Balance(Gain(db, op), tenant, TenantBalance) == -op.amount
    ensures !(op.Reserve? && tenant == op.tenant) ==> Balance(Gain(db, op), tenant, TenantBalance) >= 0
  {
    match op
    case Reserve(id, t, amount, _, _) =>
      PairBalance(t, id, amount, TenantBalance, PayoutReserved, tenant, TenantBalance);
    case C2bRecord(id, t, _, amount, _) => CollectionBalance(t, id, amount, tenant, TenantBalance);
    case _ =>
      if op.id in db.txns {
        var t := db.txns[op.id];
        CollectionBalance(t.tenant, op.id, t.amount, tenant, TenantBalance);
        PairBalance(t.tenant, op.id, t.amount, PayoutReserved, PayoutsPaid, tenant, TenantBalance);
        PairBalance(t.tenant, op.id, t.amount, PayoutReserved, TenantBalance, tenant, TenantBalance);
      }
  }

  lemma SolventKeeps(s: State, w: nat, op: Op, hook: bool)
    requires Inv(s) && w < |s.calls| && Enabled(s, w, op) && Exec(s.db, op, hook).Done?
    ensures Solvent(Exec(s.db, op, hook).value)
  {
    ExecShape(s.db, op, hook);
    assert op.id in s.db.txns ==> RowOk(s.db.txns[op.id]);
    forall tenant: TenantId ensures Balance(Exec(s.db, op, hook).value.ledger, tenant, TenantBalance) >= 0 {
      BalanceConcat(s.db.ledger, Gain(s.db, op), tenant, TenantBalance);
      GainBalance(s.db, op, tenant);
    }
  }

  lemma SendsKeep(s: State, w: nat, op: Op, hook: bool, s': State)
    requires Inv(s) && w < |s.calls| && Step(s, Commit(w, op, hook), s')
    ensures SendsInv(s')
  {
    ExecShape(s.db, op, hook);
    ExecMove(s.db, op, hook);
  }

  lemma GainOwner(db: Db, op: Op)
    ensures forall e | e in Gain(db, op) :: e.txn == op.id
  {
  }

  lemma AnchorKeeps(s: State, w: nat, op: Op, hook: bool)
    requires Inv(s) && w < |s.calls| && Enabled(s, w, op) && Exec(s.db, op, hook).Done?
    ensures Anchored(Exec(s.db, op, hook).value)
  {
    ExecShape(s.db, op, hook);
    ExecMove(s.db, op, hook);
    GainOwner(s.db, op);
  }

  /** The journal of the row an operation moves grows by exactly what it appends. */
  lemma JournalGain(s: State, w: nat, op: Op, t': Txn)
    requires Inv(s) && w < |s.calls| && Enabled(s, w, op) && RowMove(s.db, op, t')
    requires op.Accept? || op.Release? ==> op.id in s.db.txns && s.db.txns[op.id].status == Pending
    ensures Journal(op.id, t') == (if op.id in s.db.txns then Journal(op.id, s.db.txns[op.id]) else []) + Gain(s.db, op)
  {
    assert CallOk(s.db, s.calls[w]);
    if op.id in s.db.txns {
      var t := s.db.txns[op.id];
      assert RowOk(t);
      assert Journal(op.id, t) + [] == Journal(op.id, t);
      assert ReservationEntries(t.tenant, op.id, t.amount) + [] == ReservationEntries(t.tenant, op.id, t.amount);
    }
  }

  /** Commits whose own row is journaled keep every row of direction `d` journaled. */
  lemma JournaledKeeps(s: State, w: nat, op: Op, hook: bool, d: Direction)
    requires Inv(s) && w < |s.calls| && Enabled(s, w, op) && Exec(s.db, op, hook).Done?
    requires Journaled(s.db, d)
    requires d == Outbound ==> LiveIsPending(s)
    ensures Journaled(Exec(s.db, op, hook).value, d)
  {
    ExecShape(s.db, op, hook);
    ExecMove(s.db, op, hook);
    GainOwner(s.db, op);
    var db' := Exec(s.db, op, hook).value;
    assert CallOk(s.db, s.calls[w]);
    forall id | id in db'.txns && db'.txns[id].direction == d
      ensures Of(db'.ledger, id) == Journal(id, db'.txns[id])
    {
      OfConcat(s.db.ledger, Gain(s.db, op), id);
      OfUniform(Gain(s.db, op), op.id, id);
      if id !in s.db.txns {
        OfAbsent(s.db.ledger, id);
      }
      if id == op.id {
        JournalGain(s, w, op, db'.txns[id]);
      }
    }
  }

  /** A row with a notice is final, so no commit changes what its notice says. */
  lemma NoticeStays(s: State, w: nat, op: Op, hook: bool, n: Notice)
    requires Inv(s) && w < |s.calls| && Enabled(s, w, op) && Exec(s.db, op, hook).Done?
    requires NoticeOk(s.db, n)
    requires n.direction == Outbound ==> LiveIsPending(s)
    ensures NoticeOk(Exec(s.db, op, hook).value, n)
    ensures Told(s.db, op, hook) != [] ==> n.txn != op.id
  {
    ExecShape(s.db, op, hook);
    ExecMove(s.db, op, hook);
    assert CallOk(s.db, s.calls[w]);
    if op.Settle? {
      SettleKeepsReceipt(s.db, op, hook);
    }
  }

  lemma ToldOk(s: State, w: nat, op: Op, hook: bool)
    requires Inv(s) && w < |s.calls| && Enabled(s, w, op) && Exec(s.db, op, hook).Done?
    ensures |Told(s.db, op, hook)| <= 1
    ensures forall n | n in Told(s.db, op, hook) :: n.txn == op.id && NoticeOk(Exec(s.db, op, hook).value, n)
  {
    ExecMove(s.db, op, hook);
    assert op.id in s.db.txns ==> RowOk(s.db.txns[op.id]);
  }

  lemma NotifiedKeeps(s: State, w: nat, op: Op, hook: bool, d: Direction)
    requires Inv(s) && w < |s.calls| && Enabled(s, w, op) && Exec(s.db, op, hook).Done?
    requires Notified(s.db, d)
    requires d == Outbound ==> LiveIsPending(s)
    ensures Notified(Exec(s.db, op, hook).value, d)
  {
    ExecShape(s.db, op, hook);
    ToldOk(s, w, op, hook);
    var db' := Exec(s.db, op, hook).value;
    forall i | 0 <= i < |db'.outbox| && db'.outbox[i].direction == d
      ensures NoticeOk(db', db'.outbox[i])
      ensures forall j | i < j < |db'.outbox| :: db'.outbox[i].txn != db'.outbox[j].txn
    {
      if i < |s.db.outbox| {
        assert db'.outbox[i] == s.db.outbox[i];
        NoticeStays(s, w, op, hook, s.db.outbox[i]);
      } else {
        assert db'.outbox[i] in Told(s.db, op, hook);
      }
    }
  }

  lemma CommitKeeps(s: State, w: nat, op: Op, hook: bool, s': State)
    requires Inv(s) && Step(s, Commit(w, op, hook), s')
    ensures Inv(s')
  {
    RowsKeep(s, w, op, hook);
    CallsKeep(s, w, op, hook, s');
    RecordsKeep(s, w, op, hook);
    SolventKeeps(s, w, op, hook);
    SendsKeep(s, w, op, hook, s');
    AnchorKeeps(s, w, op, hook);
    JournaledKeeps(s, w, op, hook, Inbound);
    NotifiedKeeps(s, w, op, hook, Inbound);
  }

  lemma StepKeeps(s: State, l: Label, s': State)
    requires Inv(s) && Step(s, l, s')
    ensures Inv(s')
  {
    if l.Commit? {
      CommitKeeps(s, l.w, l.op, l.hook, s');
    } else if l.Send? {
      SendKeeps(s, l.w, s');
    }
  }

  lemma SendKeeps(s: State, w: nat, s': State)
    requires Inv(s) && Step(s, Send(w), s')
    ensures Inv(s')
  {
    forall v | 0 <= v < |s'.calls| ensures CallOk(s'.db, s'.calls[v]) {
      assert CallOk(s.db, s.calls[v]);
    }
    SendsKeepOnSend(s, w, s');
  }

  lemma SendsKeepOnSend(s: State, w: nat, s': State)
    requires Inv(s) && Step(s, Send(w), s')
    ensures SendsInv(s')
  {
  }

  lemma LivePendingKeeps(s: State, l: Label, s': State)
    requires Inv(s) && PayoutInv(s) && Step(s, l, s') && E1(s, l)
    ensures LiveIsPending(s')
  {
    if l.Commit? {
      ExecShape(s.db, l.op, l.hook);
      ExecMove(s.db, l.op, l.hook);
      CallsKeep(s, l.w, l.op, l.hook, s');
      forall v | 0 <= v < |s'.calls| && s'.calls[v].Call?
        ensures s'.calls[v].id in s'.db.txns && s'.db.txns[s'.calls[v].id].status == Pending
      {
        assert CallOk(s.db, s.calls[v]);
        assert CallOk(s.db, s.calls[l.w]);
        if l.op.id in s.db.txns {
          assert RowOk(s.db.txns[l.op.id]);
        }
      }
    }
  }

  lemma PayoutStepKeeps(s: State, l: Label, s': State)
    requires Inv(s) && PayoutInv(s) && Step(s, l, s') && E1(s, l)
    ensures PayoutInv(s')
  {
    LivePendingKeeps(s, l, s');
    if l.Commit? {
      JournaledKeeps(s, l.w, l.op, l.hook, Outbound);
      NotifiedKeeps(s, l.w, l.op, l.hook, Outbound);
    }
  }
}
