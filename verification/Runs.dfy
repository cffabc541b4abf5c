/**
 Whole runs of the interleaved system, from empty tables, for any number of workers:
 what every reachable committed state satisfies, and what never changes again.
 */
module Runs {
  import opened Ledger
  import opened Store
  import opened Bank
  import opened Books
  import opened Protocol
  import opened Safety
  import opened Interleaving
  import opened Settlement

  ghost predicate BankRun(ss: seq<State>, ls: seq<Label>)
  {
    && |ss| == |ls| + 1
    && Init(ss[0])
    && forall i | 0 <= i < |ls| :: Step(ss[i], ls[i], ss[i + 1])
  }

  ghost predicate NextAt(ss: seq<Conc>, ms: seq<Move>, i: nat)
    requires i < |ms| < |ss|
  {
    Next(ss[i], ms[i], ss[i + 1])
  }

  ghost predicate ConcRun(ss: seq<Conc>, ms: seq<Move>)
  {
    && |ss| == |ms| + 1
    && ConcInit(ss[0])
    && forall i: nat | i < |ms| :: NextAt(ss, ms, i)
  }

  function AbsAll(ss: seq<Conc>): (r: seq<State>)
    ensures |r| == |ss| && forall i | 0 <= i < |ss| :: r[i] == Abs(ss[i])
  {
    seq(|ss|, i requires 0 <= i < |ss| => Abs(ss[i]))
  }

  function LabelAll(ss: seq<Conc>, ms: seq<Move>): (r: seq<Label>)
    requires |ss| == |ms| + 1
    ensures |r| == |ms| && forall i | 0 <= i < |ms| :: r[i] == LabelOf(ss[i], ms[i])
  {
    seq(|ms|, i requires 0 <= i < |ms| => LabelOf(ss[i], ms[i]))
  }

  lemma {:induction false} ConcRunInv(ss: seq<Conc>, ms: seq<Move>, i: nat)
    requires ConcRun(ss, ms) && i < |ss|
    ensures ConcInv(ss[i])
  {
    if i == 0 {
      InitInv(Abs(ss[0]));
    } else {
      ConcRunInv(ss, ms, i - 1);
      assert NextAt(ss, ms, i - 1);
      StepRefines(ss[i - 1], ms[i - 1], ss[i]);
    }
  }

  /**
   Refinement. Any interleaving of any number of workers, seen through its committed
   tables, is a run of the atomic bank: one atomic step at each commit, a stutter at
   every lock, read, buffered statement and abort.
   */
  lemma RunRefines(ss: seq<Conc>, ms: seq<Move>)
    requires ConcRun(ss, ms)
    ensures BankRun(AbsAll(ss), LabelAll(ss, ms))
  {
    forall i | 0 <= i < |ms| ensures Step(Abs(ss[i]), LabelOf(ss[i], ms[i]), Abs(ss[i + 1])) {
      ConcRunInv(ss, ms, i);
      assert NextAt(ss, ms, i);
      StepRefines(ss[i], ms[i], ss[i + 1]);
    }
  }

  // ---- E1 at the level of interleaved steps ----

  predicate PayoutFailureByCallback(op: Op)
  {
    op.Fail? && op.direction == Outbound && op.source == Callback
  }

  /** When a failure callback reads a payout under its lock, the payout's initiator is done. */
  predicate E1Move(s: Conc, m: Move)
  {
    m.Read? && m.w < |s.txs| && s.txs[m.w] != NoTx && PayoutFailureByCallback(s.txs[m.w].op) ==>
      !Live(Abs(s), s.txs[m.w].op.id)
  }

  ghost predicate E1Inv(s: Conc)
  {
    forall w | 0 <= w < |s.txs| && s.txs[w].Writing? && PayoutFailureByCallback(s.txs[w].op) ::
      !Live(Abs(s), s.txs[w].op.id)
  }

  /** The only call a step may start is that of the row its commit inserts. */
  lemma CallsAfter(s: Conc, m: Move, s': Conc, v: nat)
    requires ConcInv(s) && Next(s, m, s')
    requires v < |s'.calls| && s'.calls[v].Call?
    ensures |s'.calls| == |s.calls|
    ensures s'.calls[v].id !in s.db.txns || (s.calls[v].Call? && s.calls[v].id == s'.calls[v].id)
  {
    if m.CommitTx? {
      CommittedCall(s, m.w, s');
    }
  }

  lemma CommittedCall(s: Conc, w: nat, s': Conc)
    requires ConcInv(s) && Next(s, CommitTx(w), s')
    ensures var op := s.txs[w].op;
            op.Reserve? || op.StkCreate? ==> op.id !in s.db.txns
  {
    CommitIsStep(s, w, s');
    ExecMove(s.db, s.txs[w].op, s.txs[w].hook);
  }

  /** No step makes a row that exists live again. */
  lemma DeadCallsStay(s: Conc, m: Move, s': Conc, id: TxnId)
    requires ConcInv(s) && Next(s, m, s')
    requires id in s.db.txns && !Live(Abs(s), id)
    ensures !Live(Abs(s'), id)
  {
    forall v | 0 <= v < |s'.calls| && s'.calls[v].Call? ensures s'.calls[v].id != id {
      CallsAfter(s, m, s', v);
      assert s.calls[v].Call? ==> Abs(s).calls[v].id != id;
    }
  }

  lemma E1Keeps(s: Conc, m: Move, s': Conc)
    requires ConcInv(s) && Next(s, m, s') && E1Move(s, m) && E1Inv(s)
    ensures E1Inv(s')
  {
    forall w | 0 <= w < |s'.txs| && s'.txs[w].Writing? && PayoutFailureByCallback(s'.txs[w].op)
      ensures !Live(Abs(s'), s'.txs[w].op.id)
    {
      assert TxOk(s, w);
      DeadCallsStay(s, m, s', s'.txs[w].op.id);
    }
  }

  lemma E1Label(s: Conc, m: Move, s': Conc)
    requires Next(s, m, s') && E1Inv(s)
    ensures E1(Abs(s), LabelOf(s, m))
  {
  }

  ghost predicate ConcRunE1(ss: seq<Conc>, ms: seq<Move>)
  {
    ConcRun(ss, ms) && forall i | 0 <= i < |ms| :: E1Move(ss[i], ms[i])
  }

  /** One step under E1. */
  lemma PayoutsStepKeep(s: Conc, m: Move, s': Conc)
    requires ConcInv(s) && Next(s, m, s') && E1Move(s, m)
    requires PayoutInv(Abs(s)) && E1Inv(s)
    ensures PayoutInv(Abs(s')) && E1Inv(s')
  {
    StepRefines(s, m, s');
    E1Keeps(s, m, s');
    E1Label(s, m, s');
    PayoutStepKeeps(Abs(s), LabelOf(s, m), Abs(s'));
  }

  lemma {:induction false} ConcRunPayouts(ss: seq<Conc>, ms: seq<Move>, i: nat)
    requires ConcRunE1(ss, ms) && i < |ss|
    ensures Inv(Abs(ss[i])) && PayoutInv(Abs(ss[i])) && E1Inv(ss[i])
  {
    ConcRunInv(ss, ms, i);
    if i == 0 {
      InitInv(Abs(ss[0]));
    } else {
      ConcRunPayouts(ss, ms, i - 1);
      ConcRunInv(ss, ms, i - 1);
      assert NextAt(ss, ms, i - 1);
      PayoutsStepKeep(ss[i - 1], ms[i - 1], ss[i]);
    }
  }

  /** The assumption on reads is the bank's assumption on commits. */
  lemma ConcRunE1Labels(ss: seq<Conc>, ms: seq<Move>, i: nat)
    requires ConcRunE1(ss, ms) && i < |ms|
    ensures E1(Abs(ss[i]), LabelOf(ss[i], ms[i]))
  {
    ConcRunPayouts(ss, ms, i);
    assert NextAt(ss, ms, i);
    E1Label(ss[i], ms[i], ss[i + 1]);
  }

  // ---- What every reachable state satisfies ----

  lemma OneRowPerKey(txns: map<TxnId, Txn>, a: TxnId, b: TxnId)
    requires AllUnique(txns) && a in txns && b in txns && Clash(txns[a], txns[b])
    ensures a == b
  {
  }

  /** No overdraft under any interleaving, with no assumption on callbacks. */
  lemma NoOverdraft(ss: seq<Conc>, ms: seq<Move>, i: nat, tenant: TenantId)
    requires ConcRun(ss, ms) && i < |ss|
    ensures Balance(ss[i].db.ledger, tenant, TenantBalance) >= 0
  {
    ConcRunInv(ss, ms, i);
    assert Solvent(Abs(ss[i]).db);
  }

  /**
   A collection has exactly one credit pair iff it is SETTLED and no entry otherwise,
   whatever the order and number of callbacks, retries and drift passes.
   */
  lemma CollectionCreditedOnce(ss: seq<Conc>, ms: seq<Move>, i: nat, id: TxnId)
    requires ConcRun(ss, ms) && i < |ss|
    requires id in ss[i].db.txns && ss[i].db.txns[id].direction == Inbound
    ensures var t := ss[i].db.txns[id];
            Of(ss[i].db.ledger, id) == if t.status == Settled then CollectionEntries(t.tenant, id, t.amount) else []
    ensures ss[i].db.txns[id].checkout.Some? ==> ss[i].db.txns[id].status != Pending
  {
    ConcRunInv(ss, ms, i);
    assert RowOk(Abs(ss[i]).db.txns[id]);
    assert Journaled(Abs(ss[i]).db, Inbound);
  }

  /** Under E1 a payout's entries are its reservation and then at most one outcome. */
  lemma PayoutLifecycle(ss: seq<Conc>, ms: seq<Move>, i: nat, id: TxnId, account: Account)
    requires ConcRunE1(ss, ms) && i < |ss|
    requires id in ss[i].db.txns && ss[i].db.txns[id].direction == Outbound
    ensures var t := ss[i].db.txns[id];
            Of(ss[i].db.ledger, id)
            == ReservationEntries(t.tenant, id, t.amount)
               + (match t.status
                  case Settled => SettlementEntries(t.tenant, id, t.amount)
                  case Failed => ReleaseEntries(t.tenant, id, t.amount)
                  case _ => [])
    ensures var t := ss[i].db.txns[id];
            Balance(Of(ss[i].db.ledger, id), t.tenant, account)
            == match t.status
               case Failed => 0
               case Settled =>
                 if account == TenantBalance then -t.amount else if account == PayoutsPaid then t.amount else 0
               case _ =>
                 if account == TenantBalance then -t.amount else if account == PayoutReserved then t.amount else 0
  {
    ConcRunPayouts(ss, ms, i);
    var db := Abs(ss[i]).db;
    assert RowOk(db.txns[id]);
    assert Journaled(db, Outbound);
    JournalShare(id, db.txns[id], db.txns[id].tenant, account);
  }

  /** Under E1 every computed balance is a sum over the transaction table, and the books close. */
  lemma BalancesAreTableSums(ss: seq<Conc>, ms: seq<Move>, i: nat, tenant: TenantId)
    requires ConcRunE1(ss, ms) && i < |ss|
    ensures var db := ss[i].db;
            forall account :: Balance(db.ledger, tenant, account) == ByStatus(db.txns, tenant, account)
    ensures var ledger := ss[i].db.ledger;
            -Balance(ledger, tenant, PendingSettlement)
            == Balance(ledger, tenant, TenantBalance) + Balance(ledger, tenant, PayoutReserved)
               + Balance(ledger, tenant, PayoutsPaid)
    ensures SideTotal(ss[i].db.ledger, tenant, Debit) == SideTotal(ss[i].db.ledger, tenant, Credit)
  {
    ConcRunPayouts(ss, ms, i);
    var db := Abs(ss[i]).db;
    assert JournalInv(db.txns, db.ledger) by {
      assert Anchored(db) && Journaled(db, Inbound) && Journaled(db, Outbound);
    }
    forall id | id in db.txns ensures db.txns[id].status != Reversed {
      assert RowOk(db.txns[id]);
    }
    forall account: Account ensures Balance(db.ledger, tenant, account) == ByStatus(db.txns, tenant, account) {
      BalanceIsTable(db.txns, db.ledger, tenant, account);
      AccountByStatus(db.txns, tenant, account);
    }
    BooksClose(db.txns, db.ledger, tenant);
  }

  /**
   At most one payout row per idempotency key, at most one Daraja request per row, and
   the shillings requested are exactly the amount reserved.
   */
  lemma OnePayoutPerKey(ss: seq<Conc>, ms: seq<Move>, i: nat, a: TxnId, b: TxnId, m: nat, n: nat)
    requires ConcRun(ss, ms) && i < |ss|
    requires a in ss[i].db.txns && b in ss[i].db.txns
    requires ss[i].db.txns[a].key.Some? && ss[i].db.txns[a].key == ss[i].db.txns[b].key
    requires ss[i].db.txns[a].tenant == ss[i].db.txns[b].tenant
    ensures a == b
    ensures m < |ss[i].sent| && n < |ss[i].sent| && ss[i].sent[m].id == a && ss[i].sent[n].id == b ==> m == n
    ensures m < |ss[i].sent| && ss[i].sent[m].id == a ==> ss[i].sent[m].shillings * 100 == ss[i].db.txns[a].amount
  {
    ConcRunInv(ss, ms, i);
    var s := Abs(ss[i]);
    OneRowPerKey(s.db.txns, a, b);
    assert SendsInv(s);
  }

  /** One receipt belongs to one row, and that row is settled; a C2B row has its one credit pair. */
  lemma C2bCreditedOnce(ss: seq<Conc>, ms: seq<Move>, i: nat, a: TxnId, b: TxnId, transId: string)
    requires ConcRun(ss, ms) && i < |ss|
    requires a in ss[i].db.txns && b in ss[i].db.txns
    requires ss[i].db.txns[a].receipt == Some(transId) && ss[i].db.txns[b].receipt == Some(transId)
    ensures a == b && ss[i].db.txns[a].status == Settled
    ensures var t := ss[i].db.txns[a];
            t.direction == Inbound ==> Of(ss[i].db.ledger, a) == CollectionEntries(t.tenant, a, t.amount)
  {
    ConcRunInv(ss, ms, i);
    var s := Abs(ss[i]);
    OneRowPerKey(s.db.txns, a, b);
    assert RowOk(s.db.txns[a]);
    assert Journaled(s.db, Inbound);
  }

  /** Settled rows, and only those, are confirmed by a reconciliation record, for the row's amount. */
  lemma SettledIffConfirmed(ss: seq<Conc>, ms: seq<Move>, i: nat, id: TxnId)
    requires ConcRun(ss, ms) && i < |ss| && id in ss[i].db.txns
    ensures var db := ss[i].db;
            db.txns[id].status == Settled <==>
            id in db.records && db.records[id].confirmed == Some(db.records[id].expected)
    ensures var db := ss[i].db; id in db.records ==> db.records[id].expected == db.txns[id].amount
    ensures ss[i].db.txns[id].status != Reversed
  {
    ConcRunInv(ss, ms, i);
    assert RecordOk(Abs(ss[i]).db, id);
    assert RowOk(Abs(ss[i]).db.txns[id]);
  }

  /**
   Each transaction has at most one delivery, and it reports the row's final status and
   amount: for collections always, for payouts under E1.
   */
  lemma OneDeliveryPerTransaction(ss: seq<Conc>, ms: seq<Move>, i: nat, m: nat, n: nat)
    requires ConcRun(ss, ms) && i < |ss|
    requires m <= n < |ss[i].db.outbox|
    requires ss[i].db.outbox[m].direction == Outbound ==> ConcRunE1(ss, ms)
    ensures ss[i].db.outbox[m].txn == ss[i].db.outbox[n].txn ==> m == n
    ensures NoticeOk(ss[i].db, ss[i].db.outbox[m])
  {
    ConcRunInv(ss, ms, i);
    var db := Abs(ss[i]).db;
    var d := db.outbox[m].direction;
    if d == Outbound {
      ConcRunPayouts(ss, ms, i);
    }
    assert Notified(db, d) && Anchored(db);
  }

  // ---- What never changes again ----

  /** A row is never removed, keeps its identity, and keeps a non-empty receipt once it has one. */
  predicate Persists(a: Db, b: Db, id: TxnId)
  {
    id in a.txns ==>
      && id in b.txns
      && SameIdentity(a.txns[id], b.txns[id])
      && (Truthy(a.txns[id].receipt) ==> b.txns[id].receipt == a.txns[id].receipt)
  }

  lemma {:induction false} RowsPersist(ss: seq<Conc>, ms: seq<Move>, i: nat, j: nat, id: TxnId)
    requires ConcRun(ss, ms) && i <= j < |ss|
    ensures Persists(ss[i].db, ss[j].db, id)
    decreases j - i
  {
    if i < j {
      RowsPersist(ss, ms, i, j - 1, id);
      RunStepPersists(ss, ms, j - 1, id);
    }
  }

  lemma RunStepPersists(ss: seq<Conc>, ms: seq<Move>, i: nat, id: TxnId)
    requires ConcRun(ss, ms) && i < |ms|
    ensures Persists(ss[i].db, ss[i + 1].db, id)
  {
    ConcRunInv(ss, ms, i);
    assert NextAt(ss, ms, i);
    StepRefines(ss[i], ms[i], ss[i + 1]);
    StepPersists(Abs(ss[i]), LabelOf(ss[i], ms[i]), Abs(ss[i + 1]), id);
  }

  lemma StepPersists(s: State, l: Label, s': State, id: TxnId)
    requires Inv(s) && Step(s, l, s')
    ensures Persists(s.db, s'.db, id)
  {
    if l.Commit? {
      CommitPersists(s, l, s', id);
    }
  }

  /** One row between two moments of a run. */
  predicate Evolves(a: Db, b: Db, id: TxnId)
  {
    id in a.txns ==>
      && Persists(a, b, id)
      && (a.txns[id].status in {Settled, Failed} ==>
            b.txns[id].status == a.txns[id].status && Of(b.ledger, id) == Of(a.ledger, id))
      && (a.txns[id].status == Processing ==> b.txns[id].status != Pending)
  }

  lemma CommitPersists(s: State, l: Label, s': State, id: TxnId)
    requires Inv(s) && Step(s, l, s') && l.Commit?
    ensures Persists(s.db, s'.db, id)
  {
    ExecShape(s.db, l.op, l.hook);
    ExecMove(s.db, l.op, l.hook);
    if id in s.db.txns && id == l.op.id && l.op.Settle? {
      SettleKeepsReceipt(s.db, l.op, l.hook);
    }
  }

  lemma CommitEvolves(s: State, l: Label, s': State, id: TxnId)
    requires Inv(s) && Step(s, l, s') && l.Commit?
    requires id in s.db.txns && s.db.txns[id].direction == Outbound ==> LiveIsPending(s)
    ensures Evolves(s.db, s'.db, id)
    ensures id in s.db.txns ==>
      s'.db.txns[id].status == s.db.txns[id].status || s'.db.txns[id].status in Allowed(s.db.txns[id].status)
    ensures id in s.db.txns && s'.db.txns[id].status != s.db.txns[id].status && (l.op.Settle? || l.op.Fail?) ==>
      s'.db.outbox == s.db.outbox
        + Notify(l.hook, id, s.db.txns[id], s'.db.txns[id].status, if l.op.Settle? then l.op.receipt else None)
  {
    ExecShape(s.db, l.op, l.hook);
    ExecMove(s.db, l.op, l.hook);
    CommitPersists(s, l, s', id);
    assert CallOk(s.db, s.calls[l.w]);
    if id in s.db.txns {
      assert RowOk(s.db.txns[id]);
      OfConcat(s.db.ledger, Gain(s.db, l.op), id);
      GainOwner(s.db, l.op);
      OfUniform(Gain(s.db, l.op), l.op.id, id);
    }
  }

  /** The edges of the transition graph that are ever taken. */
  predicate Edge(from: Status, to: Status)
  {
    (from == Pending && to in {Processing, Failed}) || (from == Processing && to in {Settled, Failed})
  }

  /** One step of the bank, seen from one row. */
  lemma StepFollowsTable(s: State, l: Label, s': State, id: TxnId)
    requires Inv(s) && Step(s, l, s') && id in s.db.txns
    requires s.db.txns[id].direction == Outbound ==> LiveIsPending(s)
    ensures Evolves(s.db, s'.db, id)
    ensures var from, to := s.db.txns[id].status, s'.db.txns[id].status;
            from != to ==> to in Allowed(from) && Edge(from, to)
    ensures var from, to := s.db.txns[id].status, s'.db.txns[id].status;
            from != to && l.Commit? && (l.op.Settle? || l.op.Fail?) ==>
              s'.db.outbox == s.db.outbox
                + Notify(l.hook, id, s.db.txns[id], to, if l.op.Settle? then l.op.receipt else None)
  {
    if l.Commit? {
      CommitEvolves(s, l, s', id);
      if s'.db.txns[id].status != s.db.txns[id].status {
        CommitEdge(s, l, s', id);
      }
    }
  }

  lemma CommitEdge(s: State, l: Label, s': State, id: TxnId)
    requires Inv(s) && Step(s, l, s') && l.Commit? && id in s.db.txns && id in s'.db.txns
    requires s'.db.txns[id].status in Allowed(s.db.txns[id].status)
    ensures Edge(s.db.txns[id].status, s'.db.txns[id].status)
  {
    StepKeeps(s, l, s');
    assert RowOk(s.db.txns[id]) && RowOk(s'.db.txns[id]);
  }

  /**
   Status histories follow the table, and a transition and the delivery that reports it
   are one commit: for collections always, for payouts under E1.
   */
  lemma StatusFollowsTable(ss: seq<Conc>, ms: seq<Move>, i: nat, id: TxnId)
    requires ConcRun(ss, ms) && i < |ms|
    requires id in ss[i].db.txns
    requires ss[i].db.txns[id].direction == Outbound ==> ConcRunE1(ss, ms)
    ensures Evolves(ss[i].db, ss[i + 1].db, id)
    ensures var from, to := ss[i].db.txns[id].status, ss[i + 1].db.txns[id].status;
            from == to || (to in Allowed(from) && Edge(from, to))
    ensures var from, to, l := ss[i].db.txns[id].status, ss[i + 1].db.txns[id].status, LabelOf(ss[i], ms[i]);
            from != to && l.Commit? && (l.op.Settle? || l.op.Fail?) ==>
              ss[i + 1].db.outbox == ss[i].db.outbox
                + Notify(l.hook, id, ss[i].db.txns[id], to, if l.op.Settle? then l.op.receipt else None)
  {
    ConcRunInv(ss, ms, i);
    assert NextAt(ss, ms, i);
    StepRefines(ss[i], ms[i], ss[i + 1]);
    if ss[i].db.txns[id].direction == Outbound {
      ConcRunPayouts(ss, ms, i);
    }
    StepFollowsTable(Abs(ss[i]), LabelOf(ss[i], ms[i]), Abs(ss[i + 1]), id);
  }

  /**
   One outcome per transaction: once SETTLED or FAILED, a row's status and its ledger
   entries are the same at every later moment, and a non-empty receipt never changes.
   */
  lemma {:induction false} OutcomeIsFinal(ss: seq<Conc>, ms: seq<Move>, i: nat, j: nat, id: TxnId)
    requires ConcRun(ss, ms) && i <= j < |ss|
    requires id in ss[i].db.txns
    requires ss[i].db.txns[id].direction == Outbound ==> ConcRunE1(ss, ms)
    ensures Evolves(ss[i].db, ss[j].db, id)
    decreases j - i
  {
    if i < j {
      OutcomeIsFinal(ss, ms, i, j - 1, id);
      StatusFollowsTable(ss, ms, j - 1, id);
    }
  }

  /** A move that commits `op`. */
  predicate Commits(s: Conc, m: Move, op: Op)
  {
    m.CommitTx? && m.w < |s.txs| && s.txs[m.w].Writing? && s.txs[m.w].op == op
  }

  lemma CommittedRow(ss: seq<Conc>, ms: seq<Move>, i: nat, op: Op)
    requires ConcRun(ss, ms) && i < |ms| && Commits(ss[i], ms[i], op)
    ensures exists hook :: Exec(ss[i].db, op, hook) == Done(ss[i + 1].db)
    ensures op.id in ss[i + 1].db.txns && RowMove(ss[i].db, op, ss[i + 1].db.txns[op.id])
  {
    ConcRunInv(ss, ms, i);
    assert NextAt(ss, ms, i);
    StepRefines(ss[i], ms[i], ss[i + 1]);
    ExecMove(ss[i].db, op, ss[i].txs[ms[i].w].hook);
  }

  /** The row an insert committed is still there, and still itself, at any later moment. */
  lemma InsertPersists(ss: seq<Conc>, ms: seq<Move>, i: nat, j: nat, op: Op)
    requires ConcRun(ss, ms) && i < j < |ss| && Commits(ss[i], ms[i], op)
    requires op.Reserve? || op.C2bRecord?
    ensures var row := if op.Reserve? then PayoutRow(op) else C2bRow(op);
            && op.id in ss[j].db.txns
            && SameIdentity(row, ss[j].db.txns[op.id])
            && (Truthy(row.receipt) ==> ss[j].db.txns[op.id].receipt == row.receipt)
  {
    CommittedRow(ss, ms, i, op);
    RowsPersist(ss, ms, i + 1, j, op.id);
  }

  /** A commit that inserts a row cannot collide with a row that is there. */
  lemma NoSecondInsert(db: Db, op: Op, id: TxnId)
    requires op.Reserve? || op.C2bRecord?
    requires id in db.txns && Clash(db.txns[id], if op.Reserve? then PayoutRow(op) else C2bRow(op))
    ensures forall hook :: Exec(db, op, hook).Abort?
  {
  }

  lemma CommitIsEnabled(ss: seq<Conc>, ms: seq<Move>, i: nat, op: Op)
    requires ConcRun(ss, ms) && i < |ms| && Commits(ss[i], ms[i], op)
    ensures ms[i].w < |ss[i].calls| && Enabled(Abs(ss[i]), ms[i].w, op)
  {
    ConcRunInv(ss, ms, i);
    assert TxOk(ss[i], ms[i].w);
  }

  /**
   C2B exactly once: however often a confirmation is delivered, retried, or processed
   again after a crash between the commit and the event's own update, only one of the
   attempts ever commits.
   */
  lemma C2bCommitsOnce(ss: seq<Conc>, ms: seq<Move>, i: nat, j: nat, a: Op, b: Op)
    requires ConcRun(ss, ms) && i <= j < |ms|
    requires Commits(ss[i], ms[i], a) && Commits(ss[j], ms[j], b)
    requires a.C2bRecord? && b.C2bRecord? && a.transId == b.transId
    ensures i == j
  {
    if i < j {
      CommitIsEnabled(ss, ms, i, a);
      InsertPersists(ss, ms, i, j, a);
      NoSecondInsert(ss[j].db, b, a.id);
      CommittedRow(ss, ms, j, b);
      assert false;
    }
  }

  /** Of any number of concurrent payout requests with one key, only one ever reserves. */
  lemma KeyReservesOnce(ss: seq<Conc>, ms: seq<Move>, i: nat, j: nat, a: Op, b: Op)
    requires ConcRun(ss, ms) && i <= j < |ms|
    requires Commits(ss[i], ms[i], a) && Commits(ss[j], ms[j], b)
    requires a.Reserve? && b.Reserve? && a.tenant == b.tenant && a.key == b.key && a.key.Some?
    ensures i == j
  {
    if i < j {
      InsertPersists(ss, ms, i, j, a);
      NoSecondInsert(ss[j].db, b, a.id);
      CommittedRow(ss, ms, j, b);
      assert false;
    }
  }

  predicate HasKey(txns: map<TxnId, Txn>, id: TxnId, op: Op)
    requires op.Reserve?
  {
    id in txns && txns[id].tenant == op.tenant && txns[id].key == op.key
  }

  /** Ids and originator ids are generated fresh, so only the idempotency key can collide. */
  predicate FreshRequest(txns: map<TxnId, Txn>, op: Op)
    requires op.Reserve?
  {
    op.id !in txns && forall id | id in txns :: txns[id].originator != Some(op.originator)
  }

  lemma OnlyTheKeyCollides(db: Db, op: Op) returns (id: TxnId)
    requires op.Reserve? && FreshRequest(db.txns, op) && Apply(db, ReserveWrites(op)).None?
    ensures op.key.Some? && HasKey(db.txns, id, op)
  {
    ApplyCons(db, InsertTxn(op.id, PayoutRow(op)), [Append(ReservationEntries(op.tenant, op.id, op.amount))]);
    if Apply1(db, InsertTxn(op.id, PayoutRow(op))).Some? {
      ApplyOne(db.(txns := db.txns[op.id := PayoutRow(op)]), Append(ReservationEntries(op.tenant, op.id, op.amount)));
    }
    id :| id in db.txns && id != op.id && Clash(db.txns[id], PayoutRow(op));
  }

  /**
   The loser of an insert race is replayed the winner's payout: if a reservation whose
   balance check passed cannot commit, there is one row with its tenant and key, and the
   lookup the catch block makes at any later moment finds that row and no other.
   */
  lemma LostRaceFindsWinner(ss: seq<Conc>, ms: seq<Move>, i: nat, j: nat, w: nat, op: Op) returns (winner: TxnId)
    requires ConcRun(ss, ms) && i <= j < |ss| && w < |ss[i].txs|
    requires ss[i].txs[w].Writing? && ss[i].txs[w].op == op && ss[i].txs[w].todo == []
    requires op.Reserve? && FreshRequest(ss[i].db.txns, op)
    requires Apply(ss[i].db, ss[i].txs[w].done).None?
    ensures op.key.Some?
    ensures forall id :: HasKey(ss[j].db.txns, id, op) <==> id == winner
    ensures winner in ss[i].db.txns && winner != op.id
  {
    ConcRunInv(ss, ms, i);
    ConcRunInv(ss, ms, j);
    assert TxOk(ss[i], w);
    assert ss[i].txs[w].done + [] == ss[i].txs[w].done;
    winner := OnlyTheKeyCollides(ss[i].db, op);
    RowsPersist(ss, ms, i, j, winner);
    forall id | HasKey(ss[j].db.txns, id, op) ensures id == winner {
      OneRowPerKey(ss[j].db.txns, id, winner);
    }
  }

  // ---- What a request asked for is what moves ----

  /** A collection that settles credits the tenant and the amount of its own request. */
  lemma CollectionCreditsItsRequest(ss: seq<Conc>, ms: seq<Move>, i: nat, j: nat, op: Op)
    requires ConcRun(ss, ms) && i < |ms| && i < j < |ss|
    requires Commits(ss[i], ms[i], op) && op.StkCreate?
    ensures op.id in ss[j].db.txns
    ensures var t := ss[j].db.txns[op.id];
            && t.tenant == op.tenant && t.amount == op.amount && t.direction == Inbound && t.channel == StkPush
            && Of(ss[j].db.ledger, op.id)
               == if t.status == Settled then CollectionEntries(op.tenant, op.id, op.amount) else []
  {
    CommittedRow(ss, ms, i, op);
    RowsPersist(ss, ms, i + 1, j, op.id);
    CollectionCreditedOnce(ss, ms, j, op.id);
  }

  /** A payout's entries are on the tenant and for the amount of its own request (under E1). */
  lemma PayoutDebitsItsRequest(ss: seq<Conc>, ms: seq<Move>, i: nat, j: nat, op: Op)
    requires ConcRunE1(ss, ms) && i < |ms| && i < j < |ss|
    requires Commits(ss[i], ms[i], op) && op.Reserve?
    ensures op.id in ss[j].db.txns
    ensures var t := ss[j].db.txns[op.id];
            && t.tenant == op.tenant && t.amount == op.amount && t.direction == Outbound && t.channel == B2c
            && t.originator == Some(op.originator) && t.key == op.key
            && ReservationEntries(op.tenant, op.id, op.amount) <= Of(ss[j].db.ledger, op.id)
  {
    CommittedRow(ss, ms, i, op);
    RowsPersist(ss, ms, i + 1, j, op.id);
    PayoutLifecycle(ss, ms, j, op.id, TenantBalance);
  }

  // ---- A transition tells the tenant ----

  /** The read an open transaction goes back to, and the tables it saw. */
  lemma {:induction false} ReadBefore(ss: seq<Conc>, ms: seq<Move>, i: nat, w: nat) returns (r: nat)
    requires ConcRun(ss, ms) && i < |ss| && w < |ss[i].txs| && ss[i].txs[w].Writing?
    ensures r < i && ms[r] == Read(w) && w < |ss[r].txs| && ss[r].txs[w] != NoTx
    ensures ss[r].txs[w].op == ss[i].txs[w].op && ss[i].txs[w].hook == HookOf(ss[r].db, ss[i].txs[w].op.id)
    ensures forall k | r < k <= i :: w < |ss[k].txs| && ss[k].txs[w].Writing? && ss[k].txs[w].op == ss[i].txs[w].op
    decreases i
  {
    assert i > 0;
    assert NextAt(ss, ms, i - 1);
    if ms[i - 1] == Read(w) {
      r := i - 1;
    } else {
      StillWriting(ss[i - 1], ms[i - 1], ss[i], w);
      r := ReadBefore(ss, ms, i - 1, w);
    }
  }

  lemma StillWriting(s: Conc, m: Move, s': Conc, w: nat)
    requires Next(s, m, s') && m != Read(w) && w < |s'.txs| && s'.txs[w].Writing?
    ensures w < |s.txs| && s.txs[w].Writing?
    ensures s.txs[w].op == s'.txs[w].op && s.txs[w].hook == s'.txs[w].hook
  {
  }

  /** The delivery a transition owes: the row's new status, and the receipt it now has. */
  lemma CommitTells(db: Db, op: Op, hook: bool, db': Db)
    requires (op.Settle? || op.Fail?) && Exec(db, op, hook) == Done(db')
    ensures op.id in db.txns && op.id in db'.txns
    ensures var t, t' := db.txns[op.id], db'.txns[op.id];
            db'.outbox == db.outbox + if t'.status != t.status && hook
                                      then [Notice(op.id, t'.status, t.direction, t'.receipt, t.amount)] else []
  {
    assert db.outbox + [] == db.outbox;
  }

  /**
   The tenant is told: a committed settlement or failure that changes the row's status
   appends exactly one delivery, with the row's new status, receipt, direction and amount,
   iff at the transaction's read the row's tenant had a webhook; otherwise it appends none.
   */
  lemma TransitionIsTold(ss: seq<Conc>, ms: seq<Move>, i: nat, op: Op) returns (r: nat)
    requires ConcRun(ss, ms) && i < |ms| && Commits(ss[i], ms[i], op) && (op.Settle? || op.Fail?)
    ensures r < i && ms[r] == Read(ms[i].w)
    ensures op.id in ss[r].db.txns && op.id in ss[i].db.txns && op.id in ss[i + 1].db.txns
    ensures var t, t' := ss[i].db.txns[op.id], ss[i + 1].db.txns[op.id];
            var told := t'.status != t.status
                        && t.tenant in ss[r].db.tenants && ss[r].db.tenants[t.tenant];
            ss[i + 1].db.outbox
            == ss[i].db.outbox + if told then [Notice(op.id, t'.status, t.direction, t'.receipt, t.amount)] else []
  {
    var w := ms[i].w;
    r := ReadBefore(ss, ms, i, w);
    ConcRunInv(ss, ms, i);
    ConcRunInv(ss, ms, r);
    assert NextAt(ss, ms, i);
    CommitIsStep(ss[i], w, ss[i + 1]);
    CommitTells(ss[i].db, op, ss[i].txs[w].hook, ss[i + 1].db);
    assert TxOk(ss[r], w);
    RowsPersist(ss, ms, r, i, op.id);
  }

  // ---- When a settlement commits ----

  /**
   Exactly when the settlement of a PROCESSING row, planned under the row lock, goes
   through in the interleaved system: iff at commit time the receipt is on no other row and
   the row has no record. It then settles and confirms the row; aborted, it changes nothing.
   */
  lemma SettlementCommitsIff(ss: seq<Conc>, ms: seq<Move>, i: nat, w: nat, op: Op)
    requires ConcRun(ss, ms) && i < |ss| && w < |ss[i].txs|
    requires ss[i].txs[w].Writing? && ss[i].txs[w].op == op && ss[i].txs[w].todo == []
    requires op.Settle? && op.id in ss[i].db.txns && ss[i].db.txns[op.id].status == Processing
    ensures (exists next :: Next(ss[i], CommitTx(w), next))
            <==> ReceiptFree(ss[i].db.txns, op.id, op.receipt) && op.id !in ss[i].db.records
    ensures forall next | Next(ss[i], CommitTx(w), next) ::
              && op.id in next.db.txns && next.db.txns[op.id].status == Settled
              && op.id in next.db.records
              && next.db.records[op.id]
                 == Record(next.db.txns[op.id].amount, Some(next.db.txns[op.id].amount), false, true)
    ensures forall next | Next(ss[i], AbortTx(w), next) :: next.db == ss[i].db
  {
    var s, tx := ss[i], ss[i].txs[w];
    ConcRunInv(ss, ms, i);
    assert TxOk(s, w);
    assert tx.done + [] == tx.done;
    SettleApplies(s.db, op, tx.hook, tx.done);
    SettlesIff(s.db, op.id, op.direction, op.receipt, tx.hook);
    if Apply(s.db, tx.done).Some? {
      assert Next(s, CommitTx(w), Conc(Apply(s.db, tx.done).value, s.calls[w := CallAfter(op, s.calls[w])],
                                       s.txs[w := AfterCommit(op)], s.sent));
    }
  }

  // ---- E1 is exactly what payouts need ----

  /** A payout past PENDING has no initiator left, so checking the status is enough for E1. */
  lemma PastPendingIsE1(s: State, id: TxnId)
    requires Inv(s) && PayoutInv(s)
    requires id in s.db.txns && s.db.txns[id].status != Pending
    ensures !Live(s, id)
  {
  }

  /** A state with the same tables in which the initiator of `id` is still running. */
  function StillCalling(s: State, id: TxnId): State
  {
    s.(calls := s.calls + [Call(id, true, true)])
  }

  lemma StillCallingCalls(s: State, id: TxnId)
    requires Inv(s) && !Live(s, id)
    requires id in s.db.txns && s.db.txns[id].direction == Outbound && s.db.txns[id].status == Pending
    ensures CallsInv(StillCalling(s, id)) && Live(StillCalling(s, id), id)
  {
    var t := StillCalling(s, id);
    forall w | 0 <= w < |s.calls| ensures t.calls[w] == s.calls[w] && CallOk(t.db, t.calls[w]) {
      assert CallOk(s.db, s.calls[w]);
    }
    assert t.calls[|s.calls|] == Call(id, true, true);
  }

  lemma StillCallingSends(s: State, id: TxnId)
    requires SendsInv(s)
    ensures SendsInv(StillCalling(s, id))
  {
    var t := StillCalling(s, id);
    assert forall w | 0 <= w < |s.calls| :: t.calls[w] == s.calls[w];
  }

  lemma StillCallingOk(s: State, id: TxnId)
    requires Inv(s) && PayoutInv(s) && !Live(s, id)
    requires id in s.db.txns && s.db.txns[id].direction == Outbound && s.db.txns[id].status == Pending
    ensures Inv(StillCalling(s, id)) && PayoutInv(StillCalling(s, id)) && Live(StillCalling(s, id), id)
  {
    StillCallingCalls(s, id);
    StillCallingSends(s, id);
  }

  /**
   The status is all a handler can check, and it is exactly enough: a payout is PENDING iff
   the tables leave open that its initiator is still running.
   */
  lemma PendingIsMaybeLive(s: State, id: TxnId)
    requires Inv(s) && PayoutInv(s)
    requires id in s.db.txns && s.db.txns[id].direction == Outbound
    ensures s.db.txns[id].status == Pending
            <==> exists t: State :: t.db == s.db && Inv(t) && PayoutInv(t) && Live(t, id)
  {
    if s.db.txns[id].status == Pending && !Live(s, id) {
      StillCallingOk(s, id);
    }
    forall t: State | t.db == s.db && Inv(t) && PayoutInv(t) && Live(t, id) ensures s.db.txns[id].status == Pending {
      if s.db.txns[id].status != Pending {
        PastPendingIsE1(t, id);
      }
    }
  }

  /** Applying a failure result to `id` and then letting its initiator finish with `op`. */
  function FailThen(db: Db, id: TxnId, hook: bool, op: Op): Outcome<Db>
  {
    match ExecFail(db, id, Outbound, hook)
    case Abort(e) => Abort(e)
    case Done(db1) => Exec(db1, op, hook)
  }

  /** What the failure and the initiator's write amount to on a PENDING payout. */
  lemma FailThenResult(db: Db, id: TxnId, hook: bool, op: Op)
    requires id in db.txns && db.txns[id].direction == Outbound && db.txns[id].status == Pending
    requires op == Accept(id) || op == Release(id)
    ensures var t, r := db.txns[id], FailThen(db, id, hook, op);
            var es := ReleaseEntries(t.tenant, id, t.amount);
            && r.Done? && id in r.value.txns
            && r.value.txns[id] == t.(status := if op.Accept? then Processing else Failed)
            && r.value.ledger == if op.Accept? then db.ledger + es else db.ledger + es + es
  {
  }

  /** A payout with more entries than its journal is not journaled. */
  lemma ReleasedTooOften(ledger: seq<Entry>, id: TxnId, t: Txn, t': Txn, n: nat)
    requires t.direction == Outbound && t.status == Pending && Of(ledger, id) == Journal(id, t)
    requires (n == 1 && t' == t.(status := Processing)) || (n == 2 && t' == t.(status := Failed))
    ensures var es := ReleaseEntries(t.tenant, id, t.amount);
            var after := if n == 1 then ledger + es else ledger + es + es;
            && Of(after, id) != Journal(id, t')
            && Balance(after, t.tenant, TenantBalance) == Balance(ledger, t.tenant, TenantBalance) + n * t.amount
  {
    var es := ReleaseEntries(t.tenant, id, t.amount);
    OfConcat(ledger, es, id);
    OfConcat(ledger + es, es, id);
    OfUniform(es, id, id);
    assert |Journal(id, t)| == 2 && |Journal(id, t')| == 2 * n && |Of(ledger + es, id)| == 4;
    BalanceConcat(ledger, es, t.tenant, TenantBalance);
    BalanceConcat(ledger + es, es, t.tenant, TenantBalance);
    PairBalance(t.tenant, id, t.amount, PayoutReserved, TenantBalance, t.tenant, TenantBalance);
  }

  /** After a raced accept the row says PROCESSING, but its money is spendable and nothing is reserved. */
  lemma RacedAccept(s: State, w: nat, hook: bool)
    requires Inv(s) && PayoutInv(s) && w < |s.calls|
    requires s.calls[w].Call? && s.calls[w].payout
    ensures var id := s.calls[w].id;
            var r := FailThen(s.db, id, hook, Accept(id));
            && id in s.db.txns
            && r.Done? && !Journaled(r.value, Outbound)
            && Balance(r.value.ledger, s.db.txns[id].tenant, TenantBalance)
               == Balance(s.db.ledger, s.db.txns[id].tenant, TenantBalance) + s.db.txns[id].amount
  {
    var id := s.calls[w].id;
    assert CallOk(s.db, s.calls[w]);
    FailThenResult(s.db, id, hook, Accept(id));
    ReleasedTooOften(s.db.ledger, id, s.db.txns[id], s.db.txns[id].(status := Processing), 1);
  }

  /** After a raced release the reservation has been given back twice. */
  lemma RacedRelease(s: State, w: nat, hook: bool)
    requires Inv(s) && PayoutInv(s) && w < |s.calls|
    requires s.calls[w].Call? && s.calls[w].payout
    ensures var id := s.calls[w].id;
            var r := FailThen(s.db, id, hook, Release(id));
            && id in s.db.txns
            && r.Done? && !Journaled(r.value, Outbound)
            && Balance(r.value.ledger, s.db.txns[id].tenant, TenantBalance)
               == Balance(s.db.ledger, s.db.txns[id].tenant, TenantBalance) + 2 * s.db.txns[id].amount
  {
    var id := s.calls[w].id;
    assert CallOk(s.db, s.calls[w]);
    FailThenResult(s.db, id, hook, Release(id));
    ReleasedTooOften(s.db.ledger, id, s.db.txns[id], s.db.txns[id].(status := Failed), 2);
  }

  /** The initiator of `id`, in any worker, may finish with an accept or a release; both keep the books. */
  ghost predicate InitiatorKeeps(s: State, id: TxnId, hook: bool)
  {
    forall v, op | 0 <= v < |s.calls| && op in {Accept(id), Release(id)} && Enabled(s, v, op) ::
      Exec(s.db, op, hook).Done? && Journaled(Exec(s.db, op, hook).value, Outbound)
  }

  /** The state right after a failure result was applied to `id`. */
  function FailedBy(s: State, id: TxnId, hook: bool): State
    requires ExecFail(s.db, id, Outbound, hook).Done?
  {
    s.(db := ExecFail(s.db, id, Outbound, hook).value)
  }

  lemma LiveFailureBreaks(s: State, id: TxnId, hook: bool)
    requires Inv(s) && PayoutInv(s) && Live(s, id)
    requires ExecFail(s.db, id, Outbound, hook).Done?
    ensures !InitiatorKeeps(FailedBy(s, id, hook), id, hook)
  {
    var v :| 0 <= v < |s.calls| && s.calls[v].Call? && s.calls[v].id == id;
    assert CallOk(s.db, s.calls[v]);
    RacedRelease(s, v, hook);
    assert Enabled(FailedBy(s, id, hook), v, Release(id));
  }

  lemma DeadFailureHasNoInitiator(s: State, id: TxnId, hook: bool)
    requires !Live(s, id) && ExecFail(s.db, id, Outbound, hook).Done?
    ensures InitiatorKeeps(FailedBy(s, id, hook), id, hook)
  {
    var s' := FailedBy(s, id, hook);
    forall v | 0 <= v < |s'.calls| ensures !Enabled(s', v, Accept(id)) && !Enabled(s', v, Release(id)) {
      assert s.calls[v].Call? ==> s.calls[v].id != id;
    }
  }

  lemma DeadFailureKeeps(s: State, w: nat, id: TxnId, hook: bool)
    requires Inv(s) && PayoutInv(s) && !Live(s, id)
    requires w < |s.calls| && Enabled(s, w, Fail(id, Outbound, Callback))
    requires ExecFail(s.db, id, Outbound, hook).Done?
    ensures PayoutInv(FailedBy(s, id, hook))
  {
    assert s.calls[w := s.calls[w]] == s.calls;
    var l := Commit(w, Fail(id, Outbound, Callback), hook);
    assert Step(s, l, FailedBy(s, id, hook));
    PayoutStepKeeps(s, l, FailedBy(s, id, hook));
  }

  /**
   The exact condition. A failure callback on a payout leaves every payout's entries right
   however its initiator goes on, if and only if no initiator is still running on it.
   */
  lemma E1IsExact(s: State, w: nat, id: TxnId, hook: bool)
    requires Inv(s) && PayoutInv(s)
    requires w < |s.calls| && Enabled(s, w, Fail(id, Outbound, Callback))
    requires ExecFail(s.db, id, Outbound, hook).Done?
    ensures var s' := FailedBy(s, id, hook);
            && (!Live(s, id) <==> Journaled(s'.db, Outbound) && InitiatorKeeps(s', id, hook))
            && (!Live(s, id) ==> PayoutInv(s'))
  {
    if Live(s, id) {
      LiveFailureBreaks(s, id, hook);
    } else {
      DeadFailureKeeps(s, w, id, hook);
      DeadFailureHasNoInitiator(s, id, hook);
    }
  }

  /** A state some worker of which may be about to apply a failure, with the given tables. */
  ghost predicate Possible(t: State, db: Db)
  {
    t.db == db && Inv(t) && PayoutInv(t) && t.calls != []
  }

  lemma PastPendingIsSafe(t: State, id: TxnId, hook: bool)
    requires Possible(t, t.db) && ExecFail(t.db, id, Outbound, hook).Done?
    requires t.db.txns[id].status != Pending
    ensures PayoutInv(FailedBy(t, id, hook)) && InitiatorKeeps(FailedBy(t, id, hook), id, hook)
  {
    PastPendingIsE1(t, id);
    assert RowOk(t.db.txns[id]);
    DeadFailureKeeps(t, 0, id, hook);
    DeadFailureHasNoInitiator(t, id, hook);
  }

  /**
   What a handler that sees only the tables may rely on. Applying a failure result to a
   payout is right in every state with these tables, however its initiator then goes on, if
   and only if the payout is past PENDING: the guard the accept and release writes lack.
   */
  lemma StatusGuardIsExact(s: State, id: TxnId, hook: bool)
    requires Inv(s) && PayoutInv(s) && ExecFail(s.db, id, Outbound, hook).Done?
    ensures s.db.txns[id].status != Pending
            <==> forall t | Possible(t, s.db) ::
                   PayoutInv(FailedBy(t, id, hook)) && InitiatorKeeps(FailedBy(t, id, hook), id, hook)
  {
    if s.db.txns[id].status == Pending {
      PendingIsMaybeLive(s, id);
      var t: State :| t.db == s.db && Inv(t) && PayoutInv(t) && Live(t, id);
      LiveFailureBreaks(t, id, hook);
      assert Possible(t, s.db);
    } else {
      forall t | Possible(t, s.db)
        ensures PayoutInv(FailedBy(t, id, hook)) && InitiatorKeeps(FailedBy(t, id, hook), id, hook)
      {
        PastPendingIsSafe(t, id, hook);
      }
    }
  }
}
