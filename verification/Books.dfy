/**
 What the ledger has to say about each transaction row, and what follows for the
 balances: the entries of a row are a function of its direction and status, so every
 account of a tenant is a sum over the transaction table.
 */
module Books {
  import opened Ledger
  import opened Store

  /** The exact entries a row must have, in order. */
  function Journal(id: TxnId, t: Txn): seq<Entry>
  {
    if t.direction == Inbound then
      if t.status == Settled then CollectionEntries(t.tenant, id, t.amount) else []
    else
      ReservationEntries(t.tenant, id, t.amount)
      + (if t.status == Settled then SettlementEntries(t.tenant, id, t.amount)
         else if t.status == Failed then ReleaseEntries(t.tenant, id, t.amount)
         else [])
  }

  ghost predicate JournalInv(txns: map<TxnId, Txn>, ledger: seq<Entry>)
  {
    && (forall e | e in ledger :: e.txn in txns)
    && (forall id | id in txns :: Of(ledger, id) == Journal(id, txns[id]))
  }

  /** The amount a row puts on one account, read off its status alone. */
  function Share(t: Txn, account: Account): int
  {
    match (t.direction, t.status, account)
    case (Inbound, Settled, TenantBalance) => t.amount
    case (Inbound, Settled, PendingSettlement) => -t.amount
    case (Outbound, Failed, _) => 0
    case (Outbound, _, TenantBalance) => -t.amount
    case (Outbound, Settled, PayoutsPaid) => t.amount
    case (Outbound, Settled, _) => 0
    case (Outbound, _, PayoutReserved) => t.amount
    case _ => 0
  }

  lemma JournalShare(id: TxnId, t: Txn, tenant: TenantId, account: Account)
    ensures Balance(Journal(id, t), tenant, account) == if t.tenant == tenant then Share(t, account) else 0
  {
    CollectionBalance(t.tenant, id, t.amount, tenant, account);
    PairBalance(t.tenant, id, t.amount, TenantBalance, PayoutReserved, tenant, account);
    PairBalance(t.tenant, id, t.amount, PayoutReserved, PayoutsPaid, tenant, account);
    PairBalance(t.tenant, id, t.amount, PayoutReserved, TenantBalance, tenant, account);
    var r := ReservationEntries(t.tenant, id, t.amount);
    BalanceConcat(r, SettlementEntries(t.tenant, id, t.amount), tenant, account);
    BalanceConcat(r, ReleaseEntries(t.tenant, id, t.amount), tenant, account);
    assert r + [] == r;
  }

  /** What to add up over a tenant's rows: a ledger account, or the amounts of some statuses. */
  datatype Measure = OnAccount(account: Account) | Amounts(direction: Direction, statuses: set<Status>)

  function RowPart(t: Txn, tenant: TenantId, m: Measure): int
  {
    if t.tenant != tenant then 0
    else
      match m
      case OnAccount(account) => Share(t, account)
      case Amounts(direction, statuses) => if t.direction == direction && t.status in statuses then t.amount else 0
  }

  ghost function SumRows(txns: map<TxnId, Txn>, tenant: TenantId, m: Measure): int
    decreases |txns|
  {
    if txns == map[] then 0
    else
      var id :| id in txns;
      RowPart(txns[id], tenant, m) + SumRows(txns - {id}, tenant, m)
  }

  /** A row may be taken out in any order. */
  lemma {:induction false} SumRowsOut(txns: map<TxnId, Txn>, id: TxnId, tenant: TenantId, m: Measure)
    requires id in txns
    ensures SumRows(txns, tenant, m) == RowPart(txns[id], tenant, m) + SumRows(txns - {id}, tenant, m)
    decreases |txns|
  {
    var first: TxnId :| first in txns
      && SumRows(txns, tenant, m) == RowPart(txns[first], tenant, m) + SumRows(txns - {first}, tenant, m);
    if first != id {
      SumRowsOut(txns - {first}, id, tenant, m);
      SumRowsOut(txns - {id}, first, tenant, m);
      assert txns - {first} - {id} == txns - {id} - {first};
    }
  }

  lemma SomeEntry(ledger: seq<Entry>)
    requires ledger != []
    ensures exists e :: e in ledger
  {
    assert ledger[0] in ledger;
  }

  /** Every account of every tenant, recomputed from the entries, is the table's sum. */
  lemma {:induction false} BalanceIsTable(txns: map<TxnId, Txn>, ledger: seq<Entry>, tenant: TenantId, account: Account)
    requires JournalInv(txns, ledger)
    ensures Balance(ledger, tenant, account) == SumRows(txns, tenant, OnAccount(account))
    decreases |txns|
  {
    if txns == map[] {
      if ledger != [] {
        SomeEntry(ledger);
        assert false;
      }
    } else {
      var id :| id in txns;
      var rest := Without(ledger, id);
      WithoutMembers(ledger, id);
      forall j | j in txns - {id} ensures Of(rest, j) == Journal(j, (txns - {id})[j]) {
        WithoutKeepsOthers(ledger, id, j);
      }
      BalanceIsTable(txns - {id}, rest, tenant, account);
      SumForSplit(ledger, id, tenant, account, Credit);
      SumForSplit(ledger, id, tenant, account, Debit);
      JournalShare(id, txns[id], tenant, account);
      SumRowsOut(txns, id, tenant, OnAccount(account));
    }
  }

  /** An account read off plain sums of amounts by direction and status. */
  ghost function ByStatus(txns: map<TxnId, Txn>, tenant: TenantId, account: Account): int
  {
    var collected := SumRows(txns, tenant, Amounts(Inbound, {Settled}));
    match account
    case TenantBalance => collected - SumRows(txns, tenant, Amounts(Outbound, {Pending, Processing, Settled}))
    case PendingSettlement => -collected
    case PayoutReserved => SumRows(txns, tenant, Amounts(Outbound, {Pending, Processing}))
    case PayoutsPaid => SumRows(txns, tenant, Amounts(Outbound, {Settled}))
  }

  lemma {:induction false} SumRowsDifference(
    txns: map<TxnId, Txn>, tenant: TenantId, m: Measure, plus: Measure, minus: Measure)
    requires forall id | id in txns ::
               RowPart(txns[id], tenant, m) == RowPart(txns[id], tenant, plus) - RowPart(txns[id], tenant, minus)
    ensures SumRows(txns, tenant, m) == SumRows(txns, tenant, plus) - SumRows(txns, tenant, minus)
    decreases |txns|
  {
    if txns != map[] {
      var id :| id in txns;
      SumRowsOut(txns, id, tenant, m);
      SumRowsOut(txns, id, tenant, plus);
      SumRowsOut(txns, id, tenant, minus);
      SumRowsDifference(txns - {id}, tenant, m, plus, minus);
    }
  }

  lemma {:induction false} SumRowsNone(txns: map<TxnId, Txn>, tenant: TenantId, d: Direction)
    ensures SumRows(txns, tenant, Amounts(d, {})) == 0
    decreases |txns|
  {
    if txns != map[] {
      var id :| id in txns;
      SumRowsOut(txns, id, tenant, Amounts(d, {}));
      SumRowsNone(txns - {id}, tenant, d);
    }
  }

  lemma {:induction false} AccountByStatus(txns: map<TxnId, Txn>, tenant: TenantId, account: Account)
    requires forall id | id in txns :: txns[id].status != Reversed
    ensures SumRows(txns, tenant, OnAccount(account)) == ByStatus(txns, tenant, account)
  {
    SumRowsNone(txns, tenant, Outbound);
    var none := Amounts(Outbound, {});
    var collected := Amounts(Inbound, {Settled});
    match account
    case TenantBalance =>
      SumRowsDifference(txns, tenant, OnAccount(account), collected, Amounts(Outbound, {Pending, Processing, Settled}));
    case PendingSettlement => SumRowsDifference(txns, tenant, OnAccount(account), none, collected);
    case PayoutReserved =>
      SumRowsDifference(txns, tenant, OnAccount(account), Amounts(Outbound, {Pending, Processing}), none);
    case PayoutsPaid => SumRowsDifference(txns, tenant, OnAccount(account), Amounts(Outbound, {Settled}), none);
  }

  /** collected = spendable + reserved + paid, on the table. */
  lemma {:induction false} RowsConserve(txns: map<TxnId, Txn>, tenant: TenantId)
    ensures SumRows(txns, tenant, OnAccount(TenantBalance)) + SumRows(txns, tenant, OnAccount(PayoutReserved))
          + SumRows(txns, tenant, OnAccount(PayoutsPaid)) == -SumRows(txns, tenant, OnAccount(PendingSettlement))
    decreases |txns|
  {
    if txns != map[] {
      var id :| id in txns;
      forall m: Measure { SumRowsOut(txns, id, tenant, m); }
      RowsConserve(txns - {id}, tenant);
    }
  }

  /**
   The books of one tenant close: money collected is spendable, reserved or paid out,
   and total debits equal total credits.
   */
  lemma {:induction false} BooksClose(txns: map<TxnId, Txn>, ledger: seq<Entry>, tenant: TenantId)
    requires JournalInv(txns, ledger)
    ensures -Balance(ledger, tenant, PendingSettlement)
         == Balance(ledger, tenant, TenantBalance) + Balance(ledger, tenant, PayoutReserved)
            + Balance(ledger, tenant, PayoutsPaid)
    ensures SideTotal(ledger, tenant, Debit) == SideTotal(ledger, tenant, Credit)
  {
    forall account: Account { BalanceIsTable(txns, ledger, tenant, account); }
    RowsConserve(txns, tenant);
  }
}
