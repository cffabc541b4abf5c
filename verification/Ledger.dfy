/**
 The double-entry ledger: accounts, entries, the balanced pairs that make up a
 collection and a payout, and the computed balance. A balance is never stored;
 it is always recomputed from the entries.
 */
module Ledger {

  type TenantId = nat
  type TxnId = nat

  datatype Account = TenantBalance | PendingSettlement | PayoutReserved | PayoutsPaid

  datatype Side = Debit | Credit

  datatype Entry = Entry(tenant: TenantId, txn: TxnId, account: Account, side: Side, amount: int)

  /** Debits `from`, credits `to`, same amount. */
  function Pair(tenant: TenantId, txn: TxnId, amount: int, from: Account, to: Account): seq<Entry>
  {
    [Entry(tenant, txn, from, Debit, amount), Entry(tenant, txn, to, Credit, amount)]
  }

  function ReservationEntries(tenant: TenantId, txn: TxnId, amount: int): seq<Entry>
  {
    Pair(tenant, txn, amount, TenantBalance, PayoutReserved)
  }

  function SettlementEntries(tenant: TenantId, txn: TxnId, amount: int): seq<Entry>
  {
    Pair(tenant, txn, amount, PayoutReserved, PayoutsPaid)
  }

  function ReleaseEntries(tenant: TenantId, txn: TxnId, amount: int): seq<Entry>
  {
    Pair(tenant, txn, amount, PayoutReserved, TenantBalance)
  }

  /** A settled collection: the credit is written first, as the state machine does. */
  function CollectionEntries(tenant: TenantId, txn: TxnId, amount: int): seq<Entry>
  {
    [Entry(tenant, txn, TenantBalance, Credit, amount), Entry(tenant, txn, PendingSettlement, Debit, amount)]
  }

  function Part(e: Entry, tenant: TenantId, account: Account, side: Side): int
  {
    if e.tenant == tenant && e.account == account && e.side == side then e.amount else 0
  }

  /** The grouped SQL sum: all amounts on one side of one account of one tenant. */
  function SumFor(es: seq<Entry>, tenant: TenantId, account: Account, side: Side): int
  {
    if es == [] then 0 else Part(es[0], tenant, account, side) + SumFor(es[1..], tenant, account, side)
  }

  /** Credits minus debits; on `TenantBalance` this is the spendable balance. */
  function Balance(es: seq<Entry>, tenant: TenantId, account: Account): int
  {
    SumFor(es, tenant, account, Credit) - SumFor(es, tenant, account, Debit)
  }

  /** Everything on one side of a tenant's books, whatever the account. */
  function SideTotal(es: seq<Entry>, tenant: TenantId, side: Side): int
  {
    SumFor(es, tenant, TenantBalance, side) + SumFor(es, tenant, PendingSettlement, side)
    + SumFor(es, tenant, PayoutReserved, side) + SumFor(es, tenant, PayoutsPaid, side)
  }

  /** The entries of one transaction row, in the order they were written. */
  function Of(es: seq<Entry>, txn: TxnId): seq<Entry>
  {
    if es == [] then []
    else (if es[0].txn == txn then [es[0]] else []) + Of(es[1..], txn)
  }

  /** The ledger with one row's entries taken out. */
  function Without(es: seq<Entry>, txn: TxnId): seq<Entry>
  {
    if es == [] then []
    else (if es[0].txn == txn then [] else [es[0]]) + Without(es[1..], txn)
  }

  lemma {:induction false} SumForConcat(a: seq<Entry>, b: seq<Entry>, tenant: TenantId, account: Account, side: Side)
    ensures SumFor(a + b, tenant, account, side) == SumFor(a, tenant, account, side) + SumFor(b, tenant, account, side)
  {
    if a == [] {
      assert a + b == b;
    } else {
      assert (a + b)[1..] == a[1..] + b;
      SumForConcat(a[1..], b, tenant, account, side);
    }
  }

  lemma BalanceConcat(a: seq<Entry>, b: seq<Entry>, tenant: TenantId, account: Account)
    ensures Balance(a + b, tenant, account) == Balance(a, tenant, account) + Balance(b, tenant, account)
  {
    SumForConcat(a, b, tenant, account, Credit);
    SumForConcat(a, b, tenant, account, Debit);
  }

  lemma SumForTwo(es: seq<Entry>, tenant: TenantId, account: Account)
    requires |es| == 2
    ensures SumFor(es, tenant, account, Debit)
         == Part(es[0], tenant, account, Debit) + Part(es[1], tenant, account, Debit)
    ensures SumFor(es, tenant, account, Credit)
         == Part(es[0], tenant, account, Credit) + Part(es[1], tenant, account, Credit)
  {
    var rest := es[1..];
    assert rest[1..] == [];
    assert SumFor(rest, tenant, account, Debit) == Part(es[1], tenant, account, Debit);
    assert SumFor(rest, tenant, account, Credit) == Part(es[1], tenant, account, Credit);
  }

  /** Appending one row's pair moves exactly `amount` from one account to another. */
  lemma PairBalance(
    tenant: TenantId, txn: TxnId, amount: int, from: Account, to: Account, t: TenantId, account: Account)
    ensures Balance(Pair(tenant, txn, amount, from, to), t, account)
         == (if t == tenant && account == to then amount else 0)
            - (if t == tenant && account == from then amount else 0)
  {
    SumForTwo(Pair(tenant, txn, amount, from, to), t, account);
  }

  lemma CollectionBalance(tenant: TenantId, txn: TxnId, amount: int, t: TenantId, account: Account)
    ensures Balance(CollectionEntries(tenant, txn, amount), t, account)
         == if t != tenant then 0
            else if account == TenantBalance then amount
            else if account == PendingSettlement then -amount else 0
  {
    SumForTwo(CollectionEntries(tenant, txn, amount), t, account);
  }

  lemma {:induction false} OfConcat(a: seq<Entry>, b: seq<Entry>, txn: TxnId)
    ensures Of(a + b, txn) == Of(a, txn) + Of(b, txn)
  {
    if a == [] {
      assert a + b == b;
    } else {
      assert (a + b)[1..] == a[1..] + b;
      OfConcat(a[1..], b, txn);
      var head := if a[0].txn == txn then [a[0]] else [];
      assert head + (Of(a[1..], txn) + Of(b, txn)) == (head + Of(a[1..], txn)) + Of(b, txn);
    }
  }

  /** A batch that belongs to one row is seen whole by that row and not at all by others. */
  lemma {:induction false} OfUniform(es: seq<Entry>, owner: TxnId, txn: TxnId)
    requires forall e | e in es :: e.txn == owner
    ensures Of(es, txn) == if txn == owner then es else []
  {
    if es != [] {
      OfUniform(es[1..], owner, txn);
    }
  }

  lemma {:induction false} OfAbsent(es: seq<Entry>, txn: TxnId)
    requires forall e | e in es :: e.txn != txn
    ensures Of(es, txn) == []
  {
    if es != [] {
      OfAbsent(es[1..], txn);
    }
  }

  /** One row's entries and the rest of the ledger add up to the ledger. */
  lemma {:induction false} SumForSplit(es: seq<Entry>, txn: TxnId, tenant: TenantId, account: Account, side: Side)
    ensures SumFor(es, tenant, account, side)
         == SumFor(Of(es, txn), tenant, account, side) + SumFor(Without(es, txn), tenant, account, side)
  {
    if es != [] {
      SumForSplit(es[1..], txn, tenant, account, side);
      if es[0].txn == txn {
        assert Of(es, txn)[1..] == Of(es[1..], txn);
        assert Without(es, txn) == Without(es[1..], txn);
      } else {
        assert Of(es, txn) == Of(es[1..], txn);
        assert Without(es, txn)[1..] == Without(es[1..], txn);
      }
    }
  }

  lemma {:induction false} WithoutKeepsOthers(es: seq<Entry>, txn: TxnId, other: TxnId)
    requires txn != other
    ensures Of(Without(es, txn), other) == Of(es, other)
  {
    if es != [] {
      WithoutKeepsOthers(es[1..], txn, other);
      if es[0].txn == txn {
        assert Without(es, txn) == Without(es[1..], txn);
      } else {
        assert Without(es, txn)[1..] == Without(es[1..], txn);
      }
    }
  }

  lemma {:induction false} WithoutMembers(es: seq<Entry>, txn: TxnId)
    ensures forall e :: e in Without(es, txn) <==> e in es && e.txn != txn
  {
    if es != [] {
      WithoutMembers(es[1..], txn);
      assert es == [es[0]] + es[1..];
    }
  }
}
