/**
 A run of the workers, from empty tables, in which a payout's failure result arrives before
 its initiator's own write: why payouts need E1.
 */
module Race {
  import opened Ledger
  import opened Store
  import opened Bank
  import opened Protocol
  import opened Safety
  import opened Interleaving
  import opened Runs
  import opened Solo

  const COLLECT := C2bRecord(1, 7, Paybill, 100, "QA1")
  const RESERVE := Reserve(2, 7, 100, None, "oc-2")
  const FAILURE := Fail(2, Outbound, Callback)

  /** What the initiator may finish with. */
  predicate Ending(last: Op)
  {
    last == Accept(2) || last == Release(2)
  }

  function RaceLabels(last: Op): (r: seq<Label>)
    ensures |r| == 6
  {
    [Config(map[7 := false]), Commit(1, COLLECT, false), Commit(0, RESERVE, false), Send(0),
     Commit(1, FAILURE, false), Commit(0, last, false)]
  }

  function EmptyDb(tenants: map<TenantId, bool>): Db
  {
    Db(tenants, map[], [], map[], [], map[])
  }

  function CollectedDb(): Db
  {
    Db(map[7 := false], map[1 := C2bRow(COLLECT)], CollectionEntries(7, 1, 100), map[1 := Confirmed(100)], [], map[])
  }

  /** The tables once the payout exists: its status, and what was written after its reservation. */
  function PayoutDb(status: Status, since: seq<Entry>): Db
  {
    CollectedDb().(txns := map[1 := C2bRow(COLLECT), 2 := PayoutRow(RESERVE).(status := status)],
                   ledger := CollectionEntries(7, 1, 100) + ReservationEntries(7, 2, 100) + since)
  }

  function LastDb(last: Op): Db
  {
    var released := ReleaseEntries(7, 2, 100);
    if last.Accept? then PayoutDb(Processing, released) else PayoutDb(Failed, released + released)
  }

  function RaceStates(last: Op): (r: seq<State>)
    ensures |r| == 7
  {
    var idle := [NoCall, NoCall];
    var calling := [Call(2, true, true), NoCall];
    var sent := [Request(2, 1)];
    [State(EmptyDb(map[]), idle, []),
     State(EmptyDb(map[7 := false]), idle, []),
     State(CollectedDb(), idle, []),
     State(PayoutDb(Pending, []), [Call(2, true, false), NoCall], []),
     State(PayoutDb(Pending, []), calling, sent),
     State(PayoutDb(Failed, ReleaseEntries(7, 2, 100)), calling, sent),
     State(LastDb(last), idle, sent)]
  }

  predicate StepAt(last: Op, i: nat)
    requires i < 6
  {
    Step(RaceStates(last)[i], RaceLabels(last)[i], RaceStates(last)[i + 1])
  }

  lemma Collects(last: Op)
    ensures Init(RaceStates(last)[0]) && StepAt(last, 0) && StepAt(last, 1)
  {
    assert [] + CollectionEntries(7, 1, 100) == CollectionEntries(7, 1, 100);
  }

  lemma ReserveExec()
    ensures Exec(CollectedDb(), RESERVE, false) == Done(PayoutDb(Pending, []))
  {
    CollectionBalance(7, 1, 100, 7, TenantBalance);
    var es := CollectionEntries(7, 1, 100) + ReservationEntries(7, 2, 100);
    assert es + [] == es;
  }

  lemma Reserves(last: Op)
    ensures StepAt(last, 2)
  {
    ReserveExec();
  }

  lemma Sends(last: Op)
    ensures StepAt(last, 3)
  {
  }

  lemma FailureExec()
    ensures Exec(PayoutDb(Pending, []), FAILURE, false) == Done(PayoutDb(Failed, ReleaseEntries(7, 2, 100)))
  {
    var es := CollectionEntries(7, 1, 100) + ReservationEntries(7, 2, 100);
    assert es + [] == es;
    var before, after := PayoutDb(Pending, []), PayoutDb(Failed, ReleaseEntries(7, 2, 100));
    assert before.txns[2 := before.txns[2].(status := Failed)] == after.txns;
    assert before.ledger + ReleaseEntries(7, 2, 100) == after.ledger;
    assert before.outbox + [] == after.outbox;
  }

  lemma Fails(last: Op)
    ensures StepAt(last, 4)
  {
    FailureExec();
  }

  lemma Ends(last: Op)
    requires Ending(last)
    ensures StepAt(last, 5)
  {
    var es, r := CollectionEntries(7, 1, 100) + ReservationEntries(7, 2, 100), ReleaseEntries(7, 2, 100);
    assert es + r + r == es + (r + r);
  }

  lemma BalanceOf(status: Status, since: seq<Entry>, account: Account)
    ensures Balance(PayoutDb(status, since).ledger, 7, account)
         == (match account case PendingSettlement => -100 case PayoutReserved => 100 case _ => 0)
            + Balance(since, 7, account)
  {
    CollectionBalance(7, 1, 100, 7, account);
    PairBalance(7, 2, 100, TenantBalance, PayoutReserved, 7, account);
    BalanceConcat(CollectionEntries(7, 1, 100), ReservationEntries(7, 2, 100), 7, account);
    BalanceConcat(CollectionEntries(7, 1, 100) + ReservationEntries(7, 2, 100), since, 7, account);
  }

  /** Spendable, then reserved. */
  lemma LastBalances(last: Op)
    requires Ending(last)
    ensures Balance(LastDb(last).ledger, 7, TenantBalance) == (if last.Accept? then 100 else 200)
    ensures Balance(LastDb(last).ledger, 7, PayoutReserved) == (if last.Accept? then 0 else -100)
  {
    var r := ReleaseEntries(7, 2, 100);
    var since := if last.Accept? then r else r + r;
    var status := if last.Accept? then Processing else Failed;
    BalanceOf(status, since, TenantBalance);
    BalanceOf(status, since, PayoutReserved);
    PairBalance(7, 2, 100, PayoutReserved, TenantBalance, 7, TenantBalance);
    PairBalance(7, 2, 100, PayoutReserved, TenantBalance, 7, PayoutReserved);
    BalanceConcat(r, r, 7, TenantBalance);
    BalanceConcat(r, r, 7, PayoutReserved);
  }

  predicate AloneAt(last: Op, i: nat)
    requires i < 6
  {
    Standalone(RaceStates(last)[i], RaceLabels(last)[i])
  }

  lemma CollectStandsAlone(last: Op)
    ensures AloneAt(last, 0) && AloneAt(last, 1)
  {
  }

  lemma ReserveStandsAlone(last: Op)
    ensures AloneAt(last, 2) && AloneAt(last, 3)
  {
  }

  lemma FailureStandsAlone(last: Op)
    ensures AloneAt(last, 4)
  {
  }

  lemma EndingStandsAlone(last: Op)
    requires Ending(last)
    ensures AloneAt(last, 5)
  {
  }

  lemma RaceSteps(last: Op, i: nat)
    requires Ending(last) && i < 6
    ensures StepAt(last, i)
  {
    if i < 2 {
      Collects(last);
    } else if i == 2 {
      Reserves(last);
    } else if i == 3 {
      Sends(last);
    } else if i == 4 {
      Fails(last);
    } else {
      Ends(last);
    }
  }

  lemma RaceStandsAlone(last: Op, i: nat)
    requires Ending(last) && i < 6
    ensures AloneAt(last, i)
  {
    if i < 2 {
      CollectStandsAlone(last);
    } else if i < 4 {
      ReserveStandsAlone(last);
    } else if i == 4 {
      FailureStandsAlone(last);
    } else {
      EndingStandsAlone(last);
    }
  }

  lemma RaceIsBankRun(last: Op)
    requires Ending(last)
    ensures BankRun(RaceStates(last), RaceLabels(last))
    ensures forall i | 0 <= i < 6 :: Standalone(RaceStates(last)[i], RaceLabels(last)[i])
  {
    Collects(last);
    forall i | 0 <= i < 6
      ensures Step(RaceStates(last)[i], RaceLabels(last)[i], RaceStates(last)[i + 1])
      ensures Standalone(RaceStates(last)[i], RaceLabels(last)[i])
    {
      RaceSteps(last, i);
      RaceStandsAlone(last, i);
      assert StepAt(last, i) && AloneAt(last, i);
    }
  }

  /** The run of the bank, with what the theorem needs to know of it. */
  lemma RaceRun(last: Op) returns (ss: seq<State>, ls: seq<Label>)
    requires Ending(last)
    ensures BankRun(ss, ls) && |ls| == 6
    ensures ls[4] == Commit(1, FAILURE, false) && ls[5] == Commit(0, last, false)
    ensures forall i | 0 <= i < 4 :: E1(ss[i], ls[i])
    ensures forall i | 0 <= i < 6 :: Standalone(ss[i], ls[i])
    ensures ss[4].calls == [Call(2, true, true), NoCall] && ss[6].db == LastDb(last)
  {
    RaceIsBankRun(last);
    ss, ls := RaceStates(last), RaceLabels(last);
  }

  lemma {:induction false} FineWhileE1(ss: seq<State>, ls: seq<Label>, k: nat)
    requires BankRun(ss, ls) && k < |ss| && forall i | 0 <= i < k :: E1(ss[i], ls[i])
    ensures Inv(ss[k]) && PayoutInv(ss[k])
  {
    if k == 0 {
      InitInv(ss[0]);
    } else {
      FineWhileE1(ss, ls, k - 1);
      StepKeeps(ss[k - 1], ls[k - 1], ss[k]);
      PayoutStepKeeps(ss[k - 1], ls[k - 1], ss[k]);
    }
  }

  lemma JournalBroken(a: State, b: State, c: State, last: Op)
    requires Step(a, Commit(1, FAILURE, false), b) && Step(b, Commit(0, last, false), c)
    requires FailThen(a.db, 2, false, last).Done? && !Journaled(FailThen(a.db, 2, false, last).value, Outbound)
    ensures !Journaled(c.db, Outbound)
  {
    assert FailThen(a.db, 2, false, last) == Done(c.db);
  }

  lemma RacedIsWrong(a: State, b: State, c: State, last: Op)
    requires Ending(last) && Inv(a) && PayoutInv(a) && a.calls == [Call(2, true, true), NoCall]
    requires Step(a, Commit(1, FAILURE, false), b) && Step(b, Commit(0, last, false), c)
    ensures !Journaled(c.db, Outbound)
  {
    if last.Accept? {
      RacedAccept(a, 0, false);
      JournalBroken(a, b, c, Accept(2));
    } else {
      RacedRelease(a, 0, false);
      JournalBroken(a, b, c, Release(2));
    }
  }

  /** The failure result, read by worker 1 while worker 0 still waits: the one move E1 forbids. */
  lemma FailureIsRead(a: State, b: State) returns (ss: seq<Conc>, ms: seq<Move>, r: nat)
    requires Inv(a) && a.calls == [Call(2, true, true), NoCall]
    requires Step(a, Commit(1, FAILURE, false), b) && Standalone(a, Commit(1, FAILURE, false))
    ensures Leads(Quiet(a), ss, ms, Quiet(b))
    ensures r < |ms| && !E1Move(ss[r], ms[r])
  {
    ss, ms, r := CommitIsRealised(Quiet(a), 1, FAILURE);
    assert Quiet(a).txs[1 := NoTx] == Quiet(b).txs;
    assert Abs(ss[r]).calls[0] == Call(2, true, true);
  }

  /** The three parts of the run in a row: up to the failure, the failure, the initiator's write. */
  lemma RaceIsRealised(ss: seq<State>, ls: seq<Label>, last: Op) returns (cs: seq<Conc>, ms: seq<Move>, r: nat)
    requires BankRun(ss, ls) && |ls| == 6 && forall i | 0 <= i < 6 :: Standalone(ss[i], ls[i])
    requires ls[4] == Commit(1, FAILURE, false) && ss[4].calls == [Call(2, true, true), NoCall]
    ensures ConcRun(cs, ms) && cs[|ms|].db == ss[6].db
    ensures r < |ms| && !E1Move(cs[r], ms[r])
  {
    BankRunInv(ss, ls, 4);
    BankRunInv(ss, ls, 5);
    var before, ns := RunIsRealised(ss, ls, 4);
    var bs, ks, q := FailureIsRead(ss[4], ss[5]);
    var ts, js := StepIsRealised(ss[5], ls[5], ss[6]);
    Joined(Quiet(ss[4]), bs, ks, Quiet(ss[5]), ts, js, Quiet(ss[6]));
    cs, ms, r := ReadInside(Quiet(ss[0]), before, ns, Quiet(ss[4]), bs + ts[1..], ks + js, Quiet(ss[6]), q);
  }

  /** A forbidden move of the second part of a path is one of the whole path. */
  lemma ReadInside(
    a: Conc, ss: seq<Conc>, ms: seq<Move>, b: Conc, ts: seq<Conc>, ns: seq<Move>, c: Conc, q: nat)
    returns (cs: seq<Conc>, ks: seq<Move>, r: nat)
    requires Leads(a, ss, ms, b) && Leads(b, ts, ns, c) && ConcInit(a)
    requires q < |ns| && !E1Move(ts[q], ns[q])
    ensures ConcRun(cs, ks) && cs[|ks|] == c && r < |ks| && !E1Move(cs[r], ks[r])
  {
    Joined(a, ss, ms, b, ts, ns, c);
    cs, ks, r := ss + ts[1..], ms + ns, |ms| + q;
    assert cs[r] == ts[q] && ks[r] == ns[q];
  }

  /**
   E1 can fail. In this interleaved run from empty tables the failure result is read while
   the initiator is still waiting. If the initiator then accepts, the payout is PROCESSING
   with nothing reserved for it; if it releases, the tenant can spend twice what was ever
   collected.
   */
  lemma E1CanFail(last: Op) returns (cs: seq<Conc>, ms: seq<Move>, r: nat)
    requires Ending(last)
    ensures ConcRun(cs, ms) && r < |ms| && !E1Move(cs[r], ms[r])
    ensures cs[|ms|].db == LastDb(last) && !Journaled(cs[|ms|].db, Outbound)
    ensures Balance(cs[|ms|].db.ledger, 7, TenantBalance) == (if last.Accept? then 100 else 200)
    ensures Balance(cs[|ms|].db.ledger, 7, PayoutReserved) == (if last.Accept? then 0 else -100)
  {
    var ss, ls := RaceRun(last);
    FineWhileE1(ss, ls, 4);
    RacedIsWrong(ss[4], ss[5], ss[6], last);
    LastBalances(last);
    cs, ms, r := RaceIsRealised(ss, ls, last);
  }
}
