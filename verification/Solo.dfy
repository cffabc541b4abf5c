/**
 The converse of refinement: what the atomic bank does, a worker that is not disturbed can
 carry out step by step. So the interleaved runs are not fewer than the code allows.
 */
module Solo {
  import opened Ledger
  import opened Store
  import opened Bank
  import opened Protocol
  import opened Safety
  import opened Interleaving
  import opened Runs

  ghost predicate Path(ss: seq<Conc>, ms: seq<Move>)
  {
    && |ss| == |ms| + 1
    && forall i | 0 <= i < |ms| :: Next(ss[i], ms[i], ss[i + 1])
  }

  /** A path that leads from `a` to `b`. */
  ghost predicate Leads(a: Conc, ss: seq<Conc>, ms: seq<Move>, b: Conc)
  {
    Path(ss, ms) && ss[0] == a && ss[|ms|] == b
  }

  lemma OneMove(a: Conc, m: Move, b: Conc)
    requires Next(a, m, b)
    ensures Leads(a, [a, b], [m], b)
  {
  }

  lemma Joined(a: Conc, ss: seq<Conc>, ms: seq<Move>, b: Conc, ts: seq<Conc>, ns: seq<Move>, c: Conc)
    requires Leads(a, ss, ms, b) && Leads(b, ts, ns, c)
    ensures Leads(a, ss + ts[1..], ms + ns, c)
  {
    var all, moves := ss + ts[1..], ms + ns;
    forall i | 0 <= i < |moves| ensures Next(all[i], moves[i], all[i + 1]) {
      if i >= |ms| {
        assert all[i] == ts[i - |ms|] && all[i + 1] == ts[i - |ms| + 1];
      }
    }
  }

  // ---- One operation, step by step ----

  lemma RecordHasPlan(db: Db, op: Op, hook: bool)
    requires op.MarkDrift? || op.Escalate? || op.Close?
    requires Exec(db, op, hook).Done?
    ensures Plan(db, op, hook).Done?
    ensures Apply(db, Plan(db, op, hook).value) == Some(Exec(db, op, hook).value)
  {
    ApplyOne(db, Plan(db, op, hook).value[0]);
  }

  /** Inserts, settlements, failures and the initiators' writes. */
  lemma TransitionHasPlan(db: Db, op: Op, hook: bool)
    requires AllUnique(db.txns) && Exec(db, op, hook).Done?
    requires !op.MarkDrift? && !op.Escalate? && !op.Close?
    ensures Plan(db, op, hook).Done? && PlanStands(db, op, hook, Plan(db, op, hook).value)
  {
  }

  /** An operation the bank can do has a plan, and the plan does it. */
  lemma ExecHasPlan(db: Db, op: Op, hook: bool)
    requires AllUnique(db.txns) && Exec(db, op, hook).Done?
    ensures Plan(db, op, hook).Done?
    ensures Apply(db, Plan(db, op, hook).value) == Some(Exec(db, op, hook).value)
  {
    if op.MarkDrift? || op.Escalate? || op.Close? {
      RecordHasPlan(db, op, hook);
    } else {
      TransitionHasPlan(db, op, hook);
      var ws := Plan(db, op, hook).value;
      if op.Settle? {
        SettleApplies(db, op, hook, ws);
      } else if op.Fail? {
        FailApplies(db, op, hook, ws);
      } else if IsInitiatorWrite(op) {
        InitiatorApplies(db, op, hook, ws);
      } else {
        InsertApplies(db, op, hook, ws);
      }
    }
  }

  function Buffered(s: Conc, w: nat): Conc
    requires w < |s.txs| && s.txs[w].Writing?
  {
    var tx := s.txs[w];
    s.(txs := s.txs[w := Writing(tx.op, tx.hook, [], tx.done + tx.todo)])
  }

  /** Issuing all planned statements. */
  lemma {:induction false} Statements(s: Conc, w: nat) returns (ss: seq<Conc>, ms: seq<Move>)
    requires w < |s.txs| && s.txs[w].Writing?
    ensures Leads(s, ss, ms, Buffered(s, w))
    decreases |s.txs[w].todo|
  {
    var tx := s.txs[w];
    if tx.todo == [] {
      ss, ms := [s], [];
      assert tx.done + tx.todo == tx.done;
      assert s.txs[w := tx] == s.txs;
    } else {
      var next := s.(txs := s.txs[w := Writing(tx.op, tx.hook, tx.todo[1..], tx.done + [tx.todo[0]])]);
      var ts, ns := Statements(next, w);
      assert tx.done + [tx.todo[0]] + tx.todo[1..] == tx.done + tx.todo;
      assert Buffered(next, w) == Buffered(s, w);
      OneMove(s, Statement(w), next);
      Joined(s, [s, next], [Statement(w)], next, ts, ns, Buffered(s, w));
      ss, ms := [s, next] + ts[1..], [Statement(w)] + ns;
    }
  }

  /** Nobody else is in the way of `op`. */
  ghost predicate Free(s: Conc, w: nat, op: Op)
  {
    && w < |s.txs| == |s.calls| && s.txs[w] == NoTx && CanBegin(s, w, op)
    && forall v | 0 <= v < |s.txs| :: Held(s.txs[v]).Some? ==> Held(s.txs[v]) != LockOf(op)
  }

  /** The state in which the transaction is about to read. */
  function AboutToRead(s: Conc, w: nat, op: Op): Conc
    requires w < |s.txs|
  {
    s.(txs := s.txs[w := if LockOf(op).Some? then Locked(op) else Begun(op)])
  }

  lemma Starts(s: Conc, w: nat, op: Op) returns (ss: seq<Conc>, ms: seq<Move>)
    requires Free(s, w, op)
    ensures Leads(s, ss, ms, AboutToRead(s, w, op))
  {
    var begun := s.(txs := s.txs[w := Begun(op)]);
    OneMove(s, Begin(w, op), begun);
    ss, ms := [s, begun], [Begin(w, op)];
    if LockOf(op).Some? {
      var locked := AboutToRead(s, w, op);
      assert locked == begun.(txs := begun.txs[w := Locked(op)]);
      OneMove(begun, TakeLock(w), locked);
      Joined(s, ss, ms, begun, [begun, locked], [TakeLock(w)], locked);
      ss, ms := ss + [begun, locked][1..], ms + [TakeLock(w)];
    }
  }

  function Committed(s: Conc, w: nat, op: Op): Conc
    requires w < |s.txs| == |s.calls| && Exec(s.db, op, HookOf(s.db, op.id)).Done?
  {
    Conc(Exec(s.db, op, HookOf(s.db, op.id)).value, s.calls[w := CallAfter(op, s.calls[w])],
         s.txs[w := AfterCommit(op)], s.sent)
  }

  /** The state in which all statements were issued. */
  function AboutToCommit(s: Conc, w: nat, op: Op): Conc
    requires w < |s.txs| && Plan(s.db, op, HookOf(s.db, op.id)).Done?
  {
    var hook := HookOf(s.db, op.id);
    s.(txs := s.txs[w := Writing(op, hook, [], Plan(s.db, op, hook).value)])
  }

  lemma ReadsAndWrites(s: Conc, w: nat, op: Op) returns (ss: seq<Conc>, ms: seq<Move>)
    requires Free(s, w, op) && Plan(s.db, op, HookOf(s.db, op.id)).Done?
    ensures Leads(AboutToRead(s, w, op), ss, ms, AboutToCommit(s, w, op))
    ensures ms != [] && ms[0] == Read(w)
  {
    var hook := HookOf(s.db, op.id);
    var start, ws := AboutToRead(s, w, op), Plan(s.db, op, hook).value;
    var writing := start.(txs := start.txs[w := Writing(op, hook, ws, [])]);
    OneMove(start, Read(w), writing);
    var ts, ns := Statements(writing, w);
    assert [] + ws == ws;
    assert Buffered(writing, w) == AboutToCommit(s, w, op);
    Joined(start, [start, writing], [Read(w)], writing, ts, ns, AboutToCommit(s, w, op));
    ss, ms := [start, writing] + ts[1..], [Read(w)] + ns;
  }

  lemma CommitStep(s: Conc, w: nat, op: Op)
    requires Free(s, w, op) && AllUnique(s.db.txns) && Exec(s.db, op, HookOf(s.db, op.id)).Done?
    ensures Plan(s.db, op, HookOf(s.db, op.id)).Done?
    ensures Next(AboutToCommit(s, w, op), CommitTx(w), Committed(s, w, op))
  {
    ExecHasPlan(s.db, op, HookOf(s.db, op.id));
    assert Committed(s, w, op).txs == AboutToCommit(s, w, op).txs[w := AfterCommit(op)];
  }

  /** From the read on. */
  lemma Finishes(s: Conc, w: nat, op: Op) returns (ss: seq<Conc>, ms: seq<Move>)
    requires Free(s, w, op) && AllUnique(s.db.txns) && Exec(s.db, op, HookOf(s.db, op.id)).Done?
    ensures Leads(AboutToRead(s, w, op), ss, ms, Committed(s, w, op))
    ensures ms != [] && ms[0] == Read(w)
  {
    CommitStep(s, w, op);
    var full, end := AboutToCommit(s, w, op), Committed(s, w, op);
    ss, ms := ReadsAndWrites(s, w, op);
    OneMove(full, CommitTx(w), end);
    Joined(AboutToRead(s, w, op), ss, ms, full, [full, end], [CommitTx(w)], end);
    ss, ms := ss + [full, end][1..], ms + [CommitTx(w)];
  }

  /**
   Any operation whose lookups succeed, whose lock is free and which the bank can do, is
   done by begin, lock, read, statements and commit of one worker. `r` is where it reads.
   */
  lemma CommitIsRealised(s: Conc, w: nat, op: Op) returns (ss: seq<Conc>, ms: seq<Move>, r: nat)
    requires Free(s, w, op) && AllUnique(s.db.txns) && Exec(s.db, op, HookOf(s.db, op.id)).Done?
    ensures Leads(s, ss, ms, Committed(s, w, op))
    ensures r < |ms| && ms[r] == Read(w) && ss[r] == AboutToRead(s, w, op)
  {
    var ts, ns := Starts(s, w, op);
    var us, ks := Finishes(s, w, op);
    Joined(s, ts, ns, AboutToRead(s, w, op), us, ks, Committed(s, w, op));
    ss, ms, r := ts + us[1..], ns + ks, |ns|;
  }

  // ---- Whole runs of the bank ----

  /** The bank's state with no transaction open. */
  function Quiet(a: State): Conc
  {
    Conc(a.db, a.calls, seq(|a.calls|, _ => NoTx), a.sent)
  }

  /** Steps the code takes by themselves: a commit's lookups succeed, and nothing has to follow it. */
  predicate Standalone(a: State, l: Label)
  {
    match l
    case Commit(w, op, hook) =>
      w < |a.calls| && CanBegin(Quiet(a), w, op) && hook == HookOf(a.db, op.id) && AfterCommit(op) == NoTx
    case _ => true
  }

  lemma StepIsRealised(a: State, l: Label, b: State) returns (ss: seq<Conc>, ms: seq<Move>)
    requires Inv(a) && Step(a, l, b) && Standalone(a, l)
    ensures Leads(Quiet(a), ss, ms, Quiet(b))
  {
    match l
    case Stutter => ss, ms := [Quiet(a)], [];
    case Commit(w, op, hook) =>
      var r;
      ss, ms, r := CommitIsRealised(Quiet(a), w, op);
      assert Quiet(a).txs[w := NoTx] == Quiet(b).txs;
    case Drop(w) =>
      assert Quiet(a).txs[w := NoTx] == Quiet(b).txs;
      OneMove(Quiet(a), Crash(w), Quiet(b));
      ss, ms := [Quiet(a), Quiet(b)], [Crash(w)];
    case Send(w) =>
      assert Abs(Quiet(a)) == a && Abs(Quiet(b)) == b;
      OneMove(Quiet(a), SendRequest(w), Quiet(b));
      ss, ms := [Quiet(a), Quiet(b)], [SendRequest(w)];
    case Config(tenants) =>
      OneMove(Quiet(a), Reconfigure(tenants), Quiet(b));
      ss, ms := [Quiet(a), Quiet(b)], [Reconfigure(tenants)];
  }

  lemma {:induction false} BankRunInv(ss: seq<State>, ls: seq<Label>, k: nat)
    requires BankRun(ss, ls) && k < |ss|
    ensures Inv(ss[k])
  {
    if k == 0 {
      InitInv(ss[0]);
    } else {
      BankRunInv(ss, ls, k - 1);
      StepKeeps(ss[k - 1], ls[k - 1], ss[k]);
    }
  }

  /**
   Completeness. Every run of the bank whose steps stand alone is the committed view of a
   run of the workers, from empty tables to the same state with no transaction open.
   */
  lemma {:induction false} RunIsRealised(ss: seq<State>, ls: seq<Label>, k: nat)
    returns (cs: seq<Conc>, ms: seq<Move>)
    requires BankRun(ss, ls) && k < |ss|
    requires forall i | 0 <= i < k :: Standalone(ss[i], ls[i])
    ensures ConcRun(cs, ms) && Leads(Quiet(ss[0]), cs, ms, Quiet(ss[k]))
  {
    if k == 0 {
      cs, ms := [Quiet(ss[0])], [];
    } else {
      var bs, ns := RunIsRealised(ss, ls, k - 1);
      BankRunInv(ss, ls, k - 1);
      var ts, ks := StepIsRealised(ss[k - 1], ls[k - 1], ss[k]);
      Joined(Quiet(ss[0]), bs, ns, Quiet(ss[k - 1]), ts, ks, Quiet(ss[k]));
      cs, ms := bs + ts[1..], ns + ks;
    }
  }
}
