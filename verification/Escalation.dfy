/**
 Stuck payouts: each pass may open a status query, flags the payout's reconciliation
 record and alerts a human. Here one payout's escalation is one step, as it is when no other
 pass overlaps it; `Passes` takes it apart.
 */
module Escalation {
  import opened Ledger
  import opened Store
  import opened Bank
  import opened Protocol
  import opened Safety
  import opened Interleaving
  import opened Runs
  import opened Handlers

  /** The tables and the alerts sent for stuck payouts, in order. */
  datatype Desk = Desk(db: Db, alerts: seq<TxnId>)

  /**
   What goes right for one payout: the id Daraja gave the status query, if it took one;
   whether the record could be written; whether the alert went out.
   */
  datatype Fate = Fate(query: Option<string>, saved: bool, alerted: bool)

  predicate InFlight(db: Db, id: TxnId)
  {
    exists q | q in db.queries :: db.queries[q].payout == id && db.queries[q].open
  }

  /** Every failure in here is swallowed. */
  function AttemptStatusQuery(db: Db, id: TxnId, query: Option<string>): Db
    requires id in db.txns
  {
    if !Truthy(db.txns[id].originator) || InFlight(db, id) || query.None? || query.value in db.queries then db
    else db.(queries := db.queries[query.value := Query(id, true)])
  }

  predicate Flagged(db: Db, id: TxnId)
  {
    id in db.records && db.records[id].drift
  }

  function EscalateOne(k: Desk, id: TxnId, fate: Fate): Desk
    requires id in k.db.txns
  {
    if Flagged(k.db, id) then k
    else
      var db1 := AttemptStatusQuery(k.db, id, fate.query);
      if !fate.saved then Desk(db1, k.alerts)
      else Desk(OrElse(Exec(db1, Escalate(id), false), db1), if fate.alerted then k.alerts + [id] else k.alerts)
  }

  datatype Happening = Pass(id: TxnId, fate: Fate) | Incoming(input: Input)

  ghost function Happen(k: Desk, h: Happening): Desk
  {
    match h
    case Pass(id, fate) => if id in k.db.txns then EscalateOne(k, id, fate) else k
    case Incoming(input) => Desk(Handle(k.db, input), k.alerts)
  }

  ghost function HappenAll(k: Desk, hs: seq<Happening>): Desk
    decreases |hs|
  {
    if hs == [] then k else HappenAll(Happen(k, hs[0]), hs[1..])
  }

  /** No payout has two status queries open. */
  ghost predicate OneOpenQuery(queries: map<string, Query>)
  {
    forall p, q | p in queries && q in queries && p != q ::
      queries[p].open && queries[q].open ==> queries[p].payout != queries[q].payout
  }

  /** One alert per payout, only for flagged payouts, and one open status query per payout. */
  ghost predicate DeskInv(k: Desk)
  {
    && (forall i, j | 0 <= i < j < |k.alerts| :: k.alerts[i] != k.alerts[j])
    && (forall id | id in k.alerts :: Flagged(k.db, id))
    && OneOpenQuery(k.db.queries)
  }

  /** No commit ever takes a record away or lowers its flag, or opens a query. */
  predicate RecordsStay(a: Db, b: Db)
  {
    && a.queries == b.queries
    && (forall id | id in a.records :: id in b.records && (a.records[id].drift ==> b.records[id].drift))
    && (forall id | id in a.txns :: id in b.txns)
    && (forall id | id in a.records && id in a.txns && a.txns[id].status != Settled :: b.txns[id].status != Settled)
  }

  lemma ExecRecordsStay(db: Db, op: Op, hook: bool)
    requires Exec(db, op, hook).Done?
    ensures RecordsStay(db, Exec(db, op, hook).value)
  {
    ExecShape(db, op, hook);
    ExecMove(db, op, hook);
  }

  /** What handling any input leaves of records, rows and queries. */
  ghost predicate HandledStay(a: Db, b: Db)
  {
    && RecordsStay(a.(queries := b.queries), b)
    && b.queries.Keys == a.queries.Keys
    && forall q | q in b.queries ::
         b.queries[q].payout == a.queries[q].payout && (b.queries[q].open ==> a.queries[q].open)
  }

  lemma ExecHandledStay(db: Db, op: Op, hook: bool)
    ensures HandledStay(db, OrElse(Exec(db, op, hook), db))
  {
    if Exec(db, op, hook).Done? {
      ExecRecordsStay(db, op, hook);
    }
  }

  lemma ResolveStays(db: Db, id: TxnId, d: Direction, v: Verdict, receipt: Option<string>, source: Source)
    ensures HandledStay(db, OrElse(Resolve(db, id, d, v, receipt, source), db))
  {
    match v
    case Success => ExecHandledStay(db, Settle(id, d, receipt, source), HookOf(db, id));
    case Failure => ExecHandledStay(db, Fail(id, d, source), HookOf(db, id));
    case Unknown =>
  }

  lemma DriftStays(db: Db, id: TxnId, code: Code)
    ensures HandledStay(db, DriftStep(db, id, code))
  {
    var r := Resolve(db, id, Inbound, DriftVerdict(code), None, Drift);
    ResolveStays(db, id, Inbound, DriftVerdict(code), None, Drift);
    if r.Done? {
      ExecHandledStay(r.value, MarkDrift(id), false);
    }
  }

  lemma HandleStays(db: Db, input: Input)
    ensures HandledStay(db, Handle(db, input))
  {
    match input
    case StkResult(checkout, code, receipt) =>
      if FindCheckout(db.txns, checkout).Some? {
        ResolveStays(db, FindCheckout(db.txns, checkout).value, Inbound, StkVerdict(code), StkText(receipt), Callback);
      }
    case B2cResult(originator, code, receipt) =>
      if FindOriginator(db.txns, originator).Some? {
        ResolveStays(db, FindOriginator(db.txns, originator).value, Outbound, B2cVerdict(code),
                     B2cText(receipt), Callback);
      }
    case DriftAnswer(id, code) => DriftStays(db, id, code);
    case Committed(op, hook) => ExecHandledStay(db, op, hook);
    case _ =>
  }

  lemma EscalateKeeps(k: Desk, id: TxnId, fate: Fate)
    requires DeskInv(k) && id in k.db.txns
    ensures DeskInv(EscalateOne(k, id, fate))
    ensures var k' := EscalateOne(k, id, fate);
            k'.db.txns == k.db.txns && k'.db.ledger == k.db.ledger && k'.db.outbox == k.db.outbox
    ensures forall j | j in k.db.records :: j in EscalateOne(k, id, fate).db.records
  {
    var db1 := AttemptStatusQuery(k.db, id, fate.query);
    forall p, q | p in db1.queries && q in db1.queries && p != q && db1.queries[p].open && db1.queries[q].open
      ensures db1.queries[p].payout != db1.queries[q].payout
    {
      if p in k.db.queries && q in k.db.queries {
        assert db1.queries[p] == k.db.queries[p] && db1.queries[q] == k.db.queries[q];
      }
    }
  }

  lemma HappenKeeps(k: Desk, h: Happening)
    requires DeskInv(k)
    ensures DeskInv(Happen(k, h))
  {
    match h
    case Pass(id, fate) =>
      if id in k.db.txns {
        EscalateKeeps(k, id, fate);
      }
    case Incoming(input) => HandleStays(k.db, input);
  }

  /**
   As long as escalations come one after another, whatever callbacks and other commits come
   between them, at most one alert is sent per payout and at most one status query is open.
   */
  lemma {:induction false} OneAlertPerPayout(k: Desk, hs: seq<Happening>)
    requires DeskInv(k)
    ensures DeskInv(HappenAll(k, hs))
    decreases |hs|
  {
    if hs != [] {
      HappenKeeps(k, hs[0]);
      OneAlertPerPayout(Happen(k, hs[0]), hs[1..]);
    }
  }

  // ---- Unknown answers ----

  predicate Unheard(h: Happening)
  {
    h.Incoming? && Noise(h.input)
  }

  function WithoutNoise(hs: seq<Happening>): seq<Happening>
  {
    if hs == [] then []
    else (if Unheard(hs[0]) then [] else [hs[0]]) + WithoutNoise(hs[1..])
  }

  /** Equal but for the bookkeeping of status queries. */
  predicate SameDesk(a: Desk, b: Desk)
  {
    Money(a.db) == Money(b.db) && a.alerts == b.alerts
  }

  /** Escalation passes read the status queries, and still nothing but queries depends on them. */
  lemma HappenIgnoresQueries(a: Desk, b: Desk, h: Happening)
    requires SameDesk(a, b)
    ensures SameDesk(Happen(a, h), Happen(b, h))
  {
    match h
    case Pass(id, fate) =>
      if id in a.db.txns && !Flagged(a.db, id) {
        var a1, b1 := AttemptStatusQuery(a.db, id, fate.query), AttemptStatusQuery(b.db, id, fate.query);
        ExecIgnoresQueries(a1, b1, Escalate(id), false);
      }
    case Incoming(input) => QueriesDoNotMatter(a.db, b.db, input);
  }

  /**
   Unknown answers are stutters: deleting every queue timeout, status-query result or
   timeout and every drift answer taken for no verdict from a run, escalation passes included,
   leaves all rows, ledger entries, records, deliveries and alerts as they were with them.
   */
  lemma {:induction false} NoiseMayBeDeleted(a: Desk, b: Desk, hs: seq<Happening>)
    requires SameDesk(a, b)
    ensures SameDesk(HappenAll(a, hs), HappenAll(b, WithoutNoise(hs)))
    decreases |hs|
  {
    if hs != [] {
      var rest := WithoutNoise(hs[1..]);
      if Unheard(hs[0]) {
        NoiseIsSilent(a.db, hs[0].input);
        assert WithoutNoise(hs) == rest;
        NoiseMayBeDeleted(Happen(a, hs[0]), b, hs[1..]);
      } else {
        HappenIgnoresQueries(a, b, hs[0]);
        assert WithoutNoise(hs)[1..] == rest;
        NoiseMayBeDeleted(Happen(a, hs[0]), Happen(b, hs[0]), hs[1..]);
      }
    }
  }

  // ---- Escalation closes the road to SETTLED ----

  /** A row that carries a record without being settled: settling would collide with the record. */
  predicate Unsettlable(db: Db, id: TxnId)
  {
    id in db.txns && id in db.records && db.txns[id].status != Settled
  }

  lemma UnsettledStays(k: Desk, h: Happening, id: TxnId)
    requires DeskInv(k) && Unsettlable(k.db, id)
    ensures Unsettlable(Happen(k, h).db, id)
  {
    match h
    case Pass(j, fate) =>
      if j in k.db.txns {
        EscalateKeeps(k, j, fate);
      }
    case Incoming(input) => HandleStays(k.db, input);
  }

  /**
   Escalation closes the road to SETTLED: once an unsettled payout carries a record,
   nothing that happens afterwards, a genuine success result included, settles it.
   */
  lemma {:induction false} EscalatedNeverSettles(k: Desk, hs: seq<Happening>, id: TxnId)
    requires DeskInv(k) && Unsettlable(k.db, id)
    ensures Unsettlable(HappenAll(k, hs).db, id)
    decreases |hs|
  {
    if hs != [] {
      UnsettledStays(k, hs[0], id);
      HappenKeeps(k, hs[0]);
      EscalatedNeverSettles(Happen(k, hs[0]), hs[1..], id);
    }
  }

  lemma StepStaysUnsettlable(s: State, l: Label, s': State, id: TxnId)
    requires Step(s, l, s') && Unsettlable(s.db, id)
    ensures Unsettlable(s'.db, id)
  {
    if l.Commit? {
      ExecRecordsStay(s.db, l.op, l.hook);
    }
  }

  lemma RunStepStaysUnsettlable(ss: seq<Conc>, ms: seq<Move>, i: nat, id: TxnId)
    requires ConcRun(ss, ms) && i < |ms| && Unsettlable(ss[i].db, id)
    ensures Unsettlable(ss[i + 1].db, id)
  {
    ConcRunInv(ss, ms, i);
    assert NextAt(ss, ms, i);
    StepRefines(ss[i], ms[i], ss[i + 1]);
    StepStaysUnsettlable(Abs(ss[i]), LabelOf(ss[i], ms[i]), Abs(ss[i + 1]), id);
  }

  /** The same in every interleaved run, whatever the workers do between the two moments. */
  lemma {:induction false} RecordedNeverSettles(ss: seq<Conc>, ms: seq<Move>, i: nat, j: nat, id: TxnId)
    requires ConcRun(ss, ms) && i <= j < |ss|
    requires Unsettlable(ss[i].db, id)
    ensures Unsettlable(ss[j].db, id)
    decreases j - i
  {
    if i < j {
      RecordedNeverSettles(ss, ms, i, j - 1, id);
      RunStepStaysUnsettlable(ss, ms, j - 1, id);
    }
  }
}
