/**
 Escalation step by step. A pass checks the flag, asks Daraja, saves the flag and alerts,
 with other commits in between; and nothing keeps a second pass from starting meanwhile.
 */
module Passes {
  import opened Ledger
  import opened Store
  import opened Bank
  import opened Protocol
  import opened Handlers
  import opened Escalation

  /** Where a pass is with the payout it is at. */
  datatype Phase = Idle | Checked(id: TxnId) | Asking(id: TxnId) | Asked(id: TxnId) | Saved(id: TxnId)

  /** The tables and alerts, and every running pass. */
  datatype Floor = Floor(desk: Desk, works: seq<Phase>)

  /**
   `Check` reads the flag, `Look` whether a query is in flight, `Answer` stores the query
   Daraja accepted, if it did, `Save` writes the flag and `Alert` tells a human.
   */
  datatype Act =
    | Check(w: nat, id: TxnId)
    | Look(w: nat)
    | Answer(w: nat, query: Option<string>)
    | Save(w: nat, saved: bool)
    | Alert(w: nat, sent: bool)
    | Die(w: nat)
    | Other(input: Input)

  /** The check lets the pass go on. */
  predicate GoesOn(f: Floor, w: nat, id: TxnId)
  {
    w < |f.works| && f.works[w] == Idle && id in f.desk.db.txns && !Flagged(f.desk.db, id)
  }

  function Stored(db: Db, id: TxnId, query: Option<string>): Db
  {
    if query.None? || query.value in db.queries then db else db.(queries := db.queries[query.value := Query(id, true)])
  }

  predicate AsksNothing(db: Db, id: TxnId)
  {
    id !in db.txns || !Truthy(db.txns[id].originator) || InFlight(db, id)
  }

  /** One step; a step of a pass that is not there yet does nothing. */
  ghost function Step1(f: Floor, a: Act): Floor
  {
    var db, alerts, works := f.desk.db, f.desk.alerts, f.works;
    match a
    case Check(w, id) => if GoesOn(f, w, id) then f.(works := works[w := Checked(id)]) else f
    case Look(w) =>
      if w < |works| && works[w].Checked?
      then f.(works := works[w := if AsksNothing(db, works[w].id) then Asked(works[w].id) else Asking(works[w].id)])
      else f
    case Answer(w, query) =>
      if w < |works| && works[w].Asking?
      then Floor(Desk(Stored(db, works[w].id, query), alerts), works[w := Asked(works[w].id)])
      else f
    case Save(w, saved) =>
      if w < |works| && works[w].Asked? then
        if saved
        then Floor(Desk(OrElse(Exec(db, Escalate(works[w].id), false), db), alerts), works[w := Saved(works[w].id)])
        else f.(works := works[w := Idle])
      else f
    case Alert(w, sent) =>
      if w < |works| && works[w].Saved?
      then Floor(Desk(db, if sent then alerts + [works[w].id] else alerts), works[w := Idle])
      else f
    case Die(w) => if w < |works| then f.(works := works[w := Idle]) else f
    case Other(input) => f.(desk := Desk(Handle(db, input), alerts))
  }

  ghost function Steps(f: Floor, acts: seq<Act>): Floor
    decreases |acts|
  {
    if acts == [] then f else Steps(Step1(f, acts[0]), acts[1..])
  }

  lemma StepsCons(f: Floor, a: Act, acts: seq<Act>)
    ensures Steps(f, [a] + acts) == Steps(Step1(f, a), acts)
  {
    assert ([a] + acts)[1..] == acts;
  }

  lemma {:induction false} StepsConcat(f: Floor, a: seq<Act>, b: seq<Act>)
    ensures Steps(f, a + b) == Steps(Steps(f, a), b)
    decreases |a|
  {
    if a == [] {
      assert a + b == b;
    } else {
      assert (a + b)[1..] == a[1..] + b;
      StepsConcat(Step1(f, a[0]), a[1..], b);
    }
  }

  // ---- A pass alone ----

  function AfterCheck(w: nat, fate: Fate): seq<Act>
  {
    [Look(w)] + ([Answer(w, fate.query)] + ([Save(w, fate.saved)] + ([Alert(w, fate.alerted)] + [])))
  }

  function PassActs(w: nat, id: TxnId, fate: Fate): seq<Act>
  {
    [Check(w, id)] + AfterCheck(w, fate)
  }

  lemma FourSteps(f: Floor, a: Act, b: Act, c: Act, d: Act)
    ensures Steps(f, [a] + ([b] + ([c] + ([d] + [])))) == Step1(Step1(Step1(Step1(f, a), b), c), d)
  {
    StepsCons(f, a, [b] + ([c] + ([d] + [])));
    StepsCons(Step1(f, a), b, [c] + ([d] + []));
    StepsCons(Step1(Step1(f, a), b), c, [d] + []);
    StepsCons(Step1(Step1(Step1(f, a), b), c), d, []);
  }

  /** Steps of a pass that is at no payout do nothing. */
  lemma IdleDoesNothing(f: Floor, w: nat, fate: Fate)
    requires w < |f.works| && f.works[w] == Idle
    ensures Steps(f, AfterCheck(w, fate)) == f
  {
    FourSteps(f, Look(w), Answer(w, fate.query), Save(w, fate.saved), Alert(w, fate.alerted));
  }

  /** The query part: look, and store what Daraja accepted. */
  lemma AsksAsAttempt(f: Floor, w: nat, id: TxnId, query: Option<string>)
    requires w < |f.works| && f.works[w] == Checked(id) && id in f.desk.db.txns
    ensures Step1(Step1(f, Look(w)), Answer(w, query))
         == Floor(Desk(AttemptStatusQuery(f.desk.db, id, query), f.desk.alerts), f.works[w := Asked(id)])
  {
  }

  /** The flag and the alert. */
  lemma SavesAndAlerts(f: Floor, w: nat, id: TxnId, saved: bool, alerted: bool)
    requires w < |f.works| && f.works[w] == Asked(id)
    ensures var db, alerts := f.desk.db, f.desk.alerts;
            Step1(Step1(f, Save(w, saved)), Alert(w, alerted))
            == Floor(if saved then Desk(OrElse(Exec(db, Escalate(id), false), db),
                                        if alerted then alerts + [id] else alerts) else f.desk,
                     f.works[w := Idle])
  {
  }

  /** From a passed check to the end. */
  lemma CheckedIsEscalated(f: Floor, w: nat, id: TxnId, fate: Fate)
    requires w < |f.works| && f.works[w] == Checked(id) && id in f.desk.db.txns && !Flagged(f.desk.db, id)
    ensures Steps(f, AfterCheck(w, fate)) == Floor(EscalateOne(f.desk, id, fate), f.works[w := Idle])
  {
    FourSteps(f, Look(w), Answer(w, fate.query), Save(w, fate.saved), Alert(w, fate.alerted));
    AsksAsAttempt(f, w, id, fate.query);
    var asked := Step1(Step1(f, Look(w)), Answer(w, fate.query));
    SavesAndAlerts(asked, w, id, fate.saved, fate.alerted);
    assert asked.works[w := Idle] == f.works[w := Idle];
  }

  /** Undisturbed, the steps are the one-step escalation. */
  lemma AloneIsEscalateOne(f: Floor, w: nat, id: TxnId, fate: Fate)
    requires w < |f.works| && f.works[w] == Idle && id in f.desk.db.txns
    ensures Steps(f, PassActs(w, id, fate)) == Floor(EscalateOne(f.desk, id, fate), f.works)
  {
    StepsCons(f, Check(w, id), AfterCheck(w, fate));
    if Flagged(f.desk.db, id) {
      IdleDoesNothing(f, w, fate);
    } else {
      var checked := Step1(f, Check(w, id));
      CheckedIsEscalated(checked, w, id, fate);
      assert checked.works[w := Idle] == f.works;
    }
  }

  // ---- Passes that do not overlap ----

  predicate Busy(p: Phase, id: TxnId)
  {
    !p.Idle? && p.id == id
  }

  /** No other pass is at the payout a check is about to go on with. */
  predicate Alone(f: Floor, a: Act)
  {
    a.Check? && GoesOn(f, a.w, a.id) ==> forall v | 0 <= v < |f.works| :: !Busy(f.works[v], a.id)
  }

  ghost predicate NoOverlap(f: Floor, acts: seq<Act>)
    decreases |acts|
  {
    acts != [] ==> Alone(f, acts[0]) && NoOverlap(Step1(f, acts[0]), acts[1..])
  }

  /** A pass has not alerted yet, asks only where nothing is in flight, and alerts only for what is flagged. */
  predicate WorkOk(k: Desk, p: Phase)
  {
    !p.Idle? ==>
      && p.id in k.db.txns
      && p.id !in k.alerts
      && (p.Asking? ==> !InFlight(k.db, p.id))
      && (p.Saved? ==> Flagged(k.db, p.id))
  }

  ghost predicate FloorInv(f: Floor)
  {
    && DeskInv(f.desk)
    && (forall v | 0 <= v < |f.works| :: WorkOk(f.desk, f.works[v]))
    && (forall v, w | 0 <= v < w < |f.works| && !f.works[v].Idle? :: !Busy(f.works[w], f.works[v].id))
  }

  lemma CheckKeeps(f: Floor, w: nat, id: TxnId)
    requires FloorInv(f) && Alone(f, Check(w, id))
    ensures FloorInv(Step1(f, Check(w, id)))
  {
  }

  lemma LookKeeps(f: Floor, w: nat)
    requires FloorInv(f)
    ensures FloorInv(Step1(f, Look(w)))
  {
  }

  lemma StoredQueries(db: Db, id: TxnId, query: Option<string>, j: TxnId)
    requires j != id
    ensures InFlight(Stored(db, id, query), j) ==> InFlight(db, j)
  {
    var db' := Stored(db, id, query);
    if InFlight(db', j) {
      var q :| q in db'.queries && db'.queries[q].payout == j && db'.queries[q].open;
      assert q in db.queries && db.queries[q] == db'.queries[q];
    }
  }

  lemma StoredIsOnly(db: Db, id: TxnId, query: Option<string>)
    requires OneOpenQuery(db.queries) && !InFlight(db, id)
    ensures OneOpenQuery(Stored(db, id, query).queries)
  {
    var db' := Stored(db, id, query);
    forall p, q | p in db'.queries && q in db'.queries && p != q && db'.queries[p].open && db'.queries[q].open
      ensures db'.queries[p].payout != db'.queries[q].payout
    {
      if p in db.queries && q in db.queries {
        assert db'.queries[p] == db.queries[p] && db'.queries[q] == db.queries[q];
      }
    }
  }

  lemma AnswerKeeps(f: Floor, w: nat, query: Option<string>)
    requires FloorInv(f)
    ensures FloorInv(Step1(f, Answer(w, query)))
  {
    if w < |f.works| && f.works[w].Asking? {
      var id := f.works[w].id;
      assert WorkOk(f.desk, f.works[w]);
      StoredIsOnly(f.desk.db, id, query);
      var f' := Step1(f, Answer(w, query));
      forall v | 0 <= v < |f'.works| ensures WorkOk(f'.desk, f'.works[v]) {
        assert WorkOk(f.desk, f.works[v]);
        if v != w && f.works[v].Asking? {
          StoredQueries(f.desk.db, id, query, f.works[v].id);
        }
      }
    }
  }

  /** What other commits leave of a pass's situation. */
  lemma WorkStays(k: Desk, db': Db, p: Phase)
    requires WorkOk(k, p) && HandledStay(k.db, db')
    ensures WorkOk(Desk(db', k.alerts), p)
  {
  }

  lemma SaveKeeps(f: Floor, w: nat, saved: bool)
    requires FloorInv(f)
    ensures FloorInv(Step1(f, Save(w, saved)))
  {
    if w < |f.works| && f.works[w].Asked? && saved {
      var id, db := f.works[w].id, f.desk.db;
      assert WorkOk(f.desk, f.works[w]);
      ExecHandledStay(db, Escalate(id), false);
      var f' := Step1(f, Save(w, saved));
      forall v | 0 <= v < |f'.works| ensures WorkOk(f'.desk, f'.works[v]) {
        assert WorkOk(f.desk, f.works[v]);
        WorkStays(f.desk, f'.desk.db, f.works[v]);
      }
    }
  }

  lemma AlertKeeps(f: Floor, w: nat, sent: bool)
    requires FloorInv(f)
    ensures FloorInv(Step1(f, Alert(w, sent)))
  {
    if w < |f.works| && f.works[w].Saved? {
      assert WorkOk(f.desk, f.works[w]);
      var f' := Step1(f, Alert(w, sent));
      forall v | 0 <= v < |f'.works| ensures WorkOk(f'.desk, f'.works[v]) {
        assert WorkOk(f.desk, f.works[v]);
      }
    }
  }

  lemma OtherKeeps(f: Floor, input: Input)
    requires FloorInv(f)
    ensures FloorInv(Step1(f, Other(input)))
  {
    HandleStays(f.desk.db, input);
    var f' := Step1(f, Other(input));
    forall v | 0 <= v < |f'.works| ensures WorkOk(f'.desk, f'.works[v]) {
      assert WorkOk(f.desk, f.works[v]);
      WorkStays(f.desk, f'.desk.db, f.works[v]);
    }
  }

  lemma StepKeepsFloor(f: Floor, a: Act)
    requires FloorInv(f) && Alone(f, a)
    ensures FloorInv(Step1(f, a))
  {
    match a
    case Check(w, id) => CheckKeeps(f, w, id);
    case Look(w) => LookKeeps(f, w);
    case Answer(w, query) => AnswerKeeps(f, w, query);
    case Save(w, saved) => SaveKeeps(f, w, saved);
    case Alert(w, sent) => AlertKeeps(f, w, sent);
    case Die(w) =>
    case Other(input) => OtherKeeps(f, input);
  }

  /**
   If no two passes are ever at one payout at the same time, at most one alert is sent for
   it and at most one status query is open, whatever commits fall between the steps.
   */
  lemma {:induction false} OneAlertPerPayout(f: Floor, acts: seq<Act>)
    requires FloorInv(f) && NoOverlap(f, acts)
    ensures FloorInv(Steps(f, acts)) && DeskInv(Steps(f, acts).desk)
    decreases |acts|
  {
    if acts != [] {
      StepKeepsFloor(f, acts[0]);
      OneAlertPerPayout(Step1(f, acts[0]), acts[1..]);
    }
  }

  // ---- Passes that do ----

  predicate Unsaved(p: Phase, id: TxnId)
  {
    p == Checked(id) || p == Asking(id) || p == Asked(id)
  }

  function Rest(w: nat): seq<Act>
  {
    [Look(w)] + ([Answer(w, None)] + ([Save(w, true)] + ([Alert(w, true)] + [])))
  }

  /** A pass that got past its check ends in an alert, wherever it is. */
  lemma RestAlerts(f: Floor, w: nat, id: TxnId)
    requires w < |f.works| && Unsaved(f.works[w], id)
    ensures var f' := Steps(f, Rest(w));
            f'.desk.alerts == f.desk.alerts + [id] && f'.works == f.works[w := Idle]
  {
    FourSteps(f, Look(w), Answer(w, None), Save(w, true), Alert(w, true));
  }

  predicate NoChecks(acts: seq<Act>)
  {
    forall a | a in acts :: !a.Check?
  }

  /** Two passes past their checks of one payout may both alert. */
  lemma OverlapAlertsTwice(f: Floor, v: nat, w: nat, id: TxnId)
    requires v < |f.works| && w < |f.works| && v != w
    requires Unsaved(f.works[v], id) && Unsaved(f.works[w], id)
    ensures NoChecks(Rest(v) + Rest(w))
    ensures Steps(f, Rest(v) + Rest(w)).desk.alerts == f.desk.alerts + [id, id]
    ensures !DeskInv(Steps(f, Rest(v) + Rest(w)).desk)
  {
    StepsConcat(f, Rest(v), Rest(w));
    RestAlerts(f, v, id);
    var mid := Steps(f, Rest(v));
    RestAlerts(mid, w, id);
    var alerts := Steps(mid, Rest(w)).desk.alerts;
    assert alerts == f.desk.alerts + [id, id];
    assert alerts[|alerts| - 2] == alerts[|alerts| - 1];
  }

  lemma {:induction false} NoChecksNoOverlap(f: Floor, acts: seq<Act>)
    requires NoChecks(acts)
    ensures NoOverlap(f, acts)
    decreases |acts|
  {
    if acts != [] {
      assert acts[0] in acts;
      NoChecksNoOverlap(Step1(f, acts[0]), acts[1..]);
    }
  }

  /**
   The exact condition. A pass may go on past its check, whatever happens from then on short
   of further checks, if and only if no other pass is at the same payout.
   */
  lemma CheckIsSafeIff(f: Floor, w: nat, id: TxnId)
    requires FloorInv(f) && GoesOn(f, w, id)
    ensures (forall acts | NoChecks(acts) :: DeskInv(Steps(Step1(f, Check(w, id)), acts).desk))
            <==> forall v | 0 <= v < |f.works| :: !Busy(f.works[v], id)
  {
    var f' := Step1(f, Check(w, id));
    if v :| 0 <= v < |f.works| && Busy(f.works[v], id) {
      assert WorkOk(f.desk, f.works[v]);
      OverlapAlertsTwice(f', v, w, id);
    } else {
      CheckKeeps(f, w, id);
      forall acts | NoChecks(acts) ensures DeskInv(Steps(f', acts).desk) {
        NoChecksNoOverlap(f', acts);
        OneAlertPerPayout(f', acts);
      }
    }
  }

  /** Two passes that both look before either has stored its query leave two queries open. */
  lemma OverlapAsksTwice(f: Floor, v: nat, w: nat, id: TxnId, q: string, r: string)
    requires v < |f.works| && w < |f.works| && v != w
    requires f.works[v] == Asking(id) && f.works[w] == Asking(id)
    requires q != r && q !in f.desk.db.queries && r !in f.desk.db.queries
    ensures !OneOpenQuery(Step1(Step1(f, Answer(v, Some(q))), Answer(w, Some(r))).desk.db.queries)
  {
    var queries := Step1(Step1(f, Answer(v, Some(q))), Answer(w, Some(r))).desk.db.queries;
    assert queries[q] == Query(id, true) && queries[r] == Query(id, true);
  }

  /** Such passes there are: two that start on a stuck payout no one has asked about yet. */
  lemma TwoPassesBothAsk(f: Floor, v: nat, w: nat, id: TxnId)
    requires v != w && GoesOn(f, v, id) && GoesOn(f, w, id) && !AsksNothing(f.desk.db, id)
    ensures var f' := Step1(Step1(Step1(Step1(f, Check(v, id)), Check(w, id)), Look(v)), Look(w));
            f'.works[v] == Asking(id) && f'.works[w] == Asking(id) && f'.desk == f.desk
  {
  }
}
