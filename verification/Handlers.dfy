/**
 What each Daraja callback and each drift answer does to the tables: how a result code
 is read on each path, how the row is found, and which answers change nothing.
 */
module Handlers {
  import opened Ledger
  import opened Store
  import opened Bank
  import opened Protocol

  /** A JavaScript number other than NaN; -0 and 0 are equal in every comparison made here. */
  datatype Num = Finite(x: real) | Infinite

  const ZERO := Finite(0.0)

  /**
   A ResultCode as JSON may carry it, absent included. Texts are told apart as far as
   comparisons and `Number()` can: `NumericText` is one that converts to a number.
   An object whose own `toString` and `valueOf` are not functions cannot be converted.
   */
  datatype Code =
    | Missing
    | Null
    | Boolean(b: bool)
    | Numeric(n: Num)
    | EmptyText
    | BlankText
    | NumericText(n: Num)
    | OtherText
    | Array(items: seq<Code>)
    | Object(convertible: bool)

  /** What `String(code)` gives inside an array's `join`; `None` if it throws. */
  function AsText(code: Code): (r: Option<Code>)
    ensures r.Some? ==> r.value in {EmptyText, BlankText, OtherText} || r.value.NumericText?
    decreases code
  {
    match code
    case Missing => Some(EmptyText)
    case Null => Some(EmptyText)
    case Boolean(_) => Some(OtherText)
    case Numeric(n) => Some(NumericText(n))
    case Array(items) =>
      if exists i | 0 <= i < |items| :: AsText(items[i]).None? then None
      else if items == [] then Some(EmptyText)
      else if |items| == 1 then AsText(items[0])
      else Some(OtherText)
    case Object(convertible) => if convertible then Some(OtherText) else None
    case _ => Some(code)
  }

  datatype Conversion = Is(n: Num) | NaN | Throws

  /** `Number(code)`. */
  function AsNumber(code: Code): Conversion
  {
    match code
    case Missing => NaN
    case Null => Is(ZERO)
    case Boolean(b) => Is(Finite(if b then 1.0 else 0.0))
    case Numeric(n) => Is(n)
    case Array(_) =>
      (match AsText(code)
       case None => Throws
       case Some(text) => TextAsNumber(text))
    case Object(convertible) => if convertible then NaN else Throws
    case _ => TextAsNumber(code)
  }

  function TextAsNumber(text: Code): Conversion
  {
    if text == EmptyText || text == BlankText then Is(ZERO)
    else if text.NumericText? then Is(text.n)
    else NaN
  }

  datatype Verdict = Success | Failure | Unknown

  /** STK callbacks compare with `=== 0`. */
  function StkVerdict(code: Code): Verdict
  {
    if code == Numeric(ZERO) then Success else Failure
  }

  /** B2C results compare `Number(code) === 0`; a conversion that throws leaves nothing decided. */
  function B2cVerdict(code: Code): Verdict
  {
    match AsNumber(code)
    case Throws => Unknown
    case c => if c == Is(ZERO) then Success else Failure
  }

  /** The STK status query screens absent codes before converting, and infinities after. */
  function DriftVerdict(code: Code): Verdict
  {
    if code in {Missing, Null, EmptyText} then Unknown
    else
      match AsNumber(code)
      case Is(Finite(x)) => if x == 0.0 then Success else Failure
      case _ => Unknown
  }

  /** A code that says something: a finite number, or text that is one. */
  predicate CarriesVerdict(code: Code)
  {
    (code.Numeric? || code.NumericText?) && code.n.Finite?
  }

  /**
   What a success result holds where its receipt should be. A value that is not text has a
   text form all the same. A parameter list that is not a list of objects cannot be searched.
   */
  datatype Receipt = NoReceipt | Text(text: string) | NotText(text: string, truthy: bool) | Unreadable

  /** The STK callback passes the value on as it is. */
  function StkText(receipt: Receipt): Option<string>
  {
    if receipt.Text? then Some(receipt.text) else None
  }

  /** The B2C callback turns any truthy value into text and drops the others. */
  function B2cText(receipt: Receipt): Option<string>
  {
    if (receipt.Text? && receipt.text != "") || (receipt.NotText? && receipt.truthy) then Some(receipt.text) else None
  }

  /** A success result without a usable receipt value throws or has nothing to do. A failure never looks at it. */
  predicate StkUsable(verdict: Verdict, receipt: Receipt)
  {
    verdict == Success ==> receipt.NoReceipt? || receipt.Text?
  }

  predicate B2cUsable(verdict: Verdict, receipt: Receipt)
  {
    verdict == Success ==> !receipt.Unreadable?
  }

  datatype Input =
    | StkResult(checkout: Option<string>, code: Code, receipt: Receipt)
    | B2cResult(originator: Option<string>, code: Code, receipt: Receipt)
    | B2cTimeout(originator: Option<string>)
    | StatusResult(query: Option<string>, readable: bool)
    | StatusTimeout(query: Option<string>)
    | DriftAnswer(id: TxnId, code: Code)
    | Committed(op: Op, hook: bool)

  ghost function FindCheckout(txns: map<TxnId, Txn>, checkout: Option<string>): Option<TxnId>
  {
    if checkout.Some? && exists id :: id in txns && txns[id].checkout == checkout
    then var id :| id in txns && txns[id].checkout == checkout; Some(id)
    else None
  }

  ghost function FindOriginator(txns: map<TxnId, Txn>, originator: Option<string>): Option<TxnId>
  {
    if Truthy(originator) && exists id :: id in txns && txns[id].originator == originator
    then var id :| id in txns && txns[id].originator == originator; Some(id)
    else None
  }

  /** A transaction that throws rolls back, and its handler's effect is nothing. */
  function OrElse(r: Outcome<Db>, db: Db): Db
  {
    if r.Done? then r.value else db
  }

  function Resolve(db: Db, id: TxnId, d: Direction, verdict: Verdict, receipt: Option<string>, source: Source)
    : Outcome<Db>
  {
    match verdict
    case Success => Exec(db, Settle(id, d, receipt, source), HookOf(db, id))
    case Failure => Exec(db, Fail(id, d, source), HookOf(db, id))
    case Unknown => Done(db)
  }

  function CloseQuery(db: Db, query: Option<string>): Db
  {
    if Truthy(query) && query.value in db.queries
    then db.(queries := db.queries[query.value := db.queries[query.value].(open := false)])
    else db
  }

  /** The drift detector re-checks PROCESSING only in its query, not under the lock. */
  function DriftStep(db: Db, id: TxnId, code: Code): Db
  {
    var r := Resolve(db, id, Inbound, DriftVerdict(code), None, Drift);
    if r.Abort? || DriftVerdict(code) == Unknown then db
    else OrElse(Exec(r.value, MarkDrift(id), false), r.value)
  }

  predicate SeenStuck(db: Db, id: TxnId)
  {
    && id in db.txns && db.txns[id].direction == Inbound
    && db.txns[id].status == Processing && Truthy(db.txns[id].checkout)
  }

  /** A result callback: nothing for an unknown row or a throw, else the transition it calls for. */
  function HandleResult(db: Db, found: Option<TxnId>, d: Direction, verdict: Verdict, receipt: Option<string>): Db
  {
    if found.None? then db else OrElse(Resolve(db, found.value, d, verdict, receipt, Callback), db)
  }

  function HandleStk(db: Db, found: Option<TxnId>, verdict: Verdict, receipt: Receipt): Db
  {
    if !StkUsable(verdict, receipt) then db else HandleResult(db, found, Inbound, verdict, StkText(receipt))
  }

  function HandleB2c(db: Db, found: Option<TxnId>, verdict: Verdict, receipt: Receipt): Db
  {
    if !B2cUsable(verdict, receipt) then db else HandleResult(db, found, Outbound, verdict, B2cText(receipt))
  }

  ghost function Handle(db: Db, input: Input): Db
  {
    match input
    case StkResult(checkout, code, receipt) =>
      HandleStk(db, FindCheckout(db.txns, checkout), StkVerdict(code), receipt)
    case B2cResult(originator, code, receipt) =>
      HandleB2c(db, FindOriginator(db.txns, originator), B2cVerdict(code), receipt)
    case B2cTimeout(_) => db
    case StatusResult(query, readable) => if readable then CloseQuery(db, query) else db
    case StatusTimeout(query) => CloseQuery(db, query)
    case DriftAnswer(id, code) => if SeenStuck(db, id) then DriftStep(db, id, code) else db
    case Committed(op, hook) => OrElse(Exec(db, op, hook), db)
  }

  /** Answers the code takes for no verdict. */
  predicate Noise(input: Input)
  {
    match input
    case B2cTimeout(_) => true
    case StatusResult(_, _) => true
    case StatusTimeout(_) => true
    case DriftAnswer(_, code) => DriftVerdict(code) == Unknown
    case _ => false
  }

  ghost function HandleAll(db: Db, inputs: seq<Input>): Db
    decreases |inputs|
  {
    if inputs == [] then db else HandleAll(Handle(db, inputs[0]), inputs[1..])
  }

  /** Everything but the bookkeeping of status queries. */
  function Money(db: Db): Db
  {
    db.(queries := map[])
  }

  lemma NoiseIsSilent(db: Db, input: Input)
    requires Noise(input)
    ensures Money(Handle(db, input)) == Money(db)
  {
  }

  /** No handler's decision depends on the status-query table. */
  lemma QueriesDoNotMatter(a: Db, b: Db, input: Input)
    requires Money(a) == Money(b)
    ensures Money(Handle(a, input)) == Money(Handle(b, input))
  {
    assert b == a.(queries := b.queries);
    match input
    case StkResult(checkout, code, receipt) =>
      if FindCheckout(a.txns, checkout).Some? {
        ResolveIgnoresQueries(a, b, FindCheckout(a.txns, checkout).value, Inbound, StkVerdict(code),
                              StkText(receipt), Callback);
      }
    case B2cResult(originator, code, receipt) =>
      if FindOriginator(a.txns, originator).Some? {
        ResolveIgnoresQueries(a, b, FindOriginator(a.txns, originator).value, Outbound, B2cVerdict(code),
                              B2cText(receipt), Callback);
      }
    case DriftAnswer(id, code) =>
      ResolveIgnoresQueries(a, b, id, Inbound, DriftVerdict(code), None, Drift);
      var ra := Resolve(a, id, Inbound, DriftVerdict(code), None, Drift);
      var rb := Resolve(b, id, Inbound, DriftVerdict(code), None, Drift);
      if ra.Done? {
        ExecIgnoresQueries(ra.value, rb.value, MarkDrift(id), false);
      }
    case Committed(op, hook) => ExecIgnoresQueries(a, b, op, hook);
    case _ =>
  }

  lemma ResolveIgnoresQueries(
    a: Db, b: Db, id: TxnId, d: Direction, v: Verdict, receipt: Option<string>, source: Source)
    requires Money(a) == Money(b)
    ensures SameMoney(Resolve(a, id, d, v, receipt, source), Resolve(b, id, d, v, receipt, source))
  {
    if v == Success {
      ExecIgnoresQueries(a, b, Settle(id, d, receipt, source), HookOf(a, id));
    } else if v == Failure {
      ExecIgnoresQueries(a, b, Fail(id, d, source), HookOf(a, id));
    }
  }

  /** Same outcome, up to the status queries. */
  predicate SameMoney(a: Outcome<Db>, b: Outcome<Db>)
  {
    a.Done? == b.Done? && (a.Done? ==> Money(a.value) == Money(b.value))
  }

  lemma TransitionIgnoresQueries(a: Db, b: Db, op: Op, hook: bool)
    requires Money(a) == Money(b) && (op.Settle? || op.Fail?)
    ensures SameMoney(Exec(a, op, hook), Exec(b, op, hook))
  {
    assert b == a.(queries := b.queries);
  }

  lemma InsertIgnoresQueries(a: Db, b: Db, op: Op, hook: bool)
    requires Money(a) == Money(b) && (op.Reserve? || op.StkCreate? || op.C2bRecord?)
    ensures SameMoney(Exec(a, op, hook), Exec(b, op, hook))
  {
  }

  lemma ExecIgnoresQueries(a: Db, b: Db, op: Op, hook: bool)
    requires Money(a) == Money(b)
    ensures SameMoney(Exec(a, op, hook), Exec(b, op, hook))
  {
    if op.Settle? || op.Fail? {
      TransitionIgnoresQueries(a, b, op, hook);
    } else if op.Reserve? || op.StkCreate? || op.C2bRecord? {
      InsertIgnoresQueries(a, b, op, hook);
    } else {
      assert b == a.(queries := b.queries);
    }
  }

  /** The lookups find the row that has the id, and there is only one. */
  lemma FoundByCheckout(txns: map<TxnId, Txn>, id: TxnId, checkout: string)
    requires AllUnique(txns) && id in txns && txns[id].checkout == Some(checkout)
    ensures FindCheckout(txns, Some(checkout)) == Some(id)
  {
    var other := FindCheckout(txns, Some(checkout)).value;
    assert id != other ==> !Clash(txns[id], txns[other]);
  }

  lemma FoundByOriginator(txns: map<TxnId, Txn>, id: TxnId, originator: string)
    requires AllUnique(txns) && id in txns && txns[id].originator == Some(originator) && originator != ""
    ensures FindOriginator(txns, Some(originator)) == Some(id)
  {
    var other := FindOriginator(txns, Some(originator)).value;
    assert id != other ==> !Clash(txns[id], txns[other]);
  }

  /** No row but `id` carries the receipt. */
  predicate OnNoOther(txns: map<TxnId, Txn>, id: TxnId, receipt: string)
  {
    forall j | j in txns && j != id :: txns[j].receipt != Some(receipt)
  }

  /** Everything the outbox gained tells of `receipt`. */
  predicate TellsOf(before: Db, after: Db, receipt: Option<string>)
  {
    && before.outbox <= after.outbox
    && forall k | |before.outbox| <= k < |after.outbox| :: after.outbox[k].receipt == receipt
  }

  /**
   The receipt a success callback leaves. A PROCESSING collection settles iff it has no record
   and no other row carries the receipt, and then has it and tells it; a settled one without
   a receipt is given it if it is free and not empty; in any other case nothing changes.
   */
  lemma StkReceiptIsStored(db: Db, id: TxnId, checkout: string, r: string)
    requires AllUnique(db.txns)
    requires id in db.txns && db.txns[id].checkout == Some(checkout) && db.txns[id].direction == Inbound
    ensures var t, db' := db.txns[id], Handle(db, StkResult(Some(checkout), Numeric(ZERO), Text(r)));
            match t.status
            case Processing =>
              if id !in db.records && OnNoOther(db.txns, id, r)
              then && db'.txns == db.txns[id := t.(status := Settled, receipt := Some(r))]
                   && TellsOf(db, db', Some(r))
              else db' == db
            case Settled =>
              if t.receipt in {None, Some("")} && r != "" && OnNoOther(db.txns, id, r)
              then db' == db.(txns := db.txns[id := t.(receipt := Some(r))])
              else db' == db
            case _ => db' == db
  {
    FoundByCheckout(db.txns, id, checkout);
  }

  /** What a B2C success stores: any truthy value as text, and nothing for the others. */
  function StoredText(receipt: Receipt): Option<string>
  {
    match receipt
    case Text(r) => if r == "" then None else Some(r)
    case NotText(r, truthy) => if truthy then Some(r) else None
    case _ => None
  }

  lemma B2cVerdictStores(db: Db, id: TxnId, verdict: Verdict, receipt: Receipt)
    requires id in db.txns && verdict != Unknown
    requires db.txns[id].direction == Outbound && db.txns[id].status == Processing && db.txns[id].receipt == None
    ensures var db' := HandleB2c(db, Some(id), verdict, receipt);
            && id in db'.txns
            && (db'.txns[id].status == Settled ==>
                  db'.txns[id].receipt == StoredText(receipt) && TellsOf(db, db', StoredText(receipt)))
  {
  }

  lemma B2cReceiptIsStored(db: Db, id: TxnId, originator: string, code: Code, receipt: Receipt)
    requires AllUnique(db.txns) && originator != ""
    requires id in db.txns && db.txns[id].originator == Some(originator)
    requires db.txns[id].direction == Outbound && db.txns[id].status == Processing && db.txns[id].receipt == None
    ensures var db' := Handle(db, B2cResult(Some(originator), code, receipt));
            && id in db'.txns
            && (db'.txns[id].status == Settled ==>
                  && db'.txns[id].receipt == (match receipt
                                              case Text(r) => if r == "" then None else Some(r)
                                              case NotText(r, truthy) => if truthy then Some(r) else None
                                              case _ => None)
                  && TellsOf(db, db', db'.txns[id].receipt))
  {
    FoundByOriginator(db.txns, id, originator);
    if B2cVerdict(code) != Unknown {
      B2cVerdictStores(db, id, B2cVerdict(code), receipt);
    }
  }

  /** `Number(code)` is a finite number other than zero. */
  predicate ReadsNonzero(code: Code)
  {
    AsNumber(code).Is? && AsNumber(code).n.Finite? && AsNumber(code) != Is(ZERO)
  }

  /** The codes a status query is answered with when there is no answer. */
  predicate Absent(code: Code)
  {
    code in {Missing, Null, EmptyText}
  }

  /**
   What a B2C result does to a PROCESSING payout, for every code and receipt. It stays
   PROCESSING only if the code cannot be converted, or the code reads as zero and the receipt
   cannot be read or the settlement cannot commit: a result without a usable code moves the
   money, one way or the other.
   */
  lemma B2cResultMoves(db: Db, id: TxnId, originator: Option<string>, code: Code, receipt: Receipt)
    requires FindOriginator(db.txns, originator) == Some(id)
    requires db.txns[id].direction == Outbound && db.txns[id].status == Processing
    ensures var db' := Handle(db, B2cResult(originator, code, receipt));
            var settles := AsNumber(code) == Is(ZERO);
            var commits :=
              !receipt.Unreadable? && id !in db.records && ReceiptFree(db.txns, id, B2cText(receipt));
            && id in db'.txns
            && (db'.txns[id].status == Settled <==> settles && commits)
            && (db'.txns[id].status == Failed <==> !settles && !AsNumber(code).Throws?)
            && (db' == db <==> (settles && !commits) || AsNumber(code).Throws?)
    ensures !CarriesVerdict(code) ==>
              (AsNumber(code) == Is(ZERO) <==>
                 || code in {Null, EmptyText, BlankText, Boolean(false)}
                 || (code.Array? && AsText(code).Some? && TextAsNumber(AsText(code).value) == Is(ZERO)))
  {
  }

  /** Tables on which null settles a payout and a missing code fails it. */
  lemma VerdictlessB2cHappens(code: Code)
    requires code == Null || code == Missing
    ensures var t := Txn(7, B2c, Outbound, Processing, 100, None, Some("oc-1"), None, None);
            var db := Db(map[7 := false], map[1 := t], ReservationEntries(7, 1, 100), map[], [], map[]);
            var db' := Handle(db, B2cResult(Some("oc-1"), code, NoReceipt));
            && !CarriesVerdict(code)
            && 1 in db'.txns && db'.txns[1].status == (if code == Null then Settled else Failed)
  {
    var t := Txn(7, B2c, Outbound, Processing, 100, None, Some("oc-1"), None, None);
    var db := Db(map[7 := false], map[1 := t], ReservationEntries(7, 1, 100), map[], [], map[]);
    assert 1 in db.txns && db.txns[1].originator == Some("oc-1");
    B2cResultMoves(db, 1, Some("oc-1"), code, NoReceipt);
  }

  /** One verdict on a stuck collection. Only a settlement can abort, on an existing record. */
  lemma StuckOutcome(db: Db, id: TxnId, verdict: Verdict, source: Source)
    requires SeenStuck(db, id)
    ensures var r := Resolve(db, id, Inbound, verdict, None, source);
            && (r.Done? <==> (verdict == Success ==> id !in db.records))
            && (r.Done? && verdict != Unknown ==>
                  && id in r.value.txns
                  && r.value.txns[id].status == (if verdict == Success then Settled else Failed))
            && (r.Done? && verdict == Success ==>
                  r.value.ledger == db.ledger + CollectionEntries(db.txns[id].tenant, id, db.txns[id].amount))
  {
  }

  /** A drift answer is the callback with its verdict, but for the drift flag. */
  lemma DriftIsCallback(db: Db, id: TxnId, code: Code)
    requires SeenStuck(db, id)
    ensures var active := Handle(db, DriftAnswer(id, code));
            var same := HandleResult(db, Some(id), Inbound, DriftVerdict(code), None);
            && active.txns == same.txns && active.ledger == same.ledger && active.outbox == same.outbox
            && (active == db <==> same == db)
  {
    StuckOutcome(db, id, DriftVerdict(code), Drift);
    StuckOutcome(db, id, DriftVerdict(code), Callback);
  }

  /**
   What a drift answer does to a stuck collection, for every code. It is silent iff the code
   is absent or does not convert to a finite number, or the settlement it calls for meets an
   existing record.
   */
  lemma DriftMoves(db: Db, id: TxnId, code: Code)
    requires SeenStuck(db, id)
    ensures var db' := Handle(db, DriftAnswer(id, code));
            var settles := !Absent(code) && AsNumber(code) == Is(ZERO);
            && id in db'.txns
            && (db'.txns[id].status == Settled <==> settles && id !in db.records)
            && (db'.txns[id].status == Failed <==> ReadsNonzero(code))
            && (db' == db <==> if settles then id in db.records else !ReadsNonzero(code))
  {
    DriftIsCallback(db, id, code);
    StuckOutcome(db, id, DriftVerdict(code), Callback);
  }

  lemma CallbackOutcome(db: Db, id: TxnId, verdict: Verdict)
    requires id in db.txns && id !in db.records && verdict != Unknown
    requires db.txns[id].direction == Inbound && db.txns[id].status == Processing
    ensures var db' := HandleStk(db, Some(id), verdict, NoReceipt);
            id in db'.txns && db'.txns[id].status == if verdict == Success then Settled else Failed
  {
  }

  /**
   An ordinary result code, a finite number or text that is one, is read as that number by
   both the B2C and the drift path: zero settles, anything else fails.
   */
  lemma OrdinaryCodeDecides(db: Db, id: TxnId, x: real, code: Code)
    requires AllUnique(db.txns) && id in db.txns && id !in db.records && db.txns[id].status == Processing
    requires code == Numeric(Finite(x)) || code == NumericText(Finite(x))
    ensures db.txns[id].direction == Outbound && Truthy(db.txns[id].originator) ==>
              var db' := Handle(db, B2cResult(db.txns[id].originator, code, NoReceipt));
              id in db'.txns && db'.txns[id].status == if x == 0.0 then Settled else Failed
    ensures db.txns[id].direction == Inbound && Truthy(db.txns[id].checkout) ==>
              var db' := Handle(db, DriftAnswer(id, code));
              id in db'.txns && db'.txns[id].status == if x == 0.0 then Settled else Failed
    ensures db.txns[id].direction == Inbound && db.txns[id].checkout.Some? ==>
              var db' := Handle(db, StkResult(db.txns[id].checkout, code, NoReceipt));
              id in db'.txns && db'.txns[id].status == if x == 0.0 && code.Numeric? then Settled else Failed
  {
    if db.txns[id].direction == Outbound && Truthy(db.txns[id].originator) {
      FoundByOriginator(db.txns, id, db.txns[id].originator.value);
      B2cResultMoves(db, id, db.txns[id].originator, code, NoReceipt);
    }
    if db.txns[id].direction == Inbound && Truthy(db.txns[id].checkout) {
      DriftMoves(db, id, code);
    }
    if db.txns[id].direction == Inbound && db.txns[id].checkout.Some? {
      FoundByCheckout(db.txns, id, db.txns[id].checkout.value);
      CallbackOutcome(db, id, StkVerdict(code));
    }
  }

  /**
   "A verdict is a present, numeric ResultCode and nothing else" fails on the drift path too:
   `false`, blank text and an empty array settle a stuck collection and credit it, and `true`
   fails it, although none of them carries a verdict.
   */
  lemma VerdictlessDriftMovesMoney(db: Db, id: TxnId, code: Code)
    requires code in {Boolean(false), Boolean(true), BlankText, Array([])}
    requires SeenStuck(db, id) && id !in db.records
    ensures !CarriesVerdict(code)
    ensures var db' := Handle(db, DriftAnswer(id, code));
            var t := db.txns[id];
            && id in db'.txns
            && db'.txns[id].status == (if code == Boolean(true) then Failed else Settled)
            && Balance(db'.ledger, t.tenant, TenantBalance)
               == Balance(db.ledger, t.tenant, TenantBalance) + if code == Boolean(true) then 0 else t.amount
  {
    DriftMoves(db, id, code);
    DriftIsCallback(db, id, code);
    StuckOutcome(db, id, DriftVerdict(code), Callback);
    var t := db.txns[id];
    CollectionBalance(t.tenant, id, t.amount, t.tenant, TenantBalance);
    BalanceConcat(db.ledger, CollectionEntries(t.tenant, id, t.amount), t.tenant, TenantBalance);
    assert db.ledger + [] == db.ledger;
  }

  /** A table on which the lemma above applies. */
  lemma VerdictlessDriftHappens()
    ensures var t := Txn(7, StkPush, Inbound, Processing, 100, Some("ws_CO_1"), None, None, None);
            var db := Db(map[7 := false], map[1 := t], [], map[], [], map[]);
            var db' := Handle(db, DriftAnswer(1, Boolean(false)));
            && 1 in db'.txns && db'.txns[1].status == Settled
            && Balance(db.ledger, 7, TenantBalance) == 0 && Balance(db'.ledger, 7, TenantBalance) == 100
  {
    var t := Txn(7, StkPush, Inbound, Processing, 100, Some("ws_CO_1"), None, None, None);
    VerdictlessDriftMovesMoney(Db(map[7 := false], map[1 := t], [], map[], [], map[]), 1, Boolean(false));
  }

  /**
   When the passive and the active path apply a result alike. They do so iff the code is the
   number zero or converts to a finite number other than zero; so text "0" fails a collection
   by callback and settles it by drift detection.
   */
  lemma PathsAgreeIff(db: Db, id: TxnId, checkout: Option<string>, code: Code)
    requires SeenStuck(db, id) && FindCheckout(db.txns, checkout) == Some(id)
    ensures var passive := Handle(db, StkResult(checkout, code, NoReceipt));
            var active := Handle(db, DriftAnswer(id, code));
            passive.txns == active.txns && passive.ledger == active.ledger && passive.outbox == active.outbox
            <==> code == Numeric(ZERO) || ReadsNonzero(code)
    ensures var passive := Handle(db, StkResult(checkout, NumericText(ZERO), NoReceipt));
            id in passive.txns && passive.txns[id].status == Failed
    ensures var active := Handle(db, DriftAnswer(id, NumericText(ZERO)));
            id !in db.records ==> id in active.txns && active.txns[id].status == Settled
  {
    DriftIsCallback(db, id, code);
    StuckOutcome(db, id, StkVerdict(code), Callback);
    StuckOutcome(db, id, DriftVerdict(code), Callback);
    StuckOutcome(db, id, Failure, Callback);
    DriftMoves(db, id, NumericText(ZERO));
  }

  lemma ResolutionIsStep(s: State, w: nat, id: TxnId, d: Direction, v: Verdict, receipt: Option<string>)
    requires w < |s.calls| && v != Unknown
    requires id in s.db.txns && Found(s.db.txns[id], d, Callback)
    ensures exists l :: Step(s, l, s.(db := OrElse(Resolve(s.db, id, d, v, receipt, Callback), s.db)))
  {
    var op := if v == Success then Settle(id, d, receipt, Callback) else Fail(id, d, Callback);
    var hook := HookOf(s.db, id);
    var s' := s.(db := OrElse(Resolve(s.db, id, d, v, receipt, Callback), s.db));
    if Exec(s.db, op, hook).Done? {
      assert s.calls[w := s.calls[w]] == s.calls;
      assert Step(s, Commit(w, op, hook), s');
    } else {
      assert Step(s, Stutter, s');
    }
  }

  /** The atomic transactions a callback can commit are ones the protocol lets begin. */
  lemma CallbackIsStep(s: State, w: nat, input: Input)
    requires w < |s.calls|
    requires input.StkResult? || input.B2cResult?
    ensures exists l :: Step(s, l, s.(db := Handle(s.db, input)))
  {
    var s' := s.(db := Handle(s.db, input));
    var found :=
      if input.StkResult? then FindCheckout(s.db.txns, input.checkout)
      else FindOriginator(s.db.txns, input.originator);
    var v := if input.StkResult? then StkVerdict(input.code) else B2cVerdict(input.code);
    var usable := if input.StkResult? then StkUsable(v, input.receipt) else B2cUsable(v, input.receipt);
    if found.None? || v == Unknown || !usable {
      assert Step(s, Stutter, s');
    } else {
      var id := found.value;
      var d := if input.StkResult? then Inbound else Outbound;
      var receipt := if input.StkResult? then StkText(input.receipt) else B2cText(input.receipt);
      ResolutionIsStep(s, w, id, d, v, receipt);
      var l :| Step(s, l, s.(db := OrElse(Resolve(s.db, id, d, v, receipt, Callback), s.db)));
      assert Step(s, l, s');
    }
  }

  /** A drift answer commits at most two enabled steps: the transition, then the drift flag. */
  lemma DriftIsSteps(s: State, w: nat, id: TxnId, code: Code)
    requires w < |s.calls| && SeenStuck(s.db, id)
    ensures exists first, mid, second ::
              Step(s, first, mid) && Step(mid, second, s.(db := Handle(s.db, DriftAnswer(id, code))))
  {
    var v := DriftVerdict(code);
    var s' := s.(db := Handle(s.db, DriftAnswer(id, code)));
    var op := if v == Success then Settle(id, Inbound, None, Drift) else Fail(id, Inbound, Drift);
    var hook := HookOf(s.db, id);
    if v == Unknown || Exec(s.db, op, hook).Abort? {
      assert Step(s, Stutter, s') && Step(s', Stutter, s');
    } else {
      var mid := s.(db := Exec(s.db, op, hook).value);
      assert s.calls[w := s.calls[w]] == s.calls;
      assert Step(s, Commit(w, op, hook), mid);
      ExecShape(s.db, op, hook);
      assert Step(mid, Commit(w, MarkDrift(id), false), s');
    }
  }

  /** An operator's verdict on a stuck payout commits two enabled steps: the transition, then the close. */
  lemma OperatorIsSteps(s: State, w: nat, id: TxnId, settled: bool, receipt: Option<string>)
    requires w < |s.calls| && id in s.db.txns
    requires s.db.txns[id].direction == Outbound && s.db.txns[id].status == Processing
    ensures var op := if settled then Settle(id, Outbound, receipt, Operator) else Fail(id, Outbound, Operator);
            var first := Exec(s.db, op, HookOf(s.db, id));
            first.Done? ==>
              var second := Exec(first.value, Close(id, settled), false);
              && second.Done?
              && Step(s, Commit(w, op, HookOf(s.db, id)), s.(db := first.value))
              && Step(s.(db := first.value), Commit(w, Close(id, settled), false), s.(db := second.value))
  {
    var op := if settled then Settle(id, Outbound, receipt, Operator) else Fail(id, Outbound, Operator);
    assert s.calls[w := s.calls[w]] == s.calls;
    if Exec(s.db, op, HookOf(s.db, id)).Done? {
      ExecShape(s.db, op, HookOf(s.db, id));
    }
  }

  /** The tables after an accepted collection request. */
  function Requested(db: Db, op: Op, checkout: Option<string>): Db
    requires op.StkCreate?
  {
    db.(txns := db.txns[op.id := Txn(op.tenant, StkPush, Inbound, if checkout.Some? then Processing else Pending,
                                     op.amount, checkout, None, None, None)])
  }

  /** An idle worker can always take a whole-shilling collection request through to PROCESSING. */
  lemma StkInitiationIsSteps(s: State, w: nat, op: Op, checkout: string)
    requires w < |s.calls| && s.calls[w] == NoCall
    requires op.StkCreate? && op.amount > 0 && op.amount % 100 == 0 && op.id !in s.db.txns
    requires forall j | j in s.db.txns :: s.db.txns[j].checkout != Some(checkout)
    ensures var s1 := State(Requested(s.db, op, None), s.calls[w := Call(op.id, false, false)], s.sent);
            var s2 := State(s1.db, s.calls[w := Call(op.id, false, true)],
                            s.sent + [Request(op.id, op.amount / 100)]);
            var s3 := State(Requested(s.db, op, Some(checkout)), s.calls, s2.sent);
            && Step(s, Commit(w, op, false), s1)
            && Step(s1, Send(w), s2)
            && Step(s2, Commit(w, StkAccept(op.id, checkout), false), s3)
  {
    assert s.calls[w := NoCall] == s.calls;
  }
}
