/**
 Log-safe summaries of callback payloads: a depth-bounded traversal that keeps the
 allowlisted scalar fields and nothing else, and the natural key an event is stored under.
 */
module Redaction {
  import opened Store

  datatype Json =
    | JNull
    | JBool(b: bool)
    | JNumber(n: int)
    | JString(s: string)
    | JArray(items: seq<Json>)
    | JObject(fields: seq<Field>)

  /** Fields stand in the order in which Object.entries lists them. */
  datatype Field = Field(key: string, value: Json)

  const SAFE_KEYS: set<string> := {
    "MerchantRequestID", "CheckoutRequestID", "OriginatorConversationID", "ConversationID", "TransactionID",
    "TransID", "ResultCode", "ResultDesc", "ResultType", "TransactionType", "BusinessShortCode",
    "TransactionStatus", "ReceiptNo", "FinalisedTime", "InitiatedTime"
  }

  const MAX_DEPTH := 6

  predicate IsPrimitive(v: Json)
  {
    !v.JArray? && !v.JObject?
  }

  predicate IsKept(f: Field)
  {
    f.key in SAFE_KEYS && IsPrimitive(f.value)
  }

  // ---- The traversal ----

  /** Every kept field under `v`, in traversal order. */
  function Kept(v: Json, depth: nat): seq<Field>
    decreases v, 1
  {
    if depth > MAX_DEPTH then []
    else
      match v
      case JArray(items) => KeptItems(items, depth + 1)
      case JObject(fields) => KeptFields(fields, depth + 1)
      case _ => []
  }

  function KeptItems(items: seq<Json>, depth: nat): seq<Field>
    decreases items, 0
  {
    if items == [] then [] else Kept(items[0], depth) + KeptItems(items[1..], depth)
  }

  function KeptFields(fields: seq<Field>, depth: nat): seq<Field>
    decreases fields, 0
  {
    if fields == [] then [] else KeptOf(fields[0], depth) + KeptFields(fields[1..], depth)
  }

  function KeptOf(f: Field, depth: nat): seq<Field>
    decreases f
  {
    if IsKept(f) then [f] else Kept(f.value, depth)
  }

  /** Writing fields into an accumulator, later ones over earlier ones. */
  function Overlay(into: map<string, Json>, fields: seq<Field>): map<string, Json>
    decreases |fields|
  {
    if fields == [] then into else Overlay(into[fields[0].key := fields[0].value], fields[1..])
  }

  function SafeFields(v: Json): map<string, Json>
  {
    Overlay(map[], Kept(v, 0))
  }

  lemma {:induction false} OverlayConcat(into: map<string, Json>, a: seq<Field>, b: seq<Field>)
    ensures Overlay(into, a + b) == Overlay(Overlay(into, a), b)
    decreases |a|
  {
    if a == [] {
      assert a + b == b;
    } else {
      assert (a + b)[1..] == a[1..] + b;
      OverlayConcat(into[a[0].key := a[0].value], a[1..], b);
    }
  }

  class Accumulator {
    var fields: map<string, Json>

    constructor ()
      ensures fields == map[]
    {
      fields := map[];
    }
  }

  lemma OverlayOne(into: map<string, Json>, f: Field)
    ensures Overlay(into, [f]) == into[f.key := f.value]
  {
  }

  lemma ItemsStep(into: map<string, Json>, items: seq<Json>, i: nat, depth: nat)
    requires i < |items|
    ensures Overlay(into, KeptItems(items[i..], depth))
         == Overlay(Overlay(into, Kept(items[i], depth)), KeptItems(items[i + 1..], depth))
  {
    assert items[i..][1..] == items[i + 1..];
    OverlayConcat(into, Kept(items[i], depth), KeptItems(items[i + 1..], depth));
  }

  lemma FieldsStep(into: map<string, Json>, fields: seq<Field>, i: nat, depth: nat)
    requires i < |fields|
    ensures Overlay(into, KeptFields(fields[i..], depth))
         == Overlay(Overlay(into, KeptOf(fields[i], depth)), KeptFields(fields[i + 1..], depth))
  {
    assert fields[i..][1..] == fields[i + 1..];
    OverlayConcat(into, KeptOf(fields[i], depth), KeptFields(fields[i + 1..], depth));
  }

  method CollectSafeFields(value: Json, depth: nat, into: Accumulator)
    modifies into
    ensures into.fields == Overlay(old(into.fields), Kept(value, depth))
    decreases value
  {
    if depth > MAX_DEPTH || IsPrimitive(value) {
      return;
    }
    ghost var goal := Overlay(into.fields, Kept(value, depth));
    if value.JArray? {
      for i := 0 to |value.items|
        invariant Overlay(into.fields, KeptItems(value.items[i..], depth + 1)) == goal
      {
        ItemsStep(into.fields, value.items, i, depth + 1);
        CollectSafeFields(value.items[i], depth + 1, into);
      }
      return;
    }
    for i := 0 to |value.fields|
      invariant Overlay(into.fields, KeptFields(value.fields[i..], depth + 1)) == goal
    {
      var f := value.fields[i];
      FieldsStep(into.fields, value.fields, i, depth + 1);
      if f.key in SAFE_KEYS && IsPrimitive(f.value) {
        OverlayOne(into.fields, f);
        into.fields := into.fields[f.key := f.value];
      } else {
        CollectSafeFields(f.value, depth + 1, into);
      }
    }
  }

  datatype Redacted = Scalar(payloadType: string) | Summary(payloadKeys: seq<string>, safeFields: map<string, Json>)

  function TypeOf(v: Json): string
  {
    match v
    case JNull => "null"
    case JBool(_) => "boolean"
    case JNumber(_) => "number"
    case JString(_) => "string"
    case _ => "object"
  }

  function Decimal(n: nat): string
  {
    if n < 10 then [('0' as int + n) as char] else Decimal(n / 10) + Decimal(n % 10)
  }

  /** Object.keys; an array's keys are its indices. */
  function KeysOf(v: Json): seq<string>
  {
    match v
    case JObject(fields) => seq(|fields|, i requires 0 <= i < |fields| => fields[i].key)
    case JArray(items) => seq(|items|, i requires 0 <= i < |items| => Decimal(i))
    case _ => []
  }

  function Redact(payload: Json): Redacted
  {
    if IsPrimitive(payload) then Scalar(TypeOf(payload)) else Summary(KeysOf(payload), SafeFields(payload))
  }

  method RedactCallbackPayload(payload: Json) returns (r: Redacted)
    ensures r == Redact(payload)
    ensures payload.JObject? ==>
              && r.Summary? && |r.payloadKeys| == |payload.fields|
              && forall i | 0 <= i < |payload.fields| :: r.payloadKeys[i] == payload.fields[i].key
    ensures payload.JArray? ==> r.Summary? && |r.payloadKeys| == |payload.items|
    ensures payload.JNull? ==> r == Scalar("null")
    ensures payload.JBool? ==> r == Scalar("boolean")
    ensures payload.JNumber? ==> r == Scalar("number")
    ensures payload.JString? ==> r == Scalar("string")
  {
    if IsPrimitive(payload) {
      return Scalar(TypeOf(payload));
    }
    var into := new Accumulator();
    CollectSafeFields(payload, 0, into);
    r := Summary(KeysOf(payload), into.fields);
  }

  // ---- Exactness ----

  function Child(v: Json, i: nat): Option<Json>
  {
    match v
    case JArray(items) => if i < |items| then Some(items[i]) else None
    case JObject(fields) => if i < |fields| then Some(fields[i].value) else None
    case _ => None
  }

  /** The field at the end of a path of positions; the steps before the last go into children. */
  function FieldAt(v: Json, path: seq<nat>): Option<Field>
    decreases |path|
  {
    if path == [] then None
    else if |path| == 1 then
      if v.JObject? && path[0] < |v.fields| then Some(v.fields[path[0]]) else None
    else
      match Child(v, path[0])
      case None => None
      case Some(c) => FieldAt(c, path[1..])
  }

  /** An allowlisted scalar field whose object, counting from `v` at `depth`, is not too deep. */
  predicate KeptAt(v: Json, depth: nat, path: seq<nat>, f: Field)
  {
    path != [] && depth + |path| - 1 <= MAX_DEPTH && FieldAt(v, path) == Some(f) && IsKept(f)
  }

  /** Lexicographic order of paths, which is the order a reader meets the fields in. */
  predicate Before(p: seq<nat>, q: seq<nat>)
    decreases |p|
  {
    q != [] && (p == [] || p[0] < q[0] || (p[0] == q[0] && Before(p[1..], q[1..])))
  }

  /** `value` is what the last kept field under `key` holds, and `path` where it is; or there is none. */
  ghost predicate IsLast(v: Json, depth: nat, key: string, value: Option<Json>, path: seq<nat>)
  {
    match value
    case None => forall p, x :: !KeptAt(v, depth, p, Field(key, x))
    case Some(last) =>
      && KeptAt(v, depth, path, Field(key, last))
      && forall p, x | KeptAt(v, depth, p, Field(key, x)) && p != path :: Before(p, path)
  }

  function LastValue(fields: seq<Field>, key: string): Option<Json>
    decreases |fields|
  {
    if fields == [] then None
    else
      var last := fields[|fields| - 1];
      if last.key == key then Some(last.value) else LastValue(fields[..|fields| - 1], key)
  }

  lemma {:induction false} LastValueConcat(a: seq<Field>, b: seq<Field>, key: string)
    ensures LastValue(a + b, key) == if LastValue(b, key).Some? then LastValue(b, key) else LastValue(a, key)
    decreases |b|
  {
    if b == [] {
      assert a + b == a;
    } else {
      assert (a + b)[..|a + b| - 1] == a + b[..|b| - 1];
      LastValueConcat(a, b[..|b| - 1], key);
    }
  }

  /** An accumulator ends with each key's last value. */
  lemma {:induction false} OverlayIsLast(into: map<string, Json>, fields: seq<Field>, key: string)
    ensures key in Overlay(into, fields) <==> LastValue(fields, key).Some? || key in into
    ensures key in Overlay(into, fields) ==>
              Overlay(into, fields)[key]
              == if LastValue(fields, key).Some? then LastValue(fields, key).value else into[key]
    decreases |fields|
  {
    if fields != [] {
      var front, last := fields[..|fields| - 1], fields[|fields| - 1];
      assert fields == front + [last];
      OverlayConcat(into, front, [last]);
      OverlayOne(Overlay(into, front), last);
      OverlayIsLast(into, front, key);
    }
  }

  lemma {:induction false} KeptItemsSnoc(items: seq<Json>, last: Json, depth: nat)
    ensures KeptItems(items + [last], depth) == KeptItems(items, depth) + Kept(last, depth)
    decreases |items|
  {
    var all := items + [last];
    if items == [] {
      assert all[1..] == [];
      assert KeptItems(all, depth) == Kept(last, depth) + [];
    } else {
      var first, rest := Kept(items[0], depth), KeptItems(items[1..], depth);
      assert all[1..] == items[1..] + [last];
      KeptItemsSnoc(items[1..], last, depth);
      assert KeptItems(all, depth) == first + (rest + Kept(last, depth));
      assert first + (rest + Kept(last, depth)) == (first + rest) + Kept(last, depth);
    }
  }

  lemma {:induction false} KeptFieldsSnoc(fields: seq<Field>, last: Field, depth: nat)
    ensures KeptFields(fields + [last], depth) == KeptFields(fields, depth) + KeptOf(last, depth)
    decreases |fields|
  {
    var all := fields + [last];
    if fields == [] {
      assert all[1..] == [];
      assert KeptFields(all, depth) == KeptOf(last, depth) + [];
    } else {
      var first, rest := KeptOf(fields[0], depth), KeptFields(fields[1..], depth);
      assert all[1..] == fields[1..] + [last];
      KeptFieldsSnoc(fields[1..], last, depth);
      assert KeptFields(all, depth) == first + (rest + KeptOf(last, depth));
      assert first + (rest + KeptOf(last, depth)) == (first + rest) + KeptOf(last, depth);
    }
  }

  /** Fields one level down are those of the children, under longer paths. */
  lemma KeptBelow(v: Json, depth: nat, i: nat, rest: seq<nat>, f: Field)
    requires rest != []
    ensures KeptAt(v, depth, [i] + rest, f) <==> Child(v, i).Some? && KeptAt(Child(v, i).value, depth + 1, rest, f)
  {
    assert ([i] + rest)[1..] == rest;
  }

  /** The positions in a container are those in all but its last entry, and those from the last on. */
  lemma KeptInFront(v: Json, front: Json, n: nat, depth: nat, path: seq<nat>, f: Field)
    requires || (v.JArray? && |v.items| == n + 1 && front == JArray(v.items[..n]))
             || (v.JObject? && |v.fields| == n + 1 && front == JObject(v.fields[..n]))
    ensures KeptAt(v, depth, path, f) && path[0] != n <==> KeptAt(front, depth, path, f)
    ensures KeptAt(v, depth, path, f) ==> path[0] <= n
  {
  }

  /** A last field found from entry `n` on comes after everything in the entries before. */
  lemma LastFromEntry(v: Json, front: Json, n: nat, depth: nat, key: string, x: Json, rest: seq<nat>)
    requires || (v.JArray? && |v.items| == n + 1 && front == JArray(v.items[..n]))
             || (v.JObject? && |v.fields| == n + 1 && front == JObject(v.fields[..n]))
    requires IsLast(Child(v, n).value, depth + 1, key, Some(x), rest)
    requires v.JObject? ==> !IsKept(v.fields[n])
    ensures IsLast(v, depth, key, Some(x), [n] + rest)
  {
    KeptBelow(v, depth, n, rest, Field(key, x));
    forall p, y | KeptAt(v, depth, p, Field(key, y)) && p != [n] + rest ensures Before(p, [n] + rest) {
      KeptInFront(v, front, n, depth, p, Field(key, y));
      if p[0] == n {
        assert p == [n] + p[1..];
        KeptBelow(v, depth, n, p[1..], Field(key, y));
        assert ([n] + rest)[1..] == rest;
      }
    }
  }

  /** Without such a field in entry `n`, the last one is where it is in the entries before. */
  lemma LastFromFront(v: Json, front: Json, n: nat, depth: nat, key: string, value: Option<Json>, path: seq<nat>)
    requires || (v.JArray? && |v.items| == n + 1 && front == JArray(v.items[..n]))
             || (v.JObject? && |v.fields| == n + 1 && front == JObject(v.fields[..n]))
    requires IsLast(front, depth, key, value, path)
    requires IsLast(Child(v, n).value, depth + 1, key, None, [])
    requires v.JObject? ==> !IsKept(v.fields[n]) || v.fields[n].key != key
    ensures IsLast(v, depth, key, value, path)
  {
    forall p, x | KeptAt(v, depth, p, Field(key, x)) ensures KeptAt(front, depth, p, Field(key, x)) {
      KeptInFront(v, front, n, depth, p, Field(key, x));
      if p[0] == n {
        if |p| > 1 {
          assert p == [n] + p[1..];
          KeptBelow(v, depth, n, p[1..], Field(key, x));
        }
        assert false;
      }
    }
    if value.Some? {
      KeptInFront(v, front, n, depth, path, Field(key, value.value));
    }
  }

  lemma LastIsOwn(fields: seq<Field>, front: seq<Field>, n: nat, depth: nat)
    requires |fields| == n + 1 && front == fields[..n] && IsKept(fields[n]) && depth <= MAX_DEPTH
    ensures IsLast(JObject(fields), depth, fields[n].key, Some(fields[n].value), [n])
  {
    var v, key := JObject(fields), fields[n].key;
    assert fields[n] == Field(key, fields[n].value);
    forall p, y | KeptAt(v, depth, p, Field(key, y)) && p != [n] ensures Before(p, [n]) {
      KeptInFront(v, JObject(front), n, depth, p, Field(key, y));
      if p[0] == n {
        assert p == [n] + p[1..];
        KeptBelow(v, depth, n, p[1..], Field(key, y));
        assert false;
      }
    }
  }

  /** A last entry that does not hold the key itself: look below it, and else before it. */
  lemma LastNotOwn(fields: seq<Field>, n: nat, depth: nat, key: string, below: seq<nat>, front: seq<nat>)
    requires |fields| == n + 1 && depth <= MAX_DEPTH && !(IsKept(fields[n]) && fields[n].key == key)
    requires IsLast(fields[n].value, depth + 1, key, LastValue(Kept(fields[n].value, depth + 1), key), below)
    requires IsLast(JObject(fields[..n]), depth, key, LastValue(KeptFields(fields[..n], depth + 1), key), front)
    ensures var found := LastValue(KeptOf(fields[n], depth + 1), key);
            if found.Some? then IsLast(JObject(fields), depth, key, found, [n] + below)
            else IsLast(JObject(fields), depth, key, LastValue(KeptFields(fields[..n], depth + 1), key), front)
  {
    var v, before := JObject(fields), JObject(fields[..n]);
    var found := LastValue(KeptOf(fields[n], depth + 1), key);
    if found.Some? {
      LastFromEntry(v, before, n, depth, key, found.value, below);
    } else {
      LastFromFront(v, before, n, depth, key, LastValue(KeptFields(fields[..n], depth + 1), key), front);
    }
  }

  lemma {:induction false} LastPath(v: Json, depth: nat, key: string) returns (path: seq<nat>)
    ensures IsLast(v, depth, key, LastValue(Kept(v, depth), key), path)
    decreases v, 1
  {
    path := [];
    if depth <= MAX_DEPTH {
      if v.JArray? {
        path := LastPathInItems(v.items, depth, key);
      } else if v.JObject? {
        path := LastPathInFields(v.fields, depth, key);
      }
    }
  }

  lemma {:induction false} LastPathInItems(items: seq<Json>, depth: nat, key: string) returns (path: seq<nat>)
    ensures IsLast(JArray(items), depth, key, LastValue(KeptItems(items, depth + 1), key), path)
    decreases items, 0
  {
    if items == [] {
      path := [];
    } else {
      var n := |items| - 1;
      var front, last := items[..n], items[n];
      assert items == front + [last];
      KeptItemsSnoc(front, last, depth + 1);
      LastValueConcat(KeptItems(front, depth + 1), Kept(last, depth + 1), key);
      path := LastPath(last, depth + 1, key);
      var found := LastValue(Kept(last, depth + 1), key);
      if found.Some? {
        LastFromEntry(JArray(items), JArray(front), n, depth, key, found.value, path);
        path := [n] + path;
      } else {
        path := LastPathInItems(front, depth, key);
        LastFromFront(JArray(items), JArray(front), n, depth, key, LastValue(KeptItems(front, depth + 1), key), path);
      }
    }
  }

  lemma {:induction false} LastPathInFields(fields: seq<Field>, depth: nat, key: string) returns (path: seq<nat>)
    requires depth <= MAX_DEPTH
    ensures IsLast(JObject(fields), depth, key, LastValue(KeptFields(fields, depth + 1), key), path)
    decreases fields, 0
  {
    path := [];
    if fields != [] {
      var n := |fields| - 1;
      var front, last := fields[..n], fields[n];
      assert fields == front + [last];
      KeptFieldsSnoc(front, last, depth + 1);
      LastValueConcat(KeptFields(front, depth + 1), KeptOf(last, depth + 1), key);
      if IsKept(last) && last.key == key {
        path := [n];
        LastIsOwn(fields, front, n, depth);
      } else {
        var below := LastPath(last.value, depth + 1, key);
        var before := LastPathInFields(front, depth, key);
        LastNotOwn(fields, n, depth, key, below, before);
        path := if LastValue(KeptOf(last, depth + 1), key).Some? then [n] + below else before;
      }
    }
  }

  /**
   Redaction is exact: a key is in the summary iff it is allowlisted and some object at
   depth at most six holds a scalar under it, and its value is the last such scalar: every
   other field of that kind has a lexicographically smaller path.
   */
  lemma RedactionIsExact(v: Json, key: string)
    ensures key in SafeFields(v) <==> exists path, x :: KeptAt(v, 0, path, Field(key, x))
    ensures key in SafeFields(v) ==> exists path, x :: |path| <= 7 && FieldAt(v, path) == Some(Field(key, x))
    ensures key in SafeFields(v) ==>
              && key in SAFE_KEYS && IsPrimitive(SafeFields(v)[key])
              && exists path :: IsLast(v, 0, key, Some(SafeFields(v)[key]), path)
  {
    OverlayIsLast(map[], Kept(v, 0), key);
    var path := LastPath(v, 0, key);
  }

  /** What identifies a person, or the amount, is in no summary, wherever in the payload it stands. */
  lemma IdentityIsWithheld(v: Json, key: string)
    requires key in {"MSISDN", "PhoneNumber", "Amount", "TransAmount", "FirstName", "MiddleName", "LastName",
                     "ReceiverPartyPublicName", "DebitPartyName", "CreditPartyName", "BillRefNumber"}
    ensures key !in SafeFields(v)
  {
    RedactionIsExact(v, key);
  }

  /** What identifies the transaction is kept: a scalar under such a key, at most six levels down, is shown. */
  lemma IdentifiersAreShown(v: Json, path: seq<nat>, key: string, x: Json)
    requires key in {"MerchantRequestID", "CheckoutRequestID", "OriginatorConversationID", "ConversationID",
                     "TransactionID", "TransID", "ResultCode", "ResultDesc", "ResultType", "TransactionType",
                     "BusinessShortCode", "TransactionStatus", "ReceiptNo", "FinalisedTime", "InitiatedTime"}
    requires 0 < |path| <= 7 && FieldAt(v, path) == Some(Field(key, x)) && !x.JArray? && !x.JObject?
    ensures key in SafeFields(v)
  {
    assert KeptAt(v, 0, path, Field(key, x));
    RedactionIsExact(v, key);
  }

  // ---- Noninterference ----

  /**
   Two payloads that differ only in withheld data: scalars that are not under an
   allowlisted key, and anything at all more than six levels down.
   */
  predicate Agree(a: Json, b: Json, depth: nat, safe: bool)
    decreases a
  {
    if safe && (IsPrimitive(a) || IsPrimitive(b)) then a == b
    else if depth > MAX_DEPTH then true
    else
      match (a, b)
      case (JArray(xs), JArray(ys)) =>
        |xs| == |ys| && forall i | 0 <= i < |xs| :: Agree(xs[i], ys[i], depth + 1, false)
      case (JObject(xs), JObject(ys)) =>
        |xs| == |ys| && forall i | 0 <= i < |xs| ::
          xs[i].key == ys[i].key && Agree(xs[i].value, ys[i].value, depth + 1, xs[i].key in SAFE_KEYS)
      case _ => IsPrimitive(a) && IsPrimitive(b)
  }

  lemma {:induction false} AgreeKeepsSame(a: Json, b: Json, depth: nat, safe: bool)
    requires Agree(a, b, depth, safe)
    ensures Kept(a, depth) == Kept(b, depth)
    decreases a, 1
  {
    if depth <= MAX_DEPTH {
      match (a, b)
      case (JArray(xs), JArray(ys)) => AgreeItems(xs, ys, depth + 1);
      case (JObject(xs), JObject(ys)) => AgreeFields(xs, ys, depth + 1);
      case _ =>
    }
  }

  lemma {:induction false} AgreeItems(xs: seq<Json>, ys: seq<Json>, depth: nat)
    requires |xs| == |ys| && forall i | 0 <= i < |xs| :: Agree(xs[i], ys[i], depth, false)
    ensures KeptItems(xs, depth) == KeptItems(ys, depth)
    decreases xs, 0
  {
    if xs != [] {
      AgreeKeepsSame(xs[0], ys[0], depth, false);
      AgreeItems(xs[1..], ys[1..], depth);
    }
  }

  lemma {:induction false} AgreeFields(xs: seq<Field>, ys: seq<Field>, depth: nat)
    requires |xs| == |ys|
    requires forall i | 0 <= i < |xs| ::
               xs[i].key == ys[i].key && Agree(xs[i].value, ys[i].value, depth, xs[i].key in SAFE_KEYS)
    ensures KeptFields(xs, depth) == KeptFields(ys, depth)
    decreases xs, 0
  {
    if xs != [] {
      AgreeKeepsSame(xs[0].value, ys[0].value, depth, xs[0].key in SAFE_KEYS);
      AgreeFields(xs[1..], ys[1..], depth);
    }
  }

  /** Withheld data never reaches a log line: payloads that agree on the rest redact alike. */
  lemma RedactionIsNoninterfering(a: Json, b: Json)
    requires Agree(a, b, 0, false)
    requires IsPrimitive(a) ==> TypeOf(a) == TypeOf(b)
    ensures Redact(a) == Redact(b)
  {
    AgreeKeepsSame(a, b, 0, false);
    if a.JObject? {
      assert KeysOf(a) == KeysOf(b);
    } else if a.JArray? {
      assert KeysOf(a) == KeysOf(b);
    }
  }

  // ---- The natural key ----

  function Lookup(fields: seq<Field>, key: string): Option<Json>
    decreases |fields|
  {
    if fields == [] then None
    else if fields[0].key == key then Some(fields[0].value)
    else Lookup(fields[1..], key)
  }

  /** `v?.key`: absent on anything that is not an object holding the key. */
  function Get(v: Option<Json>, key: string): Option<Json>
  {
    if v.Some? && v.value.JObject? then Lookup(v.value.fields, key) else None
  }

  function OnlyString(v: Option<Json>): Option<Json>
  {
    if v.Some? && v.value.JString? then v else None
  }

  const RESULT_SOURCES: set<string> := {
    "daraja_b2c_result", "daraja_b2c_timeout", "daraja_transaction_status_result", "daraja_transaction_status_timeout"
  }

  /** The key an event is stored under; the STK one is not checked to be a string. */
  function ExtractNaturalKey(source: string, payload: Json): Option<Json>
  {
    if IsPrimitive(payload) then None
    else if source == "daraja_stk_callback" then
      var key := Get(Get(Get(Some(payload), "Body"), "stkCallback"), "CheckoutRequestID");
      if key == Some(JNull) then None else key
    else if source == "daraja_c2b_confirmation" then OnlyString(Get(Some(payload), "TransID"))
    else if source in RESULT_SOURCES then OnlyString(Get(Get(Some(payload), "Result"), "OriginatorConversationID"))
    else None
  }

  predicate AgreeOpt(a: Option<Json>, b: Option<Json>, depth: nat, safe: bool)
  {
    a.Some? == b.Some? && (a.Some? ==> Agree(a.value, b.value, depth, safe))
  }

  lemma {:induction false} LookupAgrees(xs: seq<Field>, ys: seq<Field>, key: string, depth: nat)
    requires |xs| == |ys|
    requires forall i | 0 <= i < |xs| ::
               xs[i].key == ys[i].key && Agree(xs[i].value, ys[i].value, depth, xs[i].key in SAFE_KEYS)
    ensures AgreeOpt(Lookup(xs, key), Lookup(ys, key), depth, key in SAFE_KEYS)
    decreases |xs|
  {
    if xs != [] && xs[0].key != key {
      LookupAgrees(xs[1..], ys[1..], key, depth);
    }
  }

  lemma GetAgrees(a: Option<Json>, b: Option<Json>, key: string, depth: nat, safe: bool)
    requires AgreeOpt(a, b, depth, safe) && depth <= MAX_DEPTH
    ensures AgreeOpt(Get(a, key), Get(b, key), depth + 1, key in SAFE_KEYS)
  {
    if a.Some? && a.value.JObject? && b.value.JObject? {
      LookupAgrees(a.value.fields, b.value.fields, key, depth + 1);
    }
  }

  lemma StkKeyAgrees(a: Json, b: Json)
    requires Agree(a, b, 0, false)
    ensures AgreeOpt(Get(Get(Get(Some(a), "Body"), "stkCallback"), "CheckoutRequestID"),
                     Get(Get(Get(Some(b), "Body"), "stkCallback"), "CheckoutRequestID"), 3, true)
  {
    var a1, b1 := Get(Some(a), "Body"), Get(Some(b), "Body");
    GetAgrees(Some(a), Some(b), "Body", 0, false);
    assert "Body" !in SAFE_KEYS && "stkCallback" !in SAFE_KEYS;
    GetAgrees(a1, b1, "stkCallback", 1, false);
    GetAgrees(Get(a1, "stkCallback"), Get(b1, "stkCallback"), "CheckoutRequestID", 2, false);
  }

  lemma ResultKeyAgrees(a: Json, b: Json)
    requires Agree(a, b, 0, false)
    ensures AgreeOpt(Get(Get(Some(a), "Result"), "OriginatorConversationID"),
                     Get(Get(Some(b), "Result"), "OriginatorConversationID"), 2, true)
  {
    GetAgrees(Some(a), Some(b), "Result", 0, false);
    assert "Result" !in SAFE_KEYS;
    GetAgrees(Get(Some(a), "Result"), Get(Some(b), "Result"), "OriginatorConversationID", 1, false);
  }

  /** Both sides of an allowlisted key are the same scalar, or neither is a scalar. */
  lemma ScalarsAgree(x: Option<Json>, y: Option<Json>, depth: nat)
    requires AgreeOpt(x, y, depth, true)
    ensures OnlyString(x) == OnlyString(y)
    ensures x == Some(JNull) <==> y == Some(JNull)
    ensures x.Some? && (IsPrimitive(x.value) || IsPrimitive(y.value)) ==> x == y
  {
  }

  /**
   Deduplication sees no more than the log does: payloads that differ only in withheld
   data have the same natural key whenever either one's is a scalar.
   */
  lemma NaturalKeyIsNotWithheld(source: string, a: Json, b: Json)
    requires Agree(a, b, 0, false)
    ensures var x, y := ExtractNaturalKey(source, a), ExtractNaturalKey(source, b);
            x.Some? == y.Some?
            && (x.Some? && (IsPrimitive(x.value) || IsPrimitive(y.value)) ==> x == y)
  {
    if source == "daraja_stk_callback" {
      StkKeyAgrees(a, b);
      ScalarsAgree(Get(Get(Get(Some(a), "Body"), "stkCallback"), "CheckoutRequestID"),
                   Get(Get(Get(Some(b), "Body"), "stkCallback"), "CheckoutRequestID"), 3);
    } else if source == "daraja_c2b_confirmation" {
      GetAgrees(Some(a), Some(b), "TransID", 0, false);
      ScalarsAgree(Get(Some(a), "TransID"), Get(Some(b), "TransID"), 1);
    } else if source in RESULT_SOURCES {
      ResultKeyAgrees(a, b);
      ScalarsAgree(Get(Get(Some(a), "Result"), "OriginatorConversationID"),
                   Get(Get(Some(b), "Result"), "OriginatorConversationID"), 2);
    }
  }

  /** The object holds `value` under `key`. */
  predicate Holds(v: Json, key: string, value: Json)
  {
    v.JObject? && exists i :: && 0 <= i < |v.fields| && v.fields[i] == Field(key, value)
                              && forall j | 0 <= j < i :: v.fields[j].key != key
  }

  lemma {:induction false} LookupIsHeld(fields: seq<Field>, key: string, value: Json)
    ensures Lookup(fields, key) == Some(value) <==> Holds(JObject(fields), key, value)
    decreases |fields|
  {
    if fields != [] {
      var rest := fields[1..];
      LookupIsHeld(rest, key, value);
      if fields[0].key == key {
        assert Holds(JObject(fields), key, value) ==> fields[0].value == value by {
          if i :| 0 <= i < |fields| && fields[i] == Field(key, value) && forall j | 0 <= j < i :: fields[j].key != key {
            assert i == 0;
          }
        }
      } else {
        if i :| 0 <= i < |rest| && rest[i] == Field(key, value) && forall j | 0 <= j < i :: rest[j].key != key {
          assert fields[i + 1] == Field(key, value);
          assert forall j | 0 <= j < i + 1 :: fields[j].key != key;
        }
        if i :| 0 <= i < |fields| && fields[i] == Field(key, value) && forall j | 0 <= j < i :: fields[j].key != key {
          assert rest[i - 1] == Field(key, value);
          assert forall j | 0 <= j < i - 1 :: rest[j].key == fields[j + 1].key;
        }
      }
    }
  }

  lemma GetIsHeld(v: Json, key: string, value: Json)
    ensures Get(Some(v), key) == Some(value) <==> Holds(v, key, value)
  {
    if v.JObject? {
      LookupIsHeld(v.fields, key, value);
    }
  }

  /** Two steps down. */
  lemma GetTwice(v: Json, first: string, second: string, value: Json)
    ensures Get(Get(Some(v), first), second) == Some(value)
            <==> exists inner :: Holds(v, first, inner) && Holds(inner, second, value)
  {
    if Get(Some(v), first).Some? {
      var inner := Get(Some(v), first).value;
      GetIsHeld(v, first, inner);
      GetIsHeld(inner, second, value);
    }
    forall inner | Holds(v, first, inner) && Holds(inner, second, value)
      ensures Get(Get(Some(v), first), second) == Some(value)
    {
      GetIsHeld(v, first, inner);
      GetIsHeld(inner, second, value);
    }
  }

  /** Which field is the natural key of a C2B confirmation: its TransID, if that is text. */
  lemma C2bKeyIsTransId(payload: Json, key: Json)
    ensures ExtractNaturalKey("daraja_c2b_confirmation", payload) == Some(key)
            <==> key.JString? && Holds(payload, "TransID", key)
  {
    GetIsHeld(payload, "TransID", key);
  }

  /** Of a B2C or status callback: the result's OriginatorConversationID, if that is text. */
  lemma ResultKeyIsOriginator(source: string, payload: Json, key: Json)
    requires source == "daraja_b2c_result" || source == "daraja_b2c_timeout"
          || source == "daraja_transaction_status_result" || source == "daraja_transaction_status_timeout"
    ensures ExtractNaturalKey(source, payload) == Some(key)
            <==> && key.JString?
                 && exists result :: Holds(payload, "Result", result) && Holds(result, "OriginatorConversationID", key)
  {
    GetTwice(payload, "Result", "OriginatorConversationID", key);
  }

  /** Of an STK callback: the CheckoutRequestID, whatever it is but null. */
  lemma StkKeyIsCheckout(payload: Json, key: Json)
    ensures ExtractNaturalKey("daraja_stk_callback", payload) == Some(key)
            <==> && !key.JNull?
                 && exists body, stk ::
                      && Holds(payload, "Body", body) && Holds(body, "stkCallback", stk)
                      && Holds(stk, "CheckoutRequestID", key)
  {
    var inner := Get(Get(Some(payload), "Body"), "stkCallback");
    if inner.Some? {
      GetTwice(payload, "Body", "stkCallback", inner.value);
      GetIsHeld(inner.value, "CheckoutRequestID", key);
    }
    forall body, stk | Holds(payload, "Body", body) && Holds(body, "stkCallback", stk)
                       && Holds(stk, "CheckoutRequestID", key)
      ensures inner == Some(stk)
    {
      GetTwice(payload, "Body", "stkCallback", stk);
    }
  }

  /** Two confirmations are one event iff they carry the same TransID text. */
  lemma SameC2bEventIff(a: Json, b: Json)
    ensures var x := ExtractNaturalKey("daraja_c2b_confirmation", a);
            var y := ExtractNaturalKey("daraja_c2b_confirmation", b);
            x.Some? && x == y <==>
              exists text: string :: Holds(a, "TransID", JString(text)) && Holds(b, "TransID", JString(text))
  {
    var x, y := ExtractNaturalKey("daraja_c2b_confirmation", a), ExtractNaturalKey("daraja_c2b_confirmation", b);
    if x.Some? {
      C2bKeyIsTransId(a, x.value);
      C2bKeyIsTransId(b, x.value);
    }
    forall text: string | Holds(a, "TransID", JString(text)) && Holds(b, "TransID", JString(text))
      ensures x.Some? && x == y
    {
      C2bKeyIsTransId(a, JString(text));
      C2bKeyIsTransId(b, JString(text));
    }
  }
}
