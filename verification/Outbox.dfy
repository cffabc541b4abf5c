/**
 The outbound queue: tenant_webhook_deliveries rows, POSTed when due, oldest first, and
 retried with a growing delay until delivered or given up.
 */
module Outbox {

  const MAX_ATTEMPTS := 5
  const BATCH := 20

  /** Seconds to wait after the n-th failure. The last entry is never used. */
  const BACKOFF_SECONDS: seq<int> := [30, 120, 600, 1800, 3600]

  datatype DeliveryStatus = Pending | Delivered | Failed

  /** Times are in milliseconds. */
  datatype Delivery = Delivery(status: DeliveryStatus, attempts: nat, nextAttemptAt: int)

  /** What came of one attempt's request; a secret that does not decrypt never lets it out. */
  datatype Reply = Accepted | Refused | Unreachable | DecryptThrows

  /**
   One attempt: the configuration read with the row, the request, when it started and was
   over, and which of the status writes that follow it commit. There are at most two, the
   second in the catch block of the first. A process that dies before a write loses it.
   */
  datatype Try = Try(configured: bool, reply: Reply, started: int, ended: int, first: bool, second: bool)

  function Enqueued(now: int): Delivery
  {
    Delivery(Pending, 0, now)
  }

  predicate Due(d: Delivery, now: int)
  {
    d.status == Pending && d.nextAttemptAt <= now
  }

  predicate Posts(t: Try)
  {
    t.configured && t.reply != DecryptThrows
  }

  /** Some status write of the attempt commits; otherwise it throws and the row is as before. */
  predicate Recorded(t: Try)
  {
    if !t.configured then t.first
    else
      match t.reply
      case DecryptThrows => false
      case Unreachable => t.first
      case _ => t.first || t.second
  }

  /** The row after a failed attempt. */
  function FailedOnce(d: Delivery, ended: int): Delivery
  {
    if d.attempts + 1 >= MAX_ATTEMPTS then Delivery(Failed, d.attempts + 1, d.nextAttemptAt)
    else Delivery(d.status, d.attempts + 1, ended + BACKOFF_SECONDS[d.attempts] * 1000)
  }

  /** An accepted POST whose DELIVERED write is refused is recorded as a failed one. */
  function Attempted(d: Delivery, t: Try): Delivery
  {
    if !Recorded(t) then d
    else if !t.configured then d.(status := Failed)
    else if t.reply == Accepted && t.first then d.(status := Delivered)
    else FailedOnce(d, t.ended)
  }

  /** The delays of the first four failures, in seconds. */
  function Delay(failures: nat): int
    requires 1 <= failures < MAX_ATTEMPTS
  {
    match failures
    case 1 => 30
    case 2 => 120
    case 3 => 600
    case _ => 1800
  }

  /**
   What one attempt makes of its row. It is DELIVERED iff the server took the POST and the
   first status write commits; a failure that gets written is counted, and retried after
   its delay unless it is the fifth; a row without configuration is given up; and if no
   write commits, or the secret does not decrypt, the row is as it was.
   */
  predicate Outcome(d: Delivery, d': Delivery, t: Try, threw: bool)
  {
    if t.configured && t.reply == Accepted && t.first then !threw && d' == d.(status := Delivered)
    else if !t.configured then threw == !t.first && d' == if t.first then d.(status := Failed) else d
    else if (t.reply in {Accepted, Refused} && t.second) || (t.reply in {Refused, Unreachable} && t.first) then
      && !threw && d'.attempts == d.attempts + 1
      && (if d.attempts < 4
          then d'.status == d.status && d'.nextAttemptAt == t.ended + Delay(d.attempts + 1) * 1000
          else d'.status == Failed && d'.nextAttemptAt == d.nextAttemptAt)
    else threw && d' == d
  }

  lemma AttemptedOutcome(d: Delivery, t: Try)
    requires d.attempts < MAX_ATTEMPTS
    ensures Outcome(d, Attempted(d, t), t, !Recorded(t))
  {
  }

  // ---- The retry bound ----

  /** The attempts that made a POST, in order. */
  function PostsAfter(posts: seq<Try>, t: Try): seq<Try>
  {
    if Posts(t) then posts + [t] else posts
  }

  /** The start times of the recorded POSTs. */
  function Known(posts: seq<Try>): seq<int>
  {
    if posts == [] then []
    else
      var last := posts[|posts| - 1];
      Known(posts[..|posts| - 1]) + if Recorded(last) then [last.started] else []
  }

  /** The server took the POST, and the row was told so. */
  predicate TakenAndMarked(t: Try)
  {
    t.reply == Accepted && t.first
  }

  /** How many POSTs left no trace in the row. */
  function Lost(posts: seq<Try>): nat
  {
    if posts == [] then 0 else Lost(posts[..|posts| - 1]) + if Recorded(posts[|posts| - 1]) then 0 else 1
  }

  /** After n recorded POSTs, the next one, recorded or not, waits for the n-th delay from the n-th. */
  predicate Spaced(posts: seq<Try>)
  {
    posts != [] ==>
      var before := posts[..|posts| - 1];
      && Spaced(before)
      && (0 < |Known(before)| <= MAX_ATTEMPTS ==> posts[|posts| - 1].started >= NotBefore(Known(before)))
  }

  /** The earliest start of a POST after the recorded ones. */
  function NotBefore(known: seq<int>): int
    requires 0 < |known| <= MAX_ATTEMPTS
  {
    known[|known| - 1] + BACKOFF_SECONDS[|known| - 1] * 1000
  }

  /** What the row counts, and when it is due again. */
  ghost predicate CountInv(d: Delivery, posts: seq<Try>)
  {
    && (if d.status == Failed then d.attempts <= MAX_ATTEMPTS else d.attempts < MAX_ATTEMPTS)
    && |Known(posts)| == d.attempts + (if d.status == Delivered then 1 else 0)
    && Spaced(posts)
    && (d.status == Pending && d.attempts > 0 ==> d.nextAttemptAt >= NotBefore(Known(posts)))
  }

  /** Which POST the row was delivered by. */
  predicate MarkInv(d: Delivery, posts: seq<Try>)
  {
    && (forall k | 0 <= k < |posts| - 1 :: !TakenAndMarked(posts[k]))
    && (d.status == Delivered <==> posts != [] && TakenAndMarked(posts[|posts| - 1]))
  }

  ghost predicate RowInv(d: Delivery, posts: seq<Try>)
  {
    CountInv(d, posts) && MarkInv(d, posts)
  }

  lemma KnownSnoc(posts: seq<Try>, t: Try)
    ensures Known(posts + [t]) == Known(posts) + if Recorded(t) then [t.started] else []
    ensures Spaced(posts + [t]) <==>
              Spaced(posts) && (0 < |Known(posts)| <= MAX_ATTEMPTS ==> t.started >= NotBefore(Known(posts)))
  {
    assert (posts + [t])[..|posts|] == posts;
  }

  lemma AttemptKeepsCount(d: Delivery, posts: seq<Try>, t: Try)
    requires CountInv(d, posts) && Due(d, t.started) && t.started <= t.ended
    ensures CountInv(Attempted(d, t), PostsAfter(posts, t))
  {
    KnownSnoc(posts, t);
  }

  lemma AttemptKeepsMark(d: Delivery, posts: seq<Try>, t: Try)
    requires MarkInv(d, posts) && d.status == Pending
    ensures MarkInv(Attempted(d, t), PostsAfter(posts, t))
  {
    var posts' := PostsAfter(posts, t);
    forall k | 0 <= k < |posts'| - 1 ensures !TakenAndMarked(posts'[k]) {
      assert posts'[k] == posts[k];
    }
  }

  lemma AttemptKeeps(d: Delivery, posts: seq<Try>, t: Try)
    requires RowInv(d, posts) && Due(d, t.started) && t.started <= t.ended
    ensures RowInv(Attempted(d, t), PostsAfter(posts, t))
  {
    AttemptKeepsCount(d, posts, t);
    AttemptKeepsMark(d, posts, t);
  }

  /** Any sequence of polls reaching one row; a poll passes over a row that is not due. */
  function Replay(d: Delivery, posts: seq<Try>, tries: seq<Try>): (Delivery, seq<Try>)
    decreases |tries|
  {
    if tries == [] then (d, posts)
    else
      var t := tries[0];
      if Due(d, t.started) && t.started <= t.ended
      then Replay(Attempted(d, t), PostsAfter(posts, t), tries[1..])
      else Replay(d, posts, tries[1..])
  }

  lemma {:induction false} ReplayKeeps(d: Delivery, posts: seq<Try>, tries: seq<Try>)
    requires RowInv(d, posts)
    ensures RowInv(Replay(d, posts, tries).0, Replay(d, posts, tries).1)
    ensures d.status != Pending ==> Replay(d, posts, tries) == (d, posts)
    decreases |tries|
  {
    if tries != [] {
      var t := tries[0];
      if Due(d, t.started) && t.started <= t.ended {
        AttemptKeeps(d, posts, t);
        ReplayKeeps(Attempted(d, t), PostsAfter(posts, t), tries[1..]);
      } else {
        ReplayKeeps(d, posts, tries[1..]);
      }
    }
  }

  lemma {:induction false} KnownOrLost(posts: seq<Try>)
    ensures |posts| == |Known(posts)| + Lost(posts)
    decreases |posts|
  {
    if posts != [] {
      KnownOrLost(posts[..|posts| - 1]);
    }
  }

  /** Recorded POSTs are apart by at least the delays of the backoff table. */
  lemma {:induction false} KnownGaps(posts: seq<Try>)
    requires Spaced(posts) && |Known(posts)| <= MAX_ATTEMPTS
    ensures forall k | 0 <= k < |Known(posts)| - 1 ::
              Known(posts)[k + 1] >= Known(posts)[k] + BACKOFF_SECONDS[k] * 1000
    decreases |posts|
  {
    if posts != [] {
      KnownGaps(posts[..|posts| - 1]);
    }
  }

  lemma KnownSpan(posts: seq<Try>)
    requires Spaced(posts) && |Known(posts)| == MAX_ATTEMPTS
    ensures Known(posts)[4] - Known(posts)[0] >= 2550 * 1000
  {
    KnownGaps(posts);
    var known := Known(posts);
    assert known[1] >= known[0] + BACKOFF_SECONDS[0] * 1000;
    assert known[2] >= known[1] + BACKOFF_SECONDS[1] * 1000;
    assert known[3] >= known[2] + BACKOFF_SECONDS[2] * 1000;
    assert known[4] >= known[3] + BACKOFF_SECONDS[3] * 1000;
  }

  /** What is left of the attempts of one delivery: its row, and every POST that was made. */
  ghost predicate Bounded(d: Delivery, posts: seq<Try>)
  {
    var counted := d.attempts + if d.status == Delivered then 1 else 0;
    && |posts| == counted + Lost(posts) && counted <= 5
    && (|posts| <= 5 <==> Lost(posts) <= 5 - counted)
    && (d.status == Delivered <==> posts != [] && posts[|posts| - 1].reply == Accepted && posts[|posts| - 1].first)
    && (forall k | 0 <= k < |posts| - 1 :: !(posts[k].reply == Accepted && posts[k].first))
    && (counted == 5 ==> |Known(posts)| == 5 && Known(posts)[4] - Known(posts)[0] >= 2550 * 1000)
  }

  lemma CountsAre(d: Delivery, posts: seq<Try>)
    requires RowInv(d, posts)
    ensures var counted := d.attempts + if d.status == Delivered then 1 else 0;
            && |posts| == counted + Lost(posts) && counted <= MAX_ATTEMPTS
            && (counted == MAX_ATTEMPTS ==> |Known(posts)| == 5 && Known(posts)[4] - Known(posts)[0] >= 2550 * 1000)
  {
    KnownOrLost(posts);
    if |Known(posts)| == MAX_ATTEMPTS {
      KnownSpan(posts);
    }
  }

  lemma MarksAre(d: Delivery, posts: seq<Try>)
    requires RowInv(d, posts)
    ensures d.status == Delivered <==> posts != [] && posts[|posts| - 1].reply == Accepted && posts[|posts| - 1].first
    ensures forall k | 0 <= k < |posts| - 1 :: !(posts[k].reply == Accepted && posts[k].first)
  {
    forall k | 0 <= k < |posts| - 1 ensures !(posts[k].reply == Accepted && posts[k].first) {
      assert !TakenAndMarked(posts[k]);
    }
  }

  lemma RowIsBounded(d: Delivery, posts: seq<Try>)
    requires RowInv(d, posts)
    ensures Bounded(d, posts)
  {
    CountsAre(d, posts);
    MarksAre(d, posts);
  }

  /**
   However often the poller runs and whatever writes are lost, the POSTs of a delivery are
   the attempts its row counts, one more once DELIVERED, and the lost ones; so there are at
   most five iff no more are lost than the row has left to count. The row is DELIVERED iff
   its last POST was accepted and marked so, and no POST before it was. DELIVERED and FAILED
   are final, and a fifth recorded POST starts at least 2550 seconds after the first.
   */
  lemma DeliveryIsBounded(now: int, tries: seq<Try>, more: seq<Try>)
    ensures var r := Replay(Enqueued(now), [], tries);
            Bounded(r.0, r.1) && (r.0.status != Pending ==> Replay(r.0, r.1, more) == r)
  {
    ReplayKeeps(Enqueued(now), [], tries);
    var r := Replay(Enqueued(now), [], tries);
    ReplayKeeps(r.0, r.1, more);
    RowIsBounded(r.0, r.1);
  }

  /** `n` accepted POSTs in a row, none of whose status writes commits. */
  function Amnesia(now: int, n: nat): seq<Try>
  {
    seq(n, _ => Try(true, Accepted, now, now, false, false))
  }

  /** Without that condition there is no bound: a tenant can be told the same thing any number of times. */
  lemma {:induction false} LostWritesPostForever(now: int, posts: seq<Try>, n: nat)
    ensures Replay(Enqueued(now), posts, Amnesia(now, n)).0 == Enqueued(now)
    ensures |Replay(Enqueued(now), posts, Amnesia(now, n)).1| == |posts| + n
    decreases n
  {
    if n > 0 {
      assert Amnesia(now, n)[1..] == Amnesia(now, n - 1);
      LostWritesPostForever(now, posts + [Amnesia(now, n)[0]], n - 1);
    }
  }

  // ---- The poller ----

  /** Due rows in order, none passed over for a later one. */
  ghost predicate EarliestDue(ds: seq<Delivery>, now: int, batch: seq<nat>)
  {
    && (forall p, q | 0 <= p < q < |batch| :: batch[p] != batch[q])
    && (forall i: nat | i in batch :: i < |ds| && Due(ds[i], now))
    && (forall p, q | 0 <= p < q < |batch| && batch[p] < |ds| && batch[q] < |ds| ::
          ds[batch[p]].nextAttemptAt <= ds[batch[q]].nextAttemptAt)
    && (forall i, j: nat | i in batch && j < |ds| && j !in batch && Due(ds[j], now) ::
          ds[i].nextAttemptAt <= ds[j].nextAttemptAt)
  }

  /** A batch the due-rows query may return: the first twenty due rows, or all of them. */
  ghost predicate OldestDue(ds: seq<Delivery>, now: int, batch: seq<nat>)
  {
    && EarliestDue(ds, now, batch)
    && |batch| <= BATCH
    && (|batch| < BATCH ==> forall j: nat | j < |ds| && Due(ds[j], now) :: j in batch)
  }

  lemma NextEarliest(ds: seq<Delivery>, now: int, batch: seq<nat>, best: nat)
    requires EarliestDue(ds, now, batch)
    requires best < |ds| && best !in batch && Due(ds[best], now)
    requires forall j: nat | j < |ds| && j !in batch && Due(ds[j], now) :: ds[best].nextAttemptAt <= ds[j].nextAttemptAt
    ensures EarliestDue(ds, now, batch + [best])
  {
    var more := batch + [best];
    forall p, q | 0 <= p < q < |more| && more[p] < |ds| && more[q] < |ds|
      ensures ds[more[p]].nextAttemptAt <= ds[more[q]].nextAttemptAt
    {
      if q == |batch| {
        assert batch[p] in batch;
      }
    }
  }

  /** Exactly the rows of `reached` have had one attempt each. */
  ghost predicate AttemptedRows(
    before: seq<Delivery>, sentBefore: seq<seq<Try>>, after: seq<Delivery>, sentAfter: seq<seq<Try>>,
    reached: seq<nat>, tries: nat -> Try)
  {
    && |before| == |sentBefore| == |after| == |sentAfter|
    && (forall i: nat | i < |before| && i in reached ::
          after[i] == Attempted(before[i], tries(i)) && sentAfter[i] == PostsAfter(sentBefore[i], tries(i)))
    && (forall i: nat | i < |before| && i !in reached :: after[i] == before[i] && sentAfter[i] == sentBefore[i])
  }

  /** The next row of a batch is still as it was when the batch was read. */
  lemma NextRow(
    before: seq<Delivery>, sentBefore: seq<seq<Try>>, after: seq<Delivery>, sentAfter: seq<seq<Try>>,
    batch: seq<nat>, p: nat, now: int, tries: nat -> Try)
    requires OldestDue(before, now, batch) && p < |batch| && now <= tries(batch[p]).started
    requires AttemptedRows(before, sentBefore, after, sentAfter, batch[..p], tries)
    ensures batch[p] < |after| && Due(after[batch[p]], tries(batch[p]).started)
    ensures var i := batch[p];
            AttemptedRows(before, sentBefore, after[i := Attempted(after[i], tries(i))],
                          sentAfter[i := PostsAfter(sentAfter[i], tries(i))], batch[..p + 1], tries)
  {
    assert batch[p] in batch && batch[p] !in batch[..p];
    assert batch[..p + 1] == batch[..p] + [batch[p]];
  }

  /** How far a poll gets: through its batch, or up to the first attempt that throws. */
  ghost predicate Reaches(batch: seq<nat>, reached: seq<nat>, tries: nat -> Try)
  {
    && reached <= batch
    && (forall p | 0 <= p < |reached| - 1 :: Recorded(tries(reached[p])))
    && (reached == batch || Throws(reached, tries))
  }

  predicate Throws(reached: seq<nat>, tries: nat -> Try)
  {
    reached != [] && !Recorded(tries(reached[|reached| - 1]))
  }

  lemma ReachesAll(batch: seq<nat>, p: nat, tries: nat -> Try)
    requires p <= |batch| && (p < |batch| ==> Throws(batch[..p], tries))
    requires forall q | 0 <= q < p - 1 :: Recorded(tries(batch[q]))
    ensures Reaches(batch, batch[..p], tries)
  {
    if p == |batch| {
      assert batch[..p] == batch;
    }
  }

  /** Rows a poll reached have the outcomes of their attempts, of which only the last may throw; others stay. */
  ghost predicate PollOutcomes(before: seq<Delivery>, after: seq<Delivery>, reached: seq<nat>, tries: nat -> Try)
  {
    && |after| == |before|
    && (forall i: nat | i in reached ::
          i < |before| && Outcome(before[i], after[i], tries(i), Throws(reached, tries) && i == reached[|reached| - 1]))
    && (forall i: nat | i < |before| && i !in reached :: after[i] == before[i])
  }

  lemma ReachedOutcomes(
    before: seq<Delivery>, sentBefore: seq<seq<Try>>, after: seq<Delivery>, sentAfter: seq<seq<Try>>,
    now: int, batch: seq<nat>, reached: seq<nat>, tries: nat -> Try)
    requires OldestDue(before, now, batch) && Reaches(batch, reached, tries)
    requires AttemptedRows(before, sentBefore, after, sentAfter, reached, tries)
    requires forall i | 0 <= i < |before| :: Due(before[i], now) ==> before[i].attempts < MAX_ATTEMPTS
    ensures PollOutcomes(before, after, reached, tries)
  {
    forall i: nat | i in reached
      ensures i < |before|
      ensures Outcome(before[i], after[i], tries(i), Throws(reached, tries) && i == reached[|reached| - 1])
    {
      var p :| 0 <= p < |reached| && reached[p] == i;
      assert batch[p] == i && i in batch;
      AttemptedOutcome(before[i], tries(i));
    }
  }

  /** Every row is within its bounds, and exactly the rows given up after five attempts were alerted, once. */
  ghost predicate QueueOk(ds: seq<Delivery>, posts: seq<seq<Try>>, alerts: seq<nat>)
  {
    && |posts| == |ds|
    && (forall i | 0 <= i < |ds| :: RowInv(ds[i], posts[i]))
    && (forall i: nat :: i in alerts <==> i < |ds| && ds[i].attempts == MAX_ATTEMPTS)
    && (forall p, q | 0 <= p < q < |alerts| :: alerts[p] != alerts[q])
  }

  lemma DueMayRetry(ds: seq<Delivery>, posts: seq<seq<Try>>, alerts: seq<nat>, now: int)
    requires QueueOk(ds, posts, alerts)
    ensures forall i | 0 <= i < |ds| :: Due(ds[i], now) ==> ds[i].attempts < MAX_ATTEMPTS
  {
  }

  lemma AttemptKeepsQueue(ds: seq<Delivery>, posts: seq<seq<Try>>, alerts: seq<nat>, i: nat, t: Try)
    requires QueueOk(ds, posts, alerts)
    requires i < |ds| && Due(ds[i], t.started) && t.started <= t.ended
    ensures QueueOk(ds[i := Attempted(ds[i], t)], posts[i := PostsAfter(posts[i], t)],
                    if Attempted(ds[i], t).attempts == MAX_ATTEMPTS then alerts + [i] else alerts)
  {
    AttemptKeeps(ds[i], posts[i], t);
  }

  class TenantWebhookPoller {
    var isPolling: bool
    var deliveries: seq<Delivery>
    var alerts: seq<nat>
    ghost var posts: seq<seq<Try>>

    ghost predicate Valid()
      reads this
    {
      QueueOk(deliveries, posts, alerts)
    }

    constructor ()
      ensures Valid() && !isPolling && deliveries == []
    {
      isPolling, deliveries, alerts, posts := false, [], [], [];
    }

    method Enqueue(now: int)
      requires Valid()
      modifies this`deliveries, this`posts
      ensures Valid()
      ensures deliveries == old(deliveries) + [Enqueued(now)] && posts == old(posts) + [[]]
    {
      deliveries, posts := deliveries + [Enqueued(now)], posts + [[]];
    }

    /** The due row with the smallest nextAttemptAt outside `taken`, if there is one. */
    method NextDue(now: int, taken: seq<nat>) returns (found: bool, best: nat)
      ensures found ==> best < |deliveries| && best !in taken && Due(deliveries[best], now)
      ensures found ==> forall j: nat | j < |deliveries| && j !in taken && Due(deliveries[j], now) ::
                          deliveries[best].nextAttemptAt <= deliveries[j].nextAttemptAt
      ensures !found ==> forall j: nat | j < |deliveries| && Due(deliveries[j], now) :: j in taken
    {
      found, best := false, 0;
      var i := 0;
      while i < |deliveries|
        invariant 0 <= i <= |deliveries|
        invariant found ==> best < i && best !in taken && Due(deliveries[best], now)
        invariant found ==> forall j: nat | j < i && j !in taken && Due(deliveries[j], now) ::
                              deliveries[best].nextAttemptAt <= deliveries[j].nextAttemptAt
        invariant !found ==> forall j: nat | j < i && Due(deliveries[j], now) :: j in taken
      {
        if i !in taken && Due(deliveries[i], now)
           && (!found || deliveries[i].nextAttemptAt < deliveries[best].nextAttemptAt) {
          found, best := true, i;
        }
        i := i + 1;
      }
    }

    /** The ORDER BY nextAttemptAt LIMIT 20 query over due rows. */
    method FindDue(now: int) returns (batch: seq<nat>)
      ensures OldestDue(deliveries, now, batch)
    {
      batch := [];
      var more := true;
      while more && |batch| < BATCH
        invariant |batch| <= BATCH && EarliestDue(deliveries, now, batch)
        invariant !more ==> forall j: nat | j < |deliveries| && Due(deliveries[j], now) :: j in batch
        decreases more, BATCH - |batch|
      {
        var best;
        more, best := NextDue(now, batch);
        if more {
          NextEarliest(deliveries, now, batch, best);
          batch := batch + [best];
        }
      }
    }

    /** Counts a failure, if its write commits. The fifth is the last, and a human is told. */
    method RecordFailure(i: nat, ended: int, commits: bool) returns (ok: bool)
      requires i < |deliveries|
      modifies this`deliveries, this`alerts
      ensures ok == commits
      ensures deliveries == if ok then old(deliveries)[i := FailedOnce(old(deliveries)[i], ended)] else old(deliveries)
      ensures alerts == if ok && deliveries[i].attempts >= MAX_ATTEMPTS then old(alerts) + [i] else old(alerts)
    {
      var d := deliveries[i];
      var attempts := d.attempts + 1;
      if !commits {
        return false;
      }
      if attempts >= MAX_ATTEMPTS {
        deliveries := deliveries[i := d.(status := Failed, attempts := attempts)];
        alerts := alerts + [i];
        return true;
      }
      deliveries := deliveries[i := d.(attempts := attempts,
                                       nextAttemptAt := ended + BACKOFF_SECONDS[attempts - 1] * 1000)];
      return true;
    }

    method SetStatus(i: nat, status: DeliveryStatus, commits: bool) returns (ok: bool)
      requires i < |deliveries|
      modifies this`deliveries
      ensures ok == commits
      ensures deliveries == if ok then old(deliveries)[i := old(deliveries)[i].(status := status)] else old(deliveries)
    {
      ok := commits;
      if ok {
        deliveries := deliveries[i := deliveries[i].(status := status)];
      }
    }

    /** The POST and the status writes after it. */
    method SendAndRecord(i: nat, t: Try) returns (ok: bool)
      requires i < |deliveries| && deliveries[i].attempts < MAX_ATTEMPTS && Posts(t)
      modifies this`deliveries, this`alerts
      ensures ok <==> Recorded(t)
      ensures deliveries == old(deliveries)[i := Attempted(old(deliveries)[i], t)]
      ensures alerts == if deliveries[i].attempts == MAX_ATTEMPTS then old(alerts) + [i] else old(alerts)
    {
      if t.reply == Accepted {
        ok := SetStatus(i, Delivered, t.first);
      } else if t.reply == Refused {
        ok := RecordFailure(i, t.ended, t.first);
      } else {
        ok := false;
      }
      if !ok {
        ok := RecordFailure(i, t.ended, if t.reply == Unreachable then t.first else t.second);
      }
    }

    /**
     Sends one due delivery. It throws iff nothing about the attempt could be recorded: the
     secret does not decrypt, or the status write and the one in its catch block both fail.
     */
    method AttemptDelivery(i: nat, t: Try) returns (threw: bool)
      requires Valid() && i < |deliveries| && Due(deliveries[i], t.started) && t.started <= t.ended
      modifies this`deliveries, this`alerts, this`posts
      ensures Valid()
      ensures deliveries == old(deliveries)[i := Attempted(old(deliveries)[i], t)]
      ensures posts == old(posts)[i := PostsAfter(old(posts)[i], t)]
      ensures threw <==> !Recorded(t)
      ensures Outcome(old(deliveries)[i], deliveries[i], t, threw)
      ensures old(alerts) <= alerts
    {
      AttemptedOutcome(deliveries[i], t);
      AttemptKeepsQueue(deliveries, posts, alerts, i, t);
      posts := posts[i := PostsAfter(posts[i], t)];
      var ok;
      if !t.configured {
        ok := SetStatus(i, Failed, t.first);
      } else if t.reply == DecryptThrows {
        ok := false;
      } else {
        ok := SendAndRecord(i, t);
      }
      threw := !ok;
    }

    /** Attempts the rows of a batch in turn, up to one that throws. */
    method AttemptBatch(batch: seq<nat>, now: int, tries: nat -> Try) returns (reached: seq<nat>)
      requires Valid() && OldestDue(deliveries, now, batch)
      requires forall i: nat :: now <= tries(i).started <= tries(i).ended
      modifies this`deliveries, this`alerts, this`posts
      ensures Valid()
      ensures AttemptedRows(old(deliveries), old(posts), deliveries, posts, reached, tries)
      ensures Reaches(batch, reached, tries)
    {
      var p, threw := 0, false;
      while p < |batch| && !threw
        invariant 0 <= p <= |batch| && Valid()
        invariant AttemptedRows(old(deliveries), old(posts), deliveries, posts, batch[..p], tries)
        invariant forall q | 0 <= q < if threw then p - 1 else p :: Recorded(tries(batch[q]))
        invariant threw ==> Throws(batch[..p], tries)
      {
        NextRow(old(deliveries), old(posts), deliveries, posts, batch, p, now, tries);
        threw := AttemptDelivery(batch[p], tries(batch[p]));
        p := p + 1;
      }
      ReachesAll(batch, p, tries);
      reached := batch[..p];
    }

    /**
     One poll: the oldest due rows are attempted in turn and nothing else changes. An attempt
     that throws ends the poll with the rest of its batch untouched. `batch` is what the query
     returned, `reached` the part of it that was attempted.
     */
    method PollPendingDeliveries(now: int, tries: nat -> Try)
      returns (threw: bool, ghost batch: seq<nat>, ghost reached: seq<nat>)
      requires Valid()
      requires forall i: nat :: now <= tries(i).started <= tries(i).ended
      modifies this
      ensures Valid() && isPolling == old(isPolling)
      ensures AttemptedRows(old(deliveries), old(posts), deliveries, posts, reached, tries)
      ensures if old(isPolling) then reached == []
              else OldestDue(old(deliveries), now, batch) && Reaches(batch, reached, tries)
      ensures threw <==> Throws(reached, tries)
      ensures PollOutcomes(old(deliveries), deliveries, reached, tries)
    {
      if isPolling {
        return false, [], [];
      }
      isPolling := true;
      var due := FindDue(now);
      DueMayRetry(deliveries, posts, alerts, now);
      var attempted := AttemptBatch(due, now, tries);
      isPolling := false;
      ReachedOutcomes(old(deliveries), old(posts), deliveries, posts, now, due, attempted, tries);
      return Throws(attempted, tries), due, attempted;
    }
  }
}
