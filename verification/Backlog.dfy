/**
 How long a due delivery waits behind others: the outbound queue over many polls, in which
 an attempt that throws cuts its poll short.
 */
module Backlog {
  import opened Outbox

  /** One poll: the queue before and after, its clock, what became of each attempt, the rows queried and attempted. */
  datatype Poll = Poll(
    start: seq<Delivery>, end: seq<Delivery>, now: int, tries: nat -> Try, batch: seq<nat>, reached: seq<nat>)

  ghost predicate PollOk(poll: Poll)
  {
    && OldestDue(poll.start, poll.now, poll.batch)
    && Reaches(poll.batch, poll.reached, poll.tries)
    && |poll.end| == |poll.start|
    && (forall j: nat | j < |poll.start| ::
          poll.end[j] == if j in poll.reached then Attempted(poll.start[j], poll.tries(j)) else poll.start[j])
    && (forall j: nat :: poll.now <= poll.tries(j).started <= poll.tries(j).ended)
  }

  /** Rows that arrive between polls are due later than row `i`. */
  ghost predicate Arrivals(before: seq<Delivery>, after: seq<Delivery>, i: nat)
    requires i < |before|
  {
    before <= after && forall j | |before| <= j < |after| :: after[j].nextAttemptAt > before[i].nextAttemptAt
  }

  /** `stuck` are the rows whose attempts throw, as that of a secret that does not decrypt does. */
  ghost predicate ThrowsExactly(poll: Poll, stuck: set<nat>)
  {
    forall j: nat :: Recorded(poll.tries(j)) <==> j !in stuck
  }

  ghost predicate PollAt(polls: seq<Poll>, i: nat, stuck: set<nat>, k: nat)
    requires k < |polls|
  {
    && PollOk(polls[k]) && ThrowsExactly(polls[k], stuck)
    && i < |polls[k].start| && i < |polls[0].start| && polls[0].start[i].nextAttemptAt <= polls[k].now
    && (k + 1 < |polls| ==> Arrivals(polls[k].end, polls[k + 1].start, i))
  }

  /** Polls one after another, all at times when the pending row `i` is due by its first due time. */
  ghost predicate Polls(polls: seq<Poll>, i: nat, stuck: set<nat>)
  {
    && polls != []
    && (forall k: nat | k < |polls| :: PollAt(polls, i, stuck, k))
    && i < |polls[0].start| && polls[0].start[i].status == Pending
  }

  /** The rows that a poll takes before row `i`, or may take before it on a tie. */
  ghost function Ahead(ds: seq<Delivery>, i: nat): (r: set<nat>)
    requires i < |ds|
    ensures forall j: nat :: j in r <==>
              j < |ds| && j != i && ds[j].status == Pending && ds[j].nextAttemptAt <= ds[i].nextAttemptAt
  {
    set j: nat | j < |ds| && j != i && ds[j].status == Pending && ds[j].nextAttemptAt <= ds[i].nextAttemptAt
  }

  ghost function Elements(s: seq<nat>): (r: set<nat>)
    ensures forall j :: j in r <==> j in s
  {
    set j | j in s
  }

  lemma {:induction false} DistinctElements(s: seq<nat>)
    requires forall p, q | 0 <= p < q < |s| :: s[p] != s[q]
    ensures |Elements(s)| == |s|
    decreases |s|
  {
    if s == [] {
      assert Elements(s) == {};
    } else {
      var front, last := s[..|s| - 1], s[|s| - 1];
      assert s == front + [last];
      DistinctElements(front);
      assert Elements(s) == Elements(front) + {last};
    }
  }

  // ---- One poll ----

  /** A queried row that is not attempted has a throwing row ahead of it. */
  lemma CutShortBy(poll: Poll, i: nat) returns (j: nat)
    requires PollOk(poll) && i in poll.batch && i !in poll.reached
    ensures i < |poll.start| && j in Ahead(poll.start, i) && !Recorded(poll.tries(j))
  {
    var last := |poll.reached| - 1;
    j := poll.reached[last];
    assert j == poll.batch[last] && j in poll.batch;
    var p :| 0 <= p < |poll.batch| && poll.batch[p] == i;
    assert p > last;
  }

  /** An attempted row's poll got past every row that is due earlier. */
  lemma EarlierIsRecorded(poll: Poll, i: nat, b: nat)
    requires PollOk(poll) && i in poll.reached && i < |poll.start|
    requires b < |poll.start| && Due(poll.start[b], poll.now)
    requires poll.start[b].nextAttemptAt < poll.start[i].nextAttemptAt
    ensures Recorded(poll.tries(b))
  {
    var p :| 0 <= p < |poll.reached| && poll.reached[p] == i;
    assert poll.batch[p] == i && i in poll.batch;
    assert b in poll.batch;
    var q :| 0 <= q < |poll.batch| && poll.batch[q] == b;
    assert q < p && poll.reached[q] == b;
  }

  /** A poll that attempts neither row `i` nor a stuck row ahead of it attempts twenty rows ahead. */
  lemma PassedOver(poll: Poll, i: nat, stuck: set<nat>)
    requires PollOk(poll) && ThrowsExactly(poll, stuck)
    requires i < |poll.start| && Due(poll.start[i], poll.now) && i !in poll.reached
    requires Ahead(poll.start, i) !! stuck
    ensures poll.reached == poll.batch && |poll.batch| == BATCH
    ensures Elements(poll.batch) <= Ahead(poll.start, i)
  {
    if i in poll.batch {
      var j := CutShortBy(poll, i);
    }
    forall j | j in poll.batch ensures j in Ahead(poll.start, i) {
      assert poll.start[j].nextAttemptAt <= poll.start[i].nextAttemptAt;
    }
    var last := |poll.reached| - 1;
    if last >= 0 {
      assert poll.reached[last] == poll.batch[last] && poll.batch[last] in poll.batch;
    }
  }

  /** Rows that were attempted are finished or due later. */
  lemma WorkedOff(poll: Poll, i: nat, stuck: set<nat>)
    requires PollOk(poll) && ThrowsExactly(poll, stuck)
    requires i < |poll.start| && Due(poll.start[i], poll.now) && i !in poll.reached
    requires Ahead(poll.start, i) !! stuck
    ensures poll.end[i] == poll.start[i]
    ensures Ahead(poll.end, i) == Ahead(poll.start, i) - Elements(poll.batch)
    ensures |Ahead(poll.start, i)| >= BATCH && |Ahead(poll.end, i)| == |Ahead(poll.start, i)| - BATCH
  {
    PassedOver(poll, i, stuck);
    forall j: nat | j in poll.batch ensures j !in Ahead(poll.end, i) {
      assert j in Ahead(poll.start, i) && Recorded(poll.tries(j));
      assert poll.end[j] == Attempted(poll.start[j], poll.tries(j));
    }
    DistinctElements(poll.batch);
    assert Ahead(poll.start, i) == Ahead(poll.end, i) + Elements(poll.batch);
  }

  /** A poll never gets past a stuck row to one that is due later. */
  lemma NotReachedPast(poll: Poll, i: nat, stuck: set<nat>, b: nat)
    requires PollOk(poll) && ThrowsExactly(poll, stuck) && i < |poll.start|
    requires b < |poll.start| && b in stuck && Due(poll.start[b], poll.now)
    requires poll.start[b].nextAttemptAt < poll.start[i].nextAttemptAt
    ensures i !in poll.reached && poll.end[i] == poll.start[i] && poll.end[b] == poll.start[b]
  {
    if i in poll.reached {
      EarlierIsRecorded(poll, i, b);
    }
  }

  // ---- Many polls ----

  /** While row `i` waits, it is as it was, and twenty rows ahead are gone after every poll. */
  lemma {:induction false} BacklogShrinks(polls: seq<Poll>, i: nat, stuck: set<nat>, k: nat)
    requires Polls(polls, i, stuck) && k < |polls|
    requires Ahead(polls[0].start, i) !! stuck
    requires forall m | 0 <= m < k :: i !in polls[m].reached
    ensures i < |polls[k].start| && polls[k].start[i] == polls[0].start[i]
    ensures Ahead(polls[k].start, i) <= Ahead(polls[0].start, i)
    ensures |Ahead(polls[k].start, i)| == |Ahead(polls[0].start, i)| - BATCH * k
    decreases k
  {
    if k > 0 {
      BacklogShrinks(polls, i, stuck, k - 1);
      assert PollAt(polls, i, stuck, k - 1);
      WorkedOff(polls[k - 1], i, stuck);
      assert Ahead(polls[k].start, i) == Ahead(polls[k - 1].end, i);
    }
  }

  /** Behind no stuck row, k due rows cost a delivery at most k / 20 polls. */
  lemma ReachedInTime(polls: seq<Poll>, i: nat, stuck: set<nat>)
    requires Polls(polls, i, stuck)
    requires Ahead(polls[0].start, i) !! stuck
    requires |polls| > |Ahead(polls[0].start, i)| / BATCH
    ensures exists k | 0 <= k < |polls| :: i in polls[k].reached
  {
    if forall k | 0 <= k < |polls| :: i !in polls[k].reached {
      var k := |Ahead(polls[0].start, i)| / BATCH;
      BacklogShrinks(polls, i, stuck, k);
      assert PollAt(polls, i, stuck, k);
      WorkedOff(polls[k], i, stuck);
    }
  }

  /** A stuck row that is due earlier keeps its place for good. */
  lemma {:induction false} NeverReached(polls: seq<Poll>, i: nat, stuck: set<nat>, b: nat, k: nat)
    requires Polls(polls, i, stuck) && k < |polls|
    requires b in Ahead(polls[0].start, i) && b in stuck
    requires polls[0].start[b].nextAttemptAt < polls[0].start[i].nextAttemptAt
    ensures i < |polls[k].start| && polls[k].start[i] == polls[0].start[i]
    ensures b < |polls[k].start| && polls[k].start[b] == polls[0].start[b]
    ensures i !in polls[k].reached
    decreases k
  {
    if k > 0 {
      NeverReached(polls, i, stuck, b, k - 1);
      assert PollAt(polls, i, stuck, k - 1);
      NotReachedPast(polls[k - 1], i, stuck, b);
    }
    assert PollAt(polls, i, stuck, k);
    NotReachedPast(polls[k], i, stuck, b);
  }

  /**
   Head-of-line blocking, exactly: a due delivery with k pending rows due no later is
   attempted within k / 20 + 1 polls iff none of those rows is one whose attempts throw;
   behind one that is due earlier and throws, it is never attempted.
   */
  lemma AttemptedIffNotBlocked(polls: seq<Poll>, i: nat, stuck: set<nat>)
    requires Polls(polls, i, stuck)
    requires forall j | j in Ahead(polls[0].start, i) && j in stuck ::
               polls[0].start[j].nextAttemptAt != polls[0].start[i].nextAttemptAt
    requires |polls| > |Ahead(polls[0].start, i)| / 20
    ensures (exists k | 0 <= k < |polls| :: i in polls[k].reached) <==> Ahead(polls[0].start, i) !! stuck
  {
    if Ahead(polls[0].start, i) !! stuck {
      ReachedInTime(polls, i, stuck);
    } else {
      var b :| b in Ahead(polls[0].start, i) && b in stuck;
      forall k | 0 <= k < |polls| ensures i !in polls[k].reached {
        NeverReached(polls, i, stuck, b, k);
      }
    }
  }
}
