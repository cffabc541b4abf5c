/**
 The inbound queue: webhook_events rows, inserted once per (source, natural key) and
 polled oldest first in batches of twenty, each tried at most five times.
 */
module Inbox {
  import opened Store

  const MAX_ATTEMPTS := 5
  const BATCH := 20

  /** Rows are kept in order of arrival; `processed` stands for a non-null processedAt. */
  datatype Event = Event(source: string, key: string, attempts: nat, processed: bool)

  predicate Eligible(e: Event)
  {
    !e.processed && e.attempts < MAX_ATTEMPTS
  }

  /** How many older rows the poll would pick before row `i`. */
  function Rank(events: seq<Event>, i: nat): nat
    requires i <= |events|
  {
    if i == 0 then 0 else Rank(events, i - 1) + if Eligible(events[i - 1]) then 1 else 0
  }

  predicate Picked(events: seq<Event>, i: nat)
    requires i < |events|
  {
    Eligible(events[i]) && Rank(events, i) < BATCH
  }

  /** A row after one recorded try. */
  function Tried(e: Event, ok: bool): Event
  {
    if ok then e.(processed := true) else e.(attempts := e.attempts + 1)
  }

  /**
   One poll. `ok` are the rows that are handled and marked so; `reach` is how many rows the
   poll gets through before an update of a row is refused twice, or the process dies.
   */
  function Polled(events: seq<Event>, ok: set<nat>, reach: nat): (r: seq<Event>)
    ensures |r| == |events|
  {
    seq(|events|, i requires 0 <= i < |events| =>
                    if Picked(events, i) && Rank(events, i) < reach then Tried(events[i], i in ok) else events[i])
  }

  // ---- Bounded wait ----

  /** Rows that arrived since the last poll, and the outcome of the poll that follows. */
  datatype Round = Round(arrivals: seq<Event>, ok: set<nat>, reach: nat)

  /** How many of the polls are not cut short. */
  function Whole(rounds: seq<Round>): nat
  {
    if rounds == [] then 0 else (if rounds[0].reach >= BATCH then 1 else 0) + Whole(rounds[1..])
  }

  function After(events: seq<Event>, rounds: seq<Round>): (r: seq<Event>)
    ensures |r| >= |events|
    decreases |rounds|
  {
    if rounds == [] then events
    else After(Polled(events + rounds[0].arrivals, rounds[0].ok, rounds[0].reach), rounds[1..])
  }

  lemma {:induction false} RankPrefix(events: seq<Event>, more: seq<Event>, i: nat)
    requires i <= |events|
    ensures Rank(events + more, i) == Rank(events, i)
  {
    if i > 0 {
      RankPrefix(events, more, i - 1);
    }
  }

  /** Later states of the same rows never make an old row eligible again. */
  ghost predicate Later(a: seq<Event>, b: seq<Event>)
  {
    |a| <= |b| && forall i | 0 <= i < |a| :: Eligible(b[i]) ==> Eligible(a[i])
  }

  lemma {:induction false} RankShrinks(a: seq<Event>, b: seq<Event>, i: nat)
    requires Later(a, b) && i <= |a|
    ensures Rank(b, i) <= Rank(a, i)
  {
    if i > 0 {
      RankShrinks(a, b, i - 1);
    }
  }

  lemma RoundIsLater(events: seq<Event>, round: Round)
    ensures Later(events, Polled(events + round.arrivals, round.ok, round.reach))
  {
  }

  lemma {:induction false} AfterIsLater(events: seq<Event>, rounds: seq<Round>)
    ensures Later(events, After(events, rounds))
    decreases |rounds|
  {
    if rounds != [] {
      RoundIsLater(events, rounds[0]);
      AfterIsLater(Polled(events + rounds[0].arrivals, rounds[0].ok, rounds[0].reach), rounds[1..]);
    }
  }

  lemma {:induction false} AfterSplit(events: seq<Event>, a: seq<Round>, b: seq<Round>)
    ensures After(events, a + b) == After(After(events, a), b)
    decreases |a|
  {
    if a == [] {
      assert a + b == b;
    } else {
      assert (a + b)[1..] == a[1..] + b;
      AfterSplit(Polled(events + a[0].arrivals, a[0].ok, a[0].reach), a[1..], b);
    }
  }

  /** A row among the first twenty is tried in every poll that is not cut short, until it is finished. */
  lemma {:induction false} FrontRowIsTried(events: seq<Event>, rounds: seq<Round>, i: nat)
    requires i < |events| && Rank(events, i) < BATCH
    ensures Eligible(After(events, rounds)[i]) ==>
              After(events, rounds)[i].attempts >= events[i].attempts + Whole(rounds)
    decreases |rounds|
  {
    if rounds != [] {
      var all := events + rounds[0].arrivals;
      var next := Polled(all, rounds[0].ok, rounds[0].reach);
      RankPrefix(events, rounds[0].arrivals, i);
      RoundIsLater(events, rounds[0]);
      RankShrinks(events, next, i);
      FrontRowIsTried(next, rounds[1..], i);
      AfterIsLater(next, rounds[1..]);
    }
  }

  /** If everything ranked below twenty is finished, twenty rows have left the queue. */
  lemma {:induction false} RankDrops(a: seq<Event>, b: seq<Event>, i: nat)
    requires i <= |a| && Later(a, b)
    requires forall j | 0 <= j < i && Rank(a, j) < BATCH :: !Eligible(b[j])
    ensures Rank(b, i) <= if Rank(a, i) < BATCH then 0 else Rank(a, i) - BATCH
  {
    if i > 0 {
      RankDrops(a, b, i - 1);
    }
  }

  lemma FivePollsClearTheFront(events: seq<Event>, rounds: seq<Round>, i: nat)
    requires i <= |events| && Whole(rounds) == MAX_ATTEMPTS
    ensures Rank(After(events, rounds), i) <= if Rank(events, i) < 20 then 0 else Rank(events, i) - 20
    ensures i < |events| && Rank(events, i) < 20 ==> !Eligible(After(events, rounds)[i])
  {
    forall j | 0 <= j < |events| && Rank(events, j) < BATCH ensures !Eligible(After(events, rounds)[j]) {
      FrontRowIsTried(events, rounds, j);
    }
    AfterIsLater(events, rounds);
    RankDrops(events, After(events, rounds), i);
  }

  /** Where the n-th poll that is not cut short is over. */
  lemma {:induction false} SplitAtWhole(rounds: seq<Round>, n: nat) returns (j: nat)
    requires n <= Whole(rounds)
    ensures j <= |rounds| && Whole(rounds[..j]) == n && Whole(rounds[j..]) == Whole(rounds) - n
    decreases |rounds|
  {
    if n == 0 {
      j := 0;
      assert rounds[0..] == rounds;
    } else {
      var rest := rounds[1..];
      j := SplitAtWhole(rest, if rounds[0].reach >= BATCH then n - 1 else n);
      assert rounds[..j + 1][1..] == rest[..j] && rounds[j + 1..] == rest[j..];
      j := j + 1;
    }
  }

  /**
   Bounded wait: a row with k older eligible rows is processed or exhausted after
   5 * (k / 20 + 1) polls that are not cut short, whatever arrives later, whichever handlers
   fail, and however many polls in between are cut short anywhere.
   */
  lemma {:induction false} BoundedWait(events: seq<Event>, rounds: seq<Round>, i: nat)
    requires i < |events|
    requires Whole(rounds) >= 5 * (Rank(events, i) / 20 + 1)
    ensures After(events, rounds)[i].processed || After(events, rounds)[i].attempts >= 5
    ensures !Eligible(After(events, rounds)[i])
    decreases Rank(events, i)
  {
    var j := SplitAtWhole(rounds, MAX_ATTEMPTS);
    var head, tail := rounds[..j], rounds[j..];
    assert rounds == head + tail;
    var mid := After(events, head);
    AfterSplit(events, head, tail);
    FivePollsClearTheFront(events, head, i);
    if Rank(events, i) < BATCH {
      AfterIsLater(mid, tail);
    } else {
      BatchesDrop(Rank(mid, i), Rank(events, i));
      BoundedWait(mid, tail, i);
    }
  }

  lemma BatchesDrop(after: nat, before: nat)
    requires after + BATCH <= before
    ensures MAX_ATTEMPTS * (after / BATCH + 1) <= MAX_ATTEMPTS * (before / BATCH + 1) - MAX_ATTEMPTS
  {
  }

  // ---- The poller ----

  /** At most five recorded tries, and one alert for exactly the exhausted rows. */
  ghost predicate QueueInv(events: seq<Event>, alerts: seq<nat>)
  {
    && (forall i | 0 <= i < |events| :: events[i].attempts <= MAX_ATTEMPTS)
    && (forall i | 0 <= i < |events| :: events[i].processed ==> events[i].attempts < MAX_ATTEMPTS)
    && (forall i | 0 <= i < |events| :: events[i].attempts == MAX_ATTEMPTS <==> i in alerts)
    && (forall p, q | 0 <= p < q < |alerts| :: alerts[p] != alerts[q])
    && (forall a | a in alerts :: a < |events|)
  }

  ghost predicate KeysUnique(events: seq<Event>)
  {
    forall i, j | 0 <= i < j < |events| :: events[i].source != events[j].source || events[i].key != events[j].key
  }

  /** The rows of `batch[..p]` have been tried, the others not yet. */
  ghost predicate TriedSoFar(before: seq<Event>, now: seq<Event>, batch: seq<nat>, p: nat, ok: set<nat>)
    requires p <= |batch|
  {
    && |now| == |before|
    && forall i: nat | i < |before| ::
         now[i] == if i in batch[..p] then Tried(before[i], i in ok) else before[i]
  }

  /**
   What happens to one row in a poll: whether its handler returns, and whether the update
   marking it processed and the one counting a failure would commit.
   */
  datatype Try = Try(handled: bool, marked: bool, counted: bool)

  predicate Succeeds(t: Try)
  {
    t.handled && t.marked
  }

  predicate Lost(t: Try)
  {
    !Succeeds(t) && !t.counted
  }

  /**
   What one try makes of its row: processed iff the handler returned and the mark commits, and
   otherwise one attempt more iff the count commits.
   */
  predicate TriedOnce(e: Event, e': Event, t: Try)
  {
    && e'.source == e.source && e'.key == e.key
    && (e'.processed <==> e.processed || (t.handled && t.marked))
    && e'.attempts == e.attempts + if !(t.handled && t.marked) && t.counted then 1 else 0
  }

  function Good(n: nat, tries: nat -> Try): (r: set<nat>)
    ensures forall i: nat :: i in r <==> i < n && Succeeds(tries(i))
  {
    set i: nat | i < n && Succeeds(tries(i))
  }

  /** Trying the first `p` rows of the batch is the poll cut short there, or the whole poll. */
  lemma TriedIsPolled(before: seq<Event>, now: seq<Event>, batch: seq<nat>, p: nat, ok: set<nat>)
    requires p <= |batch| <= BATCH && TriedSoFar(before, now, batch, p, ok)
    requires forall i: nat :: i in batch <==> i < |before| && Picked(before, i)
    requires forall q | 0 <= q < |batch| :: batch[q] < |before| && Rank(before, batch[q]) == q
    ensures now == Polled(before, ok, p)
    ensures p == |batch| ==> now == Polled(before, ok, BATCH)
  {
    forall i: nat | i < |before| ensures i in batch[..p] <==> Picked(before, i) && Rank(before, i) < p {
      if i in batch {
        var q :| 0 <= q < |batch| && batch[q] == i;
      }
    }
  }

  /** The tries of the rows a poll got through were all recorded. */
  predicate NoneLost(batch: seq<nat>, p: nat, tries: nat -> Try)
    requires p <= |batch|
  {
    forall q | 0 <= q < p :: !Lost(tries(batch[q]))
  }

  /** What a poll makes of every row: the first `reach` picked ones are tried once, the others stay. */
  ghost predicate PolledRows(before: seq<Event>, now: seq<Event>, reach: nat, tries: nat -> Try)
  {
    && |now| == |before|
    && forall i: nat | i < |before| ::
         if Picked(before, i) && Rank(before, i) < reach then TriedOnce(before[i], now[i], tries(i))
         else now[i] == before[i]
  }

  lemma PolledOnce(before: seq<Event>, batch: seq<nat>, p: nat, reach: nat, tries: nat -> Try)
    requires p <= |batch| <= BATCH && NoneLost(batch, p, tries)
    requires forall i: nat :: i in batch <==> i < |before| && Picked(before, i)
    requires forall q | 0 <= q < |batch| :: batch[q] < |before| && Rank(before, batch[q]) == q
    requires reach == p || (p == |batch| && reach == BATCH)
    ensures PolledRows(before, Polled(before, Good(|before|, tries), reach), reach, tries)
  {
    var now := Polled(before, Good(|before|, tries), reach);
    forall i: nat | i < |before| && Picked(before, i) && Rank(before, i) < reach
      ensures TriedOnce(before[i], now[i], tries(i))
    {
      var q :| 0 <= q < |batch| && batch[q] == i;
      assert !Lost(tries(batch[q]));
    }
  }

  lemma TriedOneMore(before: seq<Event>, now: seq<Event>, batch: seq<nat>, p: nat, ok: set<nat>)
    requires p < |batch| && TriedSoFar(before, now, batch, p, ok)
    requires batch[p] < |before| && batch[p] !in batch[..p]
    ensures now[batch[p]] == before[batch[p]]
    ensures TriedSoFar(before, now[batch[p] := Tried(now[batch[p]], batch[p] in ok)], batch, p + 1, ok)
  {
    assert batch[..p + 1] == batch[..p] + [batch[p]];
  }

  datatype Ingested = Stored | Duplicate | BadRequest

  class WebhookPoller {
    var isPolling: bool
    var events: seq<Event>
    var alerts: seq<nat>

    ghost predicate Valid()
      reads this
    {
      QueueInv(events, alerts) && KeysUnique(events)
    }

    constructor ()
      ensures Valid() && !isPolling && events == [] && alerts == []
    {
      isPolling, events, alerts := false, [], [];
    }

    /** Insert or ignore on (source, natural key); a redelivery changes nothing. */
    method Ingest(source: string, key: Option<string>) returns (r: Ingested)
      requires Valid()
      modifies this`events
      ensures Valid()
      ensures r == BadRequest <==> !Truthy(key)
      ensures r == Duplicate <==>
                Truthy(key) && exists e :: e in old(events) && e.source == source && e.key == key.value
      ensures events == if r == Stored then old(events) + [Event(source, key.value, 0, false)] else old(events)
    {
      if !Truthy(key) {
        return BadRequest;
      }
      var i := 0;
      while i < |events|
        invariant 0 <= i <= |events|
        invariant forall j | 0 <= j < i :: events[j].source != source || events[j].key != key.value
      {
        if events[i].source == source && events[i].key == key.value {
          assert events[i] in events;
          return Duplicate;
        }
        i := i + 1;
      }
      events := events + [Event(source, key.value, 0, false)];
      r := Stored;
    }

    /** The ORDER BY receivedAt LIMIT 20 query. */
    method FindBatch() returns (batch: seq<nat>)
      ensures |batch| <= BATCH
      ensures forall p, q | 0 <= p < q < |batch| :: batch[p] < batch[q]
      ensures forall i: nat :: i in batch <==> i < |events| && Picked(events, i)
      ensures forall p | 0 <= p < |batch| :: batch[p] < |events| && Rank(events, batch[p]) == p
    {
      batch := [];
      var i := 0;
      while i < |events|
        invariant 0 <= i <= |events|
        invariant |batch| == if Rank(events, i) < BATCH then Rank(events, i) else BATCH
        invariant forall p | 0 <= p < |batch| :: batch[p] < i && Rank(events, batch[p]) == p
        invariant forall p, q | 0 <= p < q < |batch| :: batch[p] < batch[q]
        invariant forall j: nat :: j in batch <==> j < i && Picked(events, j)
      {
        if Eligible(events[i]) && |batch| < BATCH {
          batch := batch + [i];
        }
        i := i + 1;
      }
    }

    /**
     Marks a handled row processed, or else counts the failure and alerts on the fifth. It
     throws, and leaves the row as it was, iff neither update commits.
     */
    method ProcessEvent(i: nat, try: Try) returns (threw: bool)
      requires Valid() && i < |events| && Eligible(events[i])
      modifies this`events, this`alerts
      ensures Valid()
      ensures threw <==> Lost(try)
      ensures |events| == |old(events)| && TriedOnce(old(events)[i], events[i], try)
      ensures forall j | 0 <= j < |events| && j != i :: events[j] == old(events)[j]
      ensures events == if threw then old(events) else old(events)[i := Tried(old(events)[i], Succeeds(try))]
      ensures alerts == if events[i].attempts == MAX_ATTEMPTS then old(alerts) + [i] else old(alerts)
    {
      if try.handled && try.marked {
        events := events[i := events[i].(processed := true)];
        return false;
      }
      if !try.counted {
        return true;
      }
      var attempts := events[i].attempts + 1;
      events := events[i := events[i].(attempts := attempts)];
      if attempts >= MAX_ATTEMPTS {
        alerts := alerts + [i];
      }
      return false;
    }

    /** Tries the rows of a batch in turn, up to one whose try cannot be recorded. */
    method TryBatch(batch: seq<nat>, tries: nat -> Try) returns (threw: bool, p: nat)
      requires Valid() && forall i: nat :: i in batch <==> i < |events| && Picked(events, i)
      requires forall q | 0 <= q < |batch| :: batch[q] < |events| && Rank(events, batch[q]) == q
      modifies this`events, this`alerts
      ensures Valid() && old(alerts) <= alerts
      ensures p <= |batch| && NoneLost(batch, p, tries)
      ensures TriedSoFar(old(events), events, batch, p, Good(|old(events)|, tries))
      ensures if threw then p < |batch| && Lost(tries(batch[p])) else p == |batch|
    {
      ghost var ok := Good(|events|, tries);
      p, threw := 0, false;
      while p < |batch|
        invariant 0 <= p <= |batch| && Valid() && old(alerts) <= alerts
        invariant TriedSoFar(old(events), events, batch, p, ok)
        invariant NoneLost(batch, p, tries)
        invariant !threw
      {
        var i := batch[p];
        assert i in batch && i !in batch[..p];
        TriedOneMore(old(events), events, batch, p, ok);
        threw := ProcessEvent(i, tries(i));
        if threw {
          return;
        }
        p := p + 1;
      }
    }

    /**
     One poll of the queue; a call while another is running does nothing. A row whose tries
     cannot be recorded ends the poll with the rest of its batch untouched.
     */
    method PollUnprocessedEvents(tries: nat -> Try) returns (threw: bool, ghost reach: nat)
      requires Valid()
      modifies this
      ensures Valid()
      ensures isPolling == old(isPolling)
      ensures events == if old(isPolling) then old(events) else Polled(old(events), Good(|old(events)|, tries), reach)
      ensures if old(isPolling) then events == old(events) else PolledRows(old(events), events, reach, tries)
      ensures !threw ==> reach >= BATCH
      ensures threw ==> exists i: nat ::
                i < |old(events)| && Picked(old(events), i) && Rank(old(events), i) == reach && Lost(tries(i))
      ensures old(alerts) <= alerts
    {
      if isPolling {
        return false, BATCH;
      }
      isPolling := true;
      var batch := FindBatch();
      var p;
      threw, p := TryBatch(batch, tries);
      reach := if threw then p else BATCH;
      TriedIsPolled(old(events), events, batch, p, Good(|old(events)|, tries));
      PolledOnce(old(events), batch, p, reach, tries);
      isPolling := false;
      assert threw ==> batch[p] in batch && Picked(old(events), batch[p]);
    }
  }
}
