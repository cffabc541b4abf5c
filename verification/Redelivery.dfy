/**
 A C2B event whose payment is committed but whose own update is lost, as in a crash between
 the two: what the queue makes of it.
 */
module Redelivery {
  import opened Ledger
  import opened Store
  import opened Bank
  import opened Interleaving
  import opened Runs
  import Inbox

  /** One poll's try of the event: the moment its transaction commits or aborts, and what it tries to record. */
  datatype Retry = Retry(at: nat, op: Op, hook: bool)

  /** The handler of row `e` returns only if its transaction goes through. */
  predicate Tries(ss: seq<Conc>, a: Op, after: nat, rounds: seq<Inbox.Round>, retries: seq<Retry>, e: nat)
    requires a.C2bRecord?
  {
    && |retries| == |rounds|
    && forall k | 0 <= k < |rounds| ::
         && after < retries[k].at < |ss|
         && retries[k].op.C2bRecord? && retries[k].op.transId == a.transId
         && (e in rounds[k].ok ==> Exec(ss[retries[k].at].db, retries[k].op, retries[k].hook).Done?)
  }

  /** No later try of a committed confirmation goes through. */
  lemma RetryAborts(ss: seq<Conc>, ms: seq<Move>, i: nat, j: nat, a: Op, b: Op, hook: bool)
    requires ConcRun(ss, ms) && i < |ms| && i < j < |ss| && Commits(ss[i], ms[i], a)
    requires a.C2bRecord? && b.C2bRecord? && a.transId == b.transId
    ensures Exec(ss[j].db, b, hook).Abort?
  {
    CommitIsEnabled(ss, ms, i, a);
    InsertPersists(ss, ms, i, j, a);
    NoSecondInsert(ss[j].db, b, a.id);
  }

  lemma {:induction false} NeverProcessed(events: seq<Inbox.Event>, rounds: seq<Inbox.Round>, e: nat)
    requires e < |events| && !events[e].processed
    requires forall k | 0 <= k < |rounds| :: e !in rounds[k].ok
    ensures !Inbox.After(events, rounds)[e].processed
    decreases |rounds|
  {
    if rounds != [] {
      NeverProcessed(Inbox.Polled(events + rounds[0].arrivals, rounds[0].ok, rounds[0].reach), rounds[1..], e);
    }
  }

  /**
   A committed confirmation that is processed again is never marked processed. Every retry
   meets the receipt, so the event is exhausted, and with that alerted as failed, although
   the payment is credited once and stays so. That takes no longer than any other wait.
   */
  lemma CreditedButExhausted(
    ss: seq<Conc>, ms: seq<Move>, i: nat, a: Op, events: seq<Inbox.Event>, rounds: seq<Inbox.Round>,
    retries: seq<Retry>, e: nat, j: nat)
    requires ConcRun(ss, ms) && i < |ms| && Commits(ss[i], ms[i], a) && a.C2bRecord?
    requires e < |events| && !events[e].processed && Tries(ss, a, i, rounds, retries, e)
    requires Inbox.Whole(rounds) >= 5 * (Inbox.Rank(events, e) / 20 + 1)
    requires i < j < |ss|
    ensures !Inbox.After(events, rounds)[e].processed
    ensures Inbox.After(events, rounds)[e].attempts >= 5
    ensures a.id in ss[j].db.txns && ss[j].db.txns[a.id].status == Settled
    ensures Of(ss[j].db.ledger, a.id) == CollectionEntries(a.tenant, a.id, a.amount)
  {
    forall k | 0 <= k < |rounds| ensures e !in rounds[k].ok {
      RetryAborts(ss, ms, i, retries[k].at, a, retries[k].op, retries[k].hook);
    }
    NeverProcessed(events, rounds, e);
    Inbox.BoundedWait(events, rounds, e);
    CommitIsEnabled(ss, ms, i, a);
    InsertPersists(ss, ms, i, j, a);
    C2bCreditedOnce(ss, ms, j, a.id, a.id, a.transId);
  }
}
