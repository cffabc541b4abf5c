/**
 Refresh-token rotation (the scheme of section 5.2.2.3 of RFC 6819): each use of a token
 revokes it and chains a successor, and presenting a used token again outside a short
 grace window revokes everything the user holds.

 A token is its index in the table, in order of issue; hashes are taken as injective.
 Times are in milliseconds.
 */
module Tokens {
  import opened Store

  const GRACE_MS := 10_000

  datatype Token = Token(user: nat, expiresAt: int, revokedAt: Option<int>, replacedBy: Option<nat>)

  type Table = seq<Token>

  // ---- Following the chain ----

  /** The token `n` links down from `i`, on any table, even one with cycles or dangling links. */
  function Hop(ts: Table, i: nat, n: nat): (r: Option<nat>)
    requires i < |ts|
    ensures r.Some? ==> r.value < |ts|
    decreases n
  {
    if n == 0 then Some(i)
    else
      match Hop(ts, i, n - 1)
      case None => None
      case Some(j) => if ts[j].replacedBy.Some? && ts[j].replacedBy.value < |ts| then ts[j].replacedBy else None
  }

  /** The chain from `i` ends after `n` links in a token that is not revoked. */
  predicate LiveTailAt(ts: Table, i: nat, n: nat)
    requires i < |ts|
  {
    var j := Hop(ts, i, n);
    j.Some? && ts[j.value].replacedBy.None? && ts[j.value].revokedAt.None?
  }

  ghost function LiveDescendant(ts: Table, i: nat): (r: Option<nat>)
    requires i < |ts|
    ensures r.Some? ==> r.value < |ts|
  {
    if exists n :: LiveTailAt(ts, i, n) then
      var n :| LiveTailAt(ts, i, n); Hop(ts, i, n)
    else None
  }

  lemma {:induction false} HopEnds(ts: Table, i: nat, n: nat, m: nat)
    requires i < |ts| && n < m
    requires Hop(ts, i, n).Some? && ts[Hop(ts, i, n).value].replacedBy.None?
    ensures Hop(ts, i, m).None?
    decreases m
  {
    if m > n + 1 {
      HopEnds(ts, i, n, m - 1);
    }
  }

  /** A chain has one end, so the live descendant does not depend on how it is found. */
  lemma LiveTailUnique(ts: Table, i: nat, n: nat)
    requires i < |ts| && LiveTailAt(ts, i, n)
    ensures LiveDescendant(ts, i) == Hop(ts, i, n)
  {
    var m: nat :| LiveTailAt(ts, i, m) && LiveDescendant(ts, i) == Hop(ts, i, m);
    if m < n {
      HopEnds(ts, i, m, n);
    } else if n < m {
      HopEnds(ts, i, n, m);
    }
  }

  /** From inside a set of tokens that all link into it, no end is ever reached. */
  lemma {:induction false} CycleHasNoTail(ts: Table, i: nat, loop: set<nat>, n: nat)
    requires i < |ts| && i in loop
    requires forall v | v in loop :: v < |ts| && ts[v].replacedBy.Some? && ts[v].replacedBy.value in loop
    ensures Hop(ts, i, n).Some? && Hop(ts, i, n).value in loop
    decreases n
  {
    if n > 0 {
      CycleHasNoTail(ts, i, loop, n - 1);
    }
  }

  // ---- Operations ----

  function Issue(ts: Table, user: nat, now: int, ttl: int): Table
  {
    ts + [Token(user, now + ttl, None, None)]
  }

  /** The successor is created at `created`, the old token revoked at `revoked`. */
  function Rotate(ts: Table, i: nat, created: int, revoked: int, ttl: int): Table
    requires i < |ts|
  {
    Issue(ts, ts[i].user, created, ttl)[i := ts[i].(revokedAt := Some(revoked), replacedBy := Some(|ts|))]
  }

  function Revoke(ts: Table, i: nat, now: int): Table
    requires i < |ts|
  {
    if ts[i].revokedAt.None? then ts[i := ts[i].(revokedAt := Some(now))] else ts
  }

  function RevokedFor(t: Token, user: nat, now: int): Token
  {
    if t.user == user && t.revokedAt.None? then t.(revokedAt := Some(now)) else t
  }

  function RevokeAll(ts: Table, user: nat, now: int): (r: Table)
    ensures |r| == |ts|
  {
    seq(|ts|, k requires 0 <= k < |ts| => RevokedFor(ts[k], user, now))
  }

  datatype Verdict = Invalid | ReuseDetected | Expired | Rotated(from: nat)

  /** The clock readings of one refresh: the check, the new row, the old row's revocation. */
  datatype Clock = Clock(checked: int, created: int, revoked: int)

  ghost function Verify(ts: Table, token: Option<nat>, clock: Clock): Verdict
  {
    if token.None? || token.value >= |ts| then Invalid
    else
      var i := token.value;
      if ts[i].revokedAt.Some? then
        var current := if clock.checked - ts[i].revokedAt.value < GRACE_MS then LiveDescendant(ts, i) else None;
        if current.None? then ReuseDetected else Rotated(current.value)
      else if ts[i].expiresAt < clock.checked then Expired
      else Rotated(i)
  }

  ghost function VerifyAndRotate(ts: Table, token: Option<nat>, clock: Clock, ttl: int): Table
  {
    match Verify(ts, token, clock)
    case Invalid => ts
    case Expired => ts
    case ReuseDetected =>
      if token.Some? && token.value < |ts| then RevokeAll(ts, ts[token.value].user, clock.revoked) else ts
    case Rotated(i) => if i < |ts| then Rotate(ts, i, clock.created, clock.revoked, ttl) else ts
  }

  datatype Call =
    | CallIssue(user: nat, at: int)
    | CallRefresh(token: Option<nat>, clock: Clock)
    | CallRevoke(token: Option<nat>, at: int)
    | CallRevokeAll(user: nat, at: int)

  ghost function Do(ts: Table, call: Call, ttl: int): Table
  {
    match call
    case CallIssue(user, at) => Issue(ts, user, at, ttl)
    case CallRefresh(token, clock) => VerifyAndRotate(ts, token, clock, ttl)
    case CallRevoke(token, at) => if token.Some? && token.value < |ts| then Revoke(ts, token.value, at) else ts
    case CallRevokeAll(user, at) => RevokeAll(ts, user, at)
  }

  // ---- Chains on reachable tables ----

  /**
   The table is a disjoint union of forward paths: links go to newer tokens of the same
   user, no token succeeds two others, and only a token without a successor may be live.
   */
  ghost predicate ChainInv(ts: Table)
  {
    && (forall i | 0 <= i < |ts| && ts[i].replacedBy.Some? ::
          && i < ts[i].replacedBy.value < |ts|
          && ts[ts[i].replacedBy.value].user == ts[i].user
          && ts[i].revokedAt.Some?)
    && (forall i, j | 0 <= i < j < |ts| && ts[i].replacedBy.Some? :: ts[i].replacedBy != ts[j].replacedBy)
  }

  lemma RotatesALiveTail(ts: Table, token: Option<nat>, clock: Clock)
    requires ChainInv(ts) && Verify(ts, token, clock).Rotated?
    ensures var i := Verify(ts, token, clock).from;
            i < |ts| && ts[i].revokedAt.None? && ts[i].replacedBy.None?
  {
  }

  /** Two tables that differ at most in tokens revoked since. */
  ghost predicate OnlyRevokes(a: Table, b: Table)
  {
    && |a| == |b|
    && forall k | 0 <= k < |a| ::
         || b[k] == a[k]
         || (a[k].revokedAt.None? && b[k].revokedAt.Some? && b[k] == a[k].(revokedAt := b[k].revokedAt))
  }

  /** A call adds a token, rotates one, or does no more than revoke. */
  lemma DoCases(ts: Table, call: Call, ttl: int)
    ensures var ts' := Do(ts, call, ttl);
            || (call.CallIssue? && ts' == Issue(ts, call.user, call.at, ttl))
            || (&& call.CallRefresh?
                && Verify(ts, call.token, call.clock).Rotated?
                && Verify(ts, call.token, call.clock).from < |ts|
                && ts' == Rotate(ts, Verify(ts, call.token, call.clock).from,
                                 call.clock.created, call.clock.revoked, ttl))
            || (&& !call.CallIssue?
                && (call.CallRefresh? ==> !Verify(ts, call.token, call.clock).Rotated?)
                && OnlyRevokes(ts, ts'))
  {
  }

  lemma RotateKeepsChains(ts: Table, i: nat, created: int, revoked: int, ttl: int)
    requires ChainInv(ts) && i < |ts| && ts[i].replacedBy.None?
    ensures ChainInv(Rotate(ts, i, created, revoked, ttl))
  {
  }

  lemma RevokesKeepChains(a: Table, b: Table)
    requires ChainInv(a) && OnlyRevokes(a, b)
    ensures ChainInv(b)
  {
  }

  lemma ChainsKeep(ts: Table, call: Call, ttl: int)
    requires ChainInv(ts)
    ensures ChainInv(Do(ts, call, ttl)) && |ts| <= |Do(ts, call, ttl)|
  {
    DoCases(ts, call, ttl);
    if call.CallRefresh? && Verify(ts, call.token, call.clock).Rotated? {
      RotatesALiveTail(ts, call.token, call.clock);
      RotateKeepsChains(ts, Verify(ts, call.token, call.clock).from, call.clock.created, call.clock.revoked, ttl);
    } else if !call.CallIssue? {
      RevokesKeepChains(ts, Do(ts, call, ttl));
    }
  }

  /** The tokens from `i` on, oldest first. */
  function Chain(ts: Table, i: nat): (r: seq<nat>)
    requires i < |ts|
    ensures r != [] && r[0] == i
    ensures forall k | k in r :: i <= k < |ts|
    decreases |ts| - i
  {
    if ts[i].replacedBy.Some? && i < ts[i].replacedBy.value < |ts|
    then [i] + Chain(ts, ts[i].replacedBy.value)
    else [i]
  }

  function Tail(ts: Table, i: nat): (r: nat)
    requires i < |ts|
    ensures r < |ts|
  {
    var c := Chain(ts, i);
    assert c[|c| - 1] in c;
    c[|c| - 1]
  }

  lemma {:induction false} HopShift(ts: Table, i: nat, j: nat, n: nat)
    requires i < |ts| && j < |ts| && Hop(ts, i, 1) == Some(j)
    ensures Hop(ts, i, n + 1) == Hop(ts, j, n)
    decreases n
  {
    if n > 0 {
      HopShift(ts, i, j, n - 1);
    }
  }

  lemma TailOfNext(ts: Table, i: nat)
    requires ChainInv(ts) && i < |ts|
    ensures if ts[i].replacedBy.Some?
            then Tail(ts, i) == Tail(ts, ts[i].replacedBy.value)
                 && Chain(ts, i) == [i] + Chain(ts, ts[i].replacedBy.value)
            else Tail(ts, i) == i && Chain(ts, i) == [i]
  {
  }

  /** Along a chain every token but the last has a successor. */
  lemma {:induction false} ChainLinks(ts: Table, i: nat)
    requires ChainInv(ts) && i < |ts|
    ensures ts[Tail(ts, i)].replacedBy.None?
    ensures forall k | k in Chain(ts, i) && k != Tail(ts, i) :: ts[k].replacedBy.Some?
    decreases |ts| - i
  {
    TailOfNext(ts, i);
    if ts[i].replacedBy.Some? {
      ChainLinks(ts, ts[i].replacedBy.value);
    }
  }

  /** On a reachable table the links from `i` lead through `Chain`, one token after another. */
  lemma {:induction false} HopFollowsChain(ts: Table, i: nat, n: nat)
    requires ChainInv(ts) && i < |ts| && n < |Chain(ts, i)|
    ensures Hop(ts, i, n) == Some(Chain(ts, i)[n])
    decreases n
  {
    TailOfNext(ts, i);
    if n > 0 {
      var j := ts[i].replacedBy.value;
      HopFollowsChain(ts, j, n - 1);
      assert Hop(ts, i, 0) == Some(i);
      HopShift(ts, i, j, n - 1);
    }
  }

  lemma {:induction false} ChainIncreases(ts: Table, i: nat, m: nat, n: nat)
    requires ChainInv(ts) && i < |ts| && m < n < |Chain(ts, i)|
    ensures Chain(ts, i)[m] < Chain(ts, i)[n]
    decreases m
  {
    TailOfNext(ts, i);
    var j := ts[i].replacedBy.value;
    if m > 0 {
      ChainIncreases(ts, j, m - 1, n - 1);
    } else {
      assert Chain(ts, j)[n - 1] in Chain(ts, j);
    }
  }

  /** The search passes no token twice before it ends, so its cycle check never fires. */
  lemma SearchMeetsNoTokenTwice(ts: Table, i: nat, m: nat, n: nat)
    requires ChainInv(ts) && i < |ts| && m < n
    ensures Hop(ts, i, m).Some? ==> Hop(ts, i, m) != Hop(ts, i, n)
    ensures Hop(ts, i, n).Some? <==> n < |Chain(ts, i)|
  {
    var last := |Chain(ts, i)| - 1;
    HopFollowsChain(ts, i, last);
    ChainLinks(ts, i);
    if n <= last {
      HopFollowsChain(ts, i, m);
      HopFollowsChain(ts, i, n);
      ChainIncreases(ts, i, m, n);
    } else {
      HopEnds(ts, i, last, n);
    }
  }

  /**
   On a reachable table the search returns exactly the tail of the presented token's
   chain if that is live and nothing otherwise.
   */
  lemma LiveDescendantIsTail(ts: Table, i: nat)
    requires ChainInv(ts) && i < |ts|
    ensures LiveDescendant(ts, i) == if ts[Tail(ts, i)].revokedAt.None? then Some(Tail(ts, i)) else None
  {
    var n := |Chain(ts, i)| - 1;
    HopFollowsChain(ts, i, n);
    ChainLinks(ts, i);
    if ts[Tail(ts, i)].revokedAt.None? {
      LiveTailUnique(ts, i, n);
    } else if LiveDescendant(ts, i).Some? {
      var m: nat :| LiveTailAt(ts, i, m);
      if m < n {
        HopEnds(ts, i, m, n);
      } else if n < m {
        HopEnds(ts, i, n, m);
      }
      assert false;
    }
  }

  // ---- Dead families ----

  predicate Dead(ts: Table, i: nat)
    requires i < |ts|
  {
    ts[Tail(ts, i)].revokedAt.Some?
  }

  lemma {:induction false} ChainUnchanged(a: Table, b: Table, i: nat)
    requires ChainInv(a) && ChainInv(b) && i < |a| <= |b|
    requires forall k | k in Chain(a, i) :: b[k].replacedBy == a[k].replacedBy
    ensures Chain(b, i) == Chain(a, i)
    decreases |a| - i
  {
    assert i in Chain(a, i);
    if a[i].replacedBy.Some? {
      var j := a[i].replacedBy.value;
      assert forall k | k in Chain(a, j) :: k in Chain(a, i);
      ChainUnchanged(a, b, j);
    }
  }

  /** Every token of a chain has the chain's tail. */
  lemma {:induction false} ChainSharesTail(ts: Table, i: nat, j: nat)
    requires ChainInv(ts) && i < |ts| && j in Chain(ts, i)
    ensures Tail(ts, j) == Tail(ts, i)
    decreases |ts| - i
  {
    TailOfNext(ts, i);
    if j != i {
      ChainSharesTail(ts, ts[i].replacedBy.value, j);
    }
  }

  /** No single call brings a dead family back. */
  lemma DeadStaysDead(ts: Table, i: nat, call: Call, ttl: int)
    requires ChainInv(ts) && i < |ts| && Dead(ts, i)
    ensures i < |Do(ts, call, ttl)|
    ensures Chain(Do(ts, call, ttl), i) == Chain(ts, i) && Dead(Do(ts, call, ttl), i)
  {
    var ts' := Do(ts, call, ttl);
    ChainsKeep(ts, call, ttl);
    DoCases(ts, call, ttl);
    ChainLinks(ts, i);
    if call.CallRefresh? && Verify(ts, call.token, call.clock).Rotated? {
      RotatesALiveTail(ts, call.token, call.clock);
    }
    ChainUnchanged(ts, ts', i);
    assert i in Chain(ts, i) && Tail(ts, i) in Chain(ts, i);
  }

  /** Presenting any token of a dead family is answered by revoking everything. */
  lemma DeadIsReuse(ts: Table, i: nat, j: nat, clock: Clock)
    requires ChainInv(ts) && i < |ts| && Dead(ts, i) && j in Chain(ts, i)
    ensures Verify(ts, Some(j), clock) == ReuseDetected
  {
    ChainSharesTail(ts, i, j);
    ChainLinks(ts, i);
    LiveDescendantIsTail(ts, j);
  }

  /** Revoking the tail of a family is what kills it. */
  lemma RevokedTailIsDead(a: Table, b: Table, i: nat)
    requires ChainInv(a) && OnlyRevokes(a, b) && i < |a| && b[Tail(a, i)].revokedAt.Some?
    ensures ChainInv(b) && Chain(b, i) == Chain(a, i) && Dead(b, i)
  {
    RevokesKeepChains(a, b);
    ChainUnchanged(a, b, i);
  }

  // ---- The grace window ----

  function StartOf(call: Call): int
  {
    if call.CallRefresh? then call.clock.checked else call.at
  }

  function EndOf(call: Call): int
  {
    if call.CallRefresh? then call.clock.revoked else call.at
  }

  /** Clock readings in order, with at most `lag` between creating and revoking. */
  predicate Timely(call: Call, lag: int)
  {
    call.CallRefresh? ==>
      && call.clock.checked <= call.clock.created <= call.clock.revoked
      && call.clock.revoked - call.clock.created <= lag
  }

  /** Tokens expire in order of issue, and a successor outlives its predecessor's use by TTL less the lag. */
  ghost predicate ExpiryInv(ts: Table, ttl: int, lag: int, clock: int)
  {
    && (forall i, j | 0 <= i <= j < |ts| :: ts[i].expiresAt <= ts[j].expiresAt)
    && (forall i | 0 <= i < |ts| :: ts[i].expiresAt <= clock + ttl)
    && (forall i | 0 <= i < |ts| && ts[i].replacedBy.Some? && ts[i].revokedAt.Some? && ts[i].replacedBy.value < |ts| ::
          ts[ts[i].replacedBy.value].expiresAt >= ts[i].revokedAt.value - lag + ttl)
  }

  /** A run: calls one after another, the clock never going back. */
  ghost predicate Run(tables: seq<Table>, calls: seq<Call>, ttl: int, lag: int)
  {
    && |tables| == |calls| + 1
    && tables[0] == []
    && (forall k | 0 <= k < |calls| :: Timely(calls[k], lag) && tables[k + 1] == Do(tables[k], calls[k], ttl))
    && (forall k | 0 < k < |calls| :: EndOf(calls[k - 1]) <= StartOf(calls[k]))
  }

  lemma {:induction false} RunChains(tables: seq<Table>, calls: seq<Call>, ttl: int, lag: int, k: nat)
    requires Run(tables, calls, ttl, lag) && k < |tables|
    ensures ChainInv(tables[k])
    decreases k
  {
    if k > 0 {
      RunChains(tables, calls, ttl, lag, k - 1);
      ChainsKeep(tables[k - 1], calls[k - 1], ttl);
    }
  }

  lemma {:induction false} DeadPersists(
    tables: seq<Table>, calls: seq<Call>, ttl: int, lag: int, k: nat, m: nat, i: nat)
    requires Run(tables, calls, ttl, lag) && k <= m < |tables|
    requires i < |tables[k]| && Dead(tables[k], i)
    ensures i < |tables[m]| && Chain(tables[m], i) == Chain(tables[k], i) && Dead(tables[m], i)
    decreases m - k
  {
    if k < m {
      DeadPersists(tables, calls, ttl, lag, k, m - 1, i);
      RunChains(tables, calls, ttl, lag, m - 1);
      DeadStaysDead(tables[m - 1], i, calls[m - 1], ttl);
    }
  }

  /**
   Once a family's tail is revoked without a successor, the family has the same tokens at
   every later moment of the run, and whoever presents one of them is told of reuse.
   */
  lemma DeadForever(
    tables: seq<Table>, calls: seq<Call>, ttl: int, lag: int, k: nat, m: nat, i: nat, j: nat, clock: Clock)
    requires Run(tables, calls, ttl, lag) && k <= m < |tables|
    requires i < |tables[k]| && Dead(tables[k], i)
    ensures i < |tables[m]| && Chain(tables[m], i) == Chain(tables[k], i) && Dead(tables[m], i)
    ensures j in Chain(tables[k], i) ==> Verify(tables[m], Some(j), clock) == ReuseDetected
  {
    DeadPersists(tables, calls, ttl, lag, k, m, i);
    RunChains(tables, calls, ttl, lag, m);
    if j in Chain(tables[k], i) {
      DeadIsReuse(tables[m], i, j, clock);
    }
  }

  /** A family is one user's. */
  lemma {:induction false} ChainOfOneUser(ts: Table, i: nat)
    requires ChainInv(ts) && i < |ts|
    ensures ts[Tail(ts, i)].user == ts[i].user
    decreases |ts| - i
  {
    TailOfNext(ts, i);
    if ts[i].replacedBy.Some? {
      ChainOfOneUser(ts, ts[i].replacedBy.value);
    }
  }

  /** Reuse detected on one token kills every family of its user, and no one else's token is touched. */
  lemma ReuseKillsFamilies(ts: Table, token: nat, clock: Clock, ttl: int, i: nat)
    requires ChainInv(ts) && token < |ts| && i < |ts|
    requires Verify(ts, Some(token), clock) == ReuseDetected
    ensures var ts' := VerifyAndRotate(ts, Some(token), clock, ttl);
            && |ts'| == |ts|
            && (ts[i].user == ts[token].user ==> Dead(ts', i) && Chain(ts', i) == Chain(ts, i))
            && (ts[i].user != ts[token].user ==> ts'[i] == ts[i])
  {
    var ts' := VerifyAndRotate(ts, Some(token), clock, ttl);
    ChainOfOneUser(ts, i);
    DoCases(ts, CallRefresh(Some(token), clock), ttl);
    if ts[i].user == ts[token].user {
      RevokedTailIsDead(ts, ts', i);
    }
  }

  /**
   From the moment reuse is detected the user's families stay as they are for the rest of
   the run, and whoever presents one of their tokens is told of reuse again.
   */
  lemma ReuseIsForever(
    tables: seq<Table>, calls: seq<Call>, ttl: int, lag: int, k: nat, m: nat, token: nat, i: nat, j: nat, clock: Clock)
    requires Run(tables, calls, ttl, lag) && k < |calls| && k < m < |tables|
    requires calls[k].CallRefresh? && calls[k].token == Some(token) && token < |tables[k]|
    requires Verify(tables[k], Some(token), calls[k].clock) == ReuseDetected
    requires i < |tables[k]| && tables[k][i].user == tables[k][token].user
    ensures i < |tables[m]| && Chain(tables[m], i) == Chain(tables[k], i) && Dead(tables[m], i)
    ensures j in Chain(tables[k], i) ==> Verify(tables[m], Some(j), clock) == ReuseDetected
  {
    RunChains(tables, calls, ttl, lag, k);
    ReuseKillsFamilies(tables[k], token, calls[k].clock, ttl, i);
    DeadForever(tables, calls, ttl, lag, k + 1, m, i, j, clock);
  }

  lemma RotateKeepsExpiry(ts: Table, i: nat, created: int, revoked: int, ttl: int, lag: int, before: int)
    requires ExpiryInv(ts, ttl, lag, before)
    requires i < |ts| && ts[i].replacedBy.None? && ts[i].revokedAt.None?
    requires before <= created <= revoked <= created + lag
    requires ChainInv(ts)
    ensures ExpiryInv(Rotate(ts, i, created, revoked, ttl), ttl, lag, revoked)
  {
  }

  lemma RevokesKeepExpiry(a: Table, b: Table, ttl: int, lag: int, before: int, after: int)
    requires ChainInv(a) && ExpiryInv(a, ttl, lag, before) && OnlyRevokes(a, b) && before <= after
    ensures ExpiryInv(b, ttl, lag, after)
  {
  }

  lemma ExpiryKeeps(ts: Table, call: Call, ttl: int, lag: int, before: int)
    requires ChainInv(ts) && ExpiryInv(ts, ttl, lag, before)
    requires Timely(call, lag) && before <= StartOf(call)
    ensures ExpiryInv(Do(ts, call, ttl), ttl, lag, EndOf(call))
  {
    DoCases(ts, call, ttl);
    if call.CallRefresh? && Verify(ts, call.token, call.clock).Rotated? {
      RotatesALiveTail(ts, call.token, call.clock);
      var i := Verify(ts, call.token, call.clock).from;
      RotateKeepsExpiry(ts, i, call.clock.created, call.clock.revoked, ttl, lag, before);
    } else if !call.CallIssue? {
      RevokesKeepExpiry(ts, Do(ts, call, ttl), ttl, lag, before, EndOf(call));
    }
  }

  /** When the last of the first `k` calls was over. */
  function ClockAt(calls: seq<Call>, k: nat): int
    requires k <= |calls|
  {
    if k == 0 then 0 else EndOf(calls[k - 1])
  }

  lemma {:induction false} RunExpiry(tables: seq<Table>, calls: seq<Call>, ttl: int, lag: int, k: nat)
    requires Run(tables, calls, ttl, lag) && k < |tables|
    ensures ExpiryInv(tables[k], ttl, lag, ClockAt(calls, k))
    decreases k
  {
    if k > 0 {
      RunExpiry(tables, calls, ttl, lag, k - 1);
      RunChains(tables, calls, ttl, lag, k - 1);
      ExpiryKeeps(tables[k - 1], calls[k - 1], ttl, lag, if k == 1 then StartOf(calls[0]) else ClockAt(calls, k - 1));
    }
  }

  lemma TailIsLater(ts: Table, i: nat)
    requires i < |ts|
    ensures i <= Tail(ts, i)
  {
    var c := Chain(ts, i);
    assert c[|c| - 1] in c;
  }

  lemma TailOutlives(ts: Table, i: nat, ttl: int, lag: int, clock: int)
    requires ChainInv(ts) && ExpiryInv(ts, ttl, lag, clock) && i < |ts| && ts[i].replacedBy.Some?
    ensures ts[i].revokedAt.Some? && ts[Tail(ts, i)].expiresAt >= ts[i].revokedAt.value - lag + ttl
  {
    var j := ts[i].replacedBy.value;
    TailOfNext(ts, i);
    TailIsLater(ts, j);
  }

  /**
   Grace-window soundness. The grace path does not look at expiry again, and still no
   refresh in any run rotates an expired token, provided a token outlives the window.
   */
  lemma NeverRotatesExpired(tables: seq<Table>, calls: seq<Call>, ttl: int, lag: int, k: nat)
    requires Run(tables, calls, ttl, lag) && k < |calls|
    requires ttl >= GRACE_MS - 1 + lag
    requires calls[k].CallRefresh? && Verify(tables[k], calls[k].token, calls[k].clock).Rotated?
    ensures var i := Verify(tables[k], calls[k].token, calls[k].clock).from;
            i < |tables[k]| && tables[k][i].expiresAt >= calls[k].clock.checked
  {
    RunChains(tables, calls, ttl, lag, k);
    RunExpiry(tables, calls, ttl, lag, k);
    var ts := tables[k];
    var i := calls[k].token.value;
    if ts[i].revokedAt.Some? {
      LiveDescendantIsTail(ts, i);
      TailOfNext(ts, i);
      if ts[i].replacedBy.Some? {
        TailOutlives(ts, i, ttl, lag, ClockAt(calls, k));
      }
    }
  }

  /** The bound is exact: with any shorter lifetime, three calls rotate an expired token. */
  lemma GraceBoundIsTight(ttl: int, lag: int)
    requires lag >= 0 && 0 <= ttl < GRACE_MS - 1 + lag
    ensures exists tables: seq<Table>, calls: seq<Call> ::
              && Run(tables, calls, ttl, lag) && |calls| == 3 && calls[2].CallRefresh?
              && var v := Verify(tables[2], calls[2].token, calls[2].clock);
                 v.Rotated? && v.from < |tables[2]| && tables[2][v.from].expiresAt < calls[2].clock.checked
  {
    var late := lag + GRACE_MS - 1;
    var calls :=
      [CallIssue(0, 0), CallRefresh(Some(0), Clock(0, 0, lag)), CallRefresh(Some(0), Clock(late, late, late))];
    var t1 := Do([], calls[0], ttl);
    assert t1 == [Token(0, ttl, None, None)];
    var t2 := Do(t1, calls[1], ttl);
    assert t2 == [Token(0, ttl, Some(lag), Some(1)), Token(0, ttl, None, None)];
    var tables := [[], t1, t2, Do(t2, calls[2], ttl)];
    assert Hop(t2, 0, 0) == Some(0) && Hop(t2, 0, 1) == Some(1);
    assert LiveTailAt(t2, 0, 1);
    LiveTailUnique(t2, 0, 1);
    assert Verify(t2, calls[2].token, calls[2].clock) == Rotated(1);
    assert Run(tables, calls, ttl, lag);
  }

  // ---- The service ----

  function Ids(n: nat): (r: set<nat>)
    ensures forall x: nat :: x in r <==> x < n
  {
    if n == 0 then {} else Ids(n - 1) + {n - 1}
  }

  /** Every token of the user is revoked, if only now, and nothing else is different. */
  ghost predicate UserIsOut(a: Table, b: Table, user: nat)
  {
    && |b| == |a|
    && (forall k | 0 <= k < |a| && a[k].user == user :: b[k].revokedAt.Some?)
    && (forall k | 0 <= k < |a| && (a[k].user != user || a[k].revokedAt.Some?) :: b[k] == a[k])
    && (forall k | 0 <= k < |a| :: b[k] == a[k].(revokedAt := b[k].revokedAt))
  }

  /** Token `i` is revoked and followed by one new, live token of its user; nothing else is different. */
  ghost predicate IsReplaced(a: Table, b: Table, i: nat)
    requires i < |a|
  {
    && |b| == |a| + 1
    && b[i].revokedAt.Some? && b[i].replacedBy == Some(|a|) && b[i].user == a[i].user
    && b[|a|].user == a[i].user && b[|a|].revokedAt == None && b[|a|].replacedBy == None
    && (forall k | 0 <= k < |a| && k != i :: b[k] == a[k])
  }

  class RefreshTokenService {
    var tokens: Table
    const ttl: int

    constructor (ttl: int)
      ensures tokens == [] && this.ttl == ttl
    {
      this.tokens, this.ttl := [], ttl;
    }

    method IssueToken(user: nat, now: int) returns (id: nat)
      modifies this`tokens
      ensures tokens == old(tokens) + [Token(user, now + ttl, None, None)]
      ensures id == |old(tokens)| && tokens == Issue(old(tokens), user, now, ttl)
    {
      id := |tokens|;
      tokens := tokens + [Token(user, now + ttl, None, None)];
    }

    /**
     Follows replacedBy to the end of the chain. On any table, cyclic or with dangling links
     included, this terminates, and finds a token iff the chain ends in one that is live.
     */
    method FindLiveDescendant(i: nat) returns (r: Option<nat>)
      requires i < |tokens|
      ensures r.Some? <==> exists n :: LiveTailAt(tokens, i, n)
      ensures r == LiveDescendant(tokens, i)
    {
      var current := i;
      var visited: set<nat> := {i};
      ghost var n := 0;
      while tokens[current].replacedBy.Some?
        invariant current < |tokens| && Hop(tokens, i, n) == Some(current)
        invariant i in visited && current in visited
        invariant forall v | v in visited :: v < |tokens|
        invariant forall v | v in visited && v != current ::
                    tokens[v].replacedBy.Some? && tokens[v].replacedBy.value in visited
        decreases Ids(|tokens|) - visited
      {
        var next := tokens[current].replacedBy.value;
        if next in visited {
          forall m: nat ensures !LiveTailAt(tokens, i, m) {
            CycleHasNoTail(tokens, i, visited, m);
          }
          return None;
        }
        if next >= |tokens| {
          forall m: nat ensures !LiveTailAt(tokens, i, m) {
            DanglingHasNoTail(tokens, i, n, m);
          }
          return None;
        }
        visited := visited + {next};
        current := next;
        n := n + 1;
        assert Hop(tokens, i, n) == Some(current);
      }
      if tokens[current].revokedAt.Some? {
        forall m: nat ensures !LiveTailAt(tokens, i, m) {
          if m < n && LiveTailAt(tokens, i, m) {
            HopEnds(tokens, i, m, n);
          } else if n < m {
            HopEnds(tokens, i, n, m);
          }
        }
        return None;
      }
      assert LiveTailAt(tokens, i, n);
      LiveTailUnique(tokens, i, n);
      return Some(current);
    }

    /** The old token is used up and linked to a new, live one of the same user; no other changes. */
    method RotateToken(i: nat, created: int, revoked: int) returns (id: nat)
      requires i < |tokens|
      modifies this`tokens
      ensures id == |old(tokens)| && |tokens| == id + 1
      ensures tokens[i].revokedAt.Some? && tokens[i].replacedBy == Some(id)
      ensures tokens[id].user == tokens[i].user == old(tokens)[i].user
      ensures tokens[id].revokedAt.None? && tokens[id].replacedBy.None? && tokens[id].expiresAt == created + ttl
      ensures forall k | 0 <= k < id && k != i :: tokens[k] == old(tokens)[k]
      ensures ChainInv(old(tokens)) && old(tokens)[i].replacedBy.None? ==>
                ChainInv(tokens) && Chain(tokens, i) == [i, id]
      ensures tokens == Rotate(old(tokens), i, created, revoked, ttl)
    {
      id := IssueToken(tokens[i].user, created);
      tokens := tokens[i := tokens[i].(revokedAt := Some(revoked), replacedBy := Some(id))];
    }

    /** Every token of the user ends revoked, those revoked before keep their time, and no one else's changes. */
    method RevokeAllForUser(user: nat, now: int)
      modifies this`tokens
      ensures |tokens| == |old(tokens)|
      ensures forall k | 0 <= k < |tokens| ::
                if old(tokens)[k].user == user && old(tokens)[k].revokedAt == None
                then tokens[k] == old(tokens)[k].(revokedAt := Some(now)) else tokens[k] == old(tokens)[k]
      ensures tokens == RevokeAll(old(tokens), user, now)
    {
      var k := 0;
      while k < |tokens|
        invariant 0 <= k <= |tokens| == |old(tokens)|
        invariant forall j | 0 <= j < |tokens| ::
                    tokens[j] == if j < k then RevokedFor(old(tokens)[j], user, now) else old(tokens)[j]
      {
        if tokens[k].user == user && tokens[k].revokedAt.None? {
          tokens := tokens[k := tokens[k].(revokedAt := Some(now))];
        }
        k := k + 1;
      }
    }

    /**
     Logout. Only a known token that is not revoked changes; every family it was the end of
     is dead from then on.
     */
    method RevokeToken(token: Option<nat>, now: int)
      modifies this`tokens
      ensures OnlyRevokes(old(tokens), tokens)
      ensures forall k | 0 <= k < |tokens| && token != Some(k) :: tokens[k] == old(tokens)[k]
      ensures token.Some? && token.value < |tokens| ==> tokens[token.value].revokedAt.Some?
      ensures ChainInv(old(tokens)) ==>
                forall i: nat | i < |tokens| && token == Some(Tail(old(tokens), i)) ::
                  Chain(tokens, i) == Chain(old(tokens), i) && Dead(tokens, i)
      ensures tokens == Do(old(tokens), CallRevoke(token, now), ttl)
    {
      ghost var before := tokens;
      if token.Some? && token.value < |tokens| && tokens[token.value].revokedAt.None? {
        tokens := tokens[token.value := tokens[token.value].(revokedAt := Some(now))];
      }
      if ChainInv(before) {
        forall i: nat | i < |tokens| && token == Some(Tail(before, i))
          ensures Chain(tokens, i) == Chain(before, i) && Dead(tokens, i)
        {
          RevokedTailIsDead(before, tokens, i);
        }
      }
    }

    /** One refresh, as its caller sees it: what each answer means and what it leaves behind. */
    method VerifyAndRotateToken(token: Option<nat>, clock: Clock) returns (r: Verdict)
      modifies this`tokens
      ensures r == Invalid <==> token == None || token.value >= |old(tokens)|
      ensures r == Expired <==>
                token.Some? && token.value < |old(tokens)|
                && old(tokens)[token.value].revokedAt == None && old(tokens)[token.value].expiresAt < clock.checked
      ensures r == Invalid || r == Expired ==> tokens == old(tokens)
      ensures r == ReuseDetected ==>
                && token.Some? && token.value < |old(tokens)| && old(tokens)[token.value].revokedAt.Some?
                && (clock.checked - old(tokens)[token.value].revokedAt.value >= 10_000
                    || forall n :: !LiveTailAt(old(tokens), token.value, n))
                && UserIsOut(old(tokens), tokens, old(tokens)[token.value].user)
      ensures r.Rotated? ==>
                && token.Some? && token.value < |old(tokens)| && r.from < |old(tokens)|
                && (if old(tokens)[token.value].revokedAt == None then r.from == token.value
                    else clock.checked - old(tokens)[token.value].revokedAt.value < 10_000
                         && exists n :: LiveTailAt(old(tokens), token.value, n)
                                        && Hop(old(tokens), token.value, n) == Some(r.from))
                && IsReplaced(old(tokens), tokens, r.from)
      ensures r == Verify(old(tokens), token, clock)
      ensures tokens == VerifyAndRotate(old(tokens), token, clock, ttl)
    {
      if token.None? || token.value >= |tokens| {
        return Invalid;
      }
      var i := token.value;
      if tokens[i].revokedAt.Some? {
        var current := None;
        if clock.checked - tokens[i].revokedAt.value < GRACE_MS {
          current := FindLiveDescendant(i);
        }
        if current.None? {
          RevokeAllForUser(tokens[i].user, clock.revoked);
          return ReuseDetected;
        }
        var _ := RotateToken(current.value, clock.created, clock.revoked);
        return Rotated(current.value);
      }
      if tokens[i].expiresAt < clock.checked {
        return Expired;
      }
      var _ := RotateToken(i, clock.created, clock.revoked);
      return Rotated(i);
    }
  }

  lemma {:induction false} DanglingHasNoTail(ts: Table, i: nat, n: nat, m: nat)
    requires i < |ts| && Hop(ts, i, n).Some?
    requires ts[Hop(ts, i, n).value].replacedBy.Some? && ts[Hop(ts, i, n).value].replacedBy.value >= |ts|
    ensures !LiveTailAt(ts, i, m)
  {
    if n < m {
      HopDangles(ts, i, n, m);
    } else if m < n && LiveTailAt(ts, i, m) {
      HopEnds(ts, i, m, n);
    }
  }

  lemma {:induction false} HopDangles(ts: Table, i: nat, n: nat, m: nat)
    requires i < |ts| && n < m && Hop(ts, i, n).Some?
    requires ts[Hop(ts, i, n).value].replacedBy.Some? && ts[Hop(ts, i, n).value].replacedBy.value >= |ts|
    ensures Hop(ts, i, m).None?
    decreases m
  {
    if m > n + 1 {
      HopDangles(ts, i, n, m - 1);
    }
  }
}
