/**
 Fencing over whole runs of the SQL repository: tokens only grow, one lease per conversation is
 valid at a time, and a handle that stopped being valid never works again.
 */
module LeaseFencing {
  import opened Prelude
  import opened RunModel
  import opened PostgresRuns

  /** The handle is valid now: a renewal with it would succeed. */
  predicate Live(q: SqlRepo, h: Lease, now: int) {
    RenewMatches(q, h, now)
  }

  /** The handle's token has been handed out: it does not exceed the conversation's counter. */
  predicate Issued(q: SqlRepo, h: Lease) {
    h.conversationId in q.leases && h.fencingToken <= q.leases[h.conversationId].token
  }

  /** The handle names a recorded run of its conversation. */
  predicate Coherent(q: SqlRepo, h: Lease) {
    h.runId in q.runs && q.runs[h.runId].conversationId == h.conversationId
  }

  /** Calls that a holder of h makes to keep the lease or to persist an outcome. */
  predicate UsesHandle(call: Call, h: Lease) {
    (call.Renew? || call.MarkTerminal? || call.MarkHistoryCommitted?) && SameOwner(call.lease, h)
  }

  predicate AcquiresOn(call: Call, c: string) {
    call.Acquire? && call.identity.conversationId == c
  }

  lemma {:induction false} AtMostOneLive(q: SqlRepo, a: Lease, b: Lease, now: int)
    requires a.conversationId == b.conversationId && Live(q, a, now) && Live(q, b, now)
    ensures SameOwner(a, b)
  {
  }

  lemma {:induction false} IssuedIsStable(q: SqlRepo, h: Lease, call: Call, now: int)
    requires Issued(q, h)
    ensures Issued(Step(q, call, now).0, h)
    ensures Coherent(q, h) ==> Coherent(Step(q, call, now).0, h)
  {
  }

  /** One call cannot revive a handle. */
  lemma {:induction false} DeadStaysDeadOneStep(q: SqlRepo, h: Lease, call: Call, before: int, now: int)
    requires Issued(q, h) && !Live(q, h, before) && before <= now
    ensures !Live(Step(q, call, now).0, h, now)
  {
  }

  /**
   Once an issued handle is not valid - expired, released or overtaken - no later call with it
   succeeds, whatever else anybody does.
   */
  lemma {:induction false} StaleForever(q: SqlRepo, h: Lease, trace: seq<Stamped>, from: int)
    requires Issued(q, h) && Coherent(q, h) && !Live(q, h, from) && Chronological(trace, from)
    ensures forall i :: 0 <= i < |trace| && UsesHandle(trace[i].call, h) ==> Run(q, trace).1[i] == Failure(Stale)
    decreases |trace|
  {
    if trace != [] {
      var now, call := trace[0].now, trace[0].call;
      IssuedIsStable(q, h, call, now);
      DeadStaysDeadOneStep(q, h, call, from, now);
      assert !Live(q, h, now);
      assert UsesHandle(call, h) ==> Step(q, call, now).1 == Failure(Stale);
      StaleForever(Step(q, call, now).0, h, trace[1..], now);
    }
  }

  /**
   How a valid handle stops being valid in one call: its expiry has passed by then (only so can it be overtaken),
   its holder releases it, or its holder renews it for no time at all - and in no other way, whoever calls.
   */
  lemma {:induction false} DiesExactly(q: SqlRepo, h: Lease, call: Call, before: int, now: int)
    requires Live(q, h, before) && before <= now
    ensures !Live(Step(q, call, now).0, h, now)
            <==> || q.leases[h.conversationId].expiresAt <= now
                 || (call.Release? && SameOwner(call.lease, h))
                 || (call.Renew? && SameOwner(call.lease, h) && call.ttl == 0)
  {
  }

  lemma {:induction false} LaterAcquiresExceed(q: SqlRepo, h: Lease, trace: seq<Stamped>)
    requires Issued(q, h)
    ensures forall j :: 0 <= j < |trace| && AcquiresOn(trace[j].call, h.conversationId) && Run(q, trace).1[j].Granted?
              ==> Run(q, trace).1[j].lease.fencingToken > h.fencingToken
    decreases |trace|
  {
    if trace != [] {
      IssuedIsStable(q, h, trace[0].call, trace[0].now);
      LaterAcquiresExceed(Step(q, trace[0].call, trace[0].now).0, h, trace[1..]);
    }
  }

  /** Tokens of successive acquires on one conversation strictly increase along any trace. */
  lemma {:induction false} TokensStrictlyIncrease(q: SqlRepo, trace: seq<Stamped>, c: string, i: nat, j: nat)
    requires i < j < |trace|
    requires AcquiresOn(trace[i].call, c) && Run(q, trace).1[i].Granted?
    requires AcquiresOn(trace[j].call, c) && Run(q, trace).1[j].Granted?
    ensures Run(q, trace).1[i].lease.fencingToken < Run(q, trace).1[j].lease.fencingToken
    decreases |trace|
  {
    var q1 := Step(q, trace[0].call, trace[0].now).0;
    if i == 0 {
      LaterAcquiresExceed(q1, Run(q, trace).1[0].lease, trace[1..]);
      assert trace[1..][j - 1] == trace[j];
    } else {
      TokensStrictlyIncrease(q1, trace[1..], c, i - 1, j - 1);
    }
  }

  // ---- What the records say about the leases ----

  /** Every lease row is the latest grant of its run, and a valid row's expiry is on the record. */
  predicate RowOnRecord(q: SqlRepo, c: string, now: int) {
    c in q.leases ==>
      var row := q.leases[c];
      && row.runId in q.runs
      && var record := q.runs[row.runId];
      && record.conversationId == c
      && record.leaseOwner == Some(row.owner)
      && record.fencingToken == Some(row.token)
      && (row.expiresAt > now ==> record.leaseExpiresAt == Some(row.expiresAt))
  }

  ghost predicate LeasesOnRecord(q: SqlRepo, now: int) {
    forall c :: RowOnRecord(q, c, now)
  }

  /** Acquire is called for a run of its own conversation, as after `create_or_get`. */
  predicate CreatedFirst(q: SqlRepo, call: Call) {
    (call.Acquire? && call.identity.runId in q.runs) ==>
      q.runs[call.identity.runId].conversationId == call.identity.conversationId
  }

  lemma {:induction false} LeasesOnRecordStep(q: SqlRepo, call: Call, before: int, now: int)
    requires LeasesOnRecord(q, before) && before <= now && CreatedFirst(q, call)
    ensures LeasesOnRecord(Step(q, call, now).0, now)
  {
    var q' := Step(q, call, now).0;
    forall c ensures RowOnRecord(q', c, now) {
      assert RowOnRecord(q, c, before);
      if call.Renew? {
        assert RowOnRecord(q, call.lease.conversationId, before);
      }
    }
  }

  ghost predicate CreatedFirstTrace(q: SqlRepo, trace: seq<Stamped>)
    decreases |trace|
  {
    trace == [] ||
    (CreatedFirst(q, trace[0].call) && CreatedFirstTrace(Step(q, trace[0].call, trace[0].now).0, trace[1..]))
  }

  /** The expiry most recently granted or renewed for run r along a trace. */
  function LatestGrant(trace: seq<Stamped>, replies: seq<Reply>, r: string, seed: Option<int>): Option<int>
    requires |trace| == |replies|
    decreases |trace|
  {
    if trace == [] then seed
    else
      var granted := (trace[0].call.Acquire? || trace[0].call.Renew?) && replies[0].Granted? && replies[0].lease.runId == r;
      LatestGrant(trace[1..], replies[1..], r, if granted then Some(replies[0].lease.expiresAt) else seed)
  }

  /** The expiry on a record is always that of the run's latest grant or renewal. */
  lemma {:induction false} ExpiryIsLatestGrant(q: SqlRepo, trace: seq<Stamped>, r: string, from: int)
    requires LeasesOnRecord(q, from) && Chronological(trace, from) && CreatedFirstTrace(q, trace)
    ensures var (q', replies) := Run(q, trace);
            var seed := if r in q.runs then q.runs[r].leaseExpiresAt else None;
            r in q'.runs ==> q'.runs[r].leaseExpiresAt == LatestGrant(trace, replies, r, seed)
    decreases |trace|
  {
    if trace != [] {
      var now, call := trace[0].now, trace[0].call;
      var (q1, reply) := Step(q, call, now);
      LeasesOnRecordStep(q, call, from, now);
      if call.Renew? {
        assert RowOnRecord(q, call.lease.conversationId, from);
      }
      ExpiryIsLatestGrant(q1, trace[1..], r, now);
      assert Run(q, trace).1[1..] == Run(q1, trace[1..]).1;
    }
  }

  /** A running record always carries an expiry. */
  predicate RunningHasExpiry(q: SqlRepo, r: string) {
    r in q.runs && q.runs[r].status == Running ==> q.runs[r].leaseExpiresAt.Some?
  }

  lemma {:induction false} RunningHasExpiryStep(q: SqlRepo, call: Call, now: int, r: string)
    requires RunningHasExpiry(q, r)
    requires call.MarkTerminal? ==> OutcomeStatus(call.outcome.status)
    ensures RunningHasExpiry(Step(q, call, now).0, r)
  {
  }

  // ---- Every reached store ----

  /** Outcomes have the statuses `mark_terminal` is typed to receive. */
  predicate OutcomesTyped(trace: seq<Stamped>) {
    forall i :: 0 <= i < |trace| && trace[i].call.MarkTerminal? ==> OutcomeStatus(trace[i].call.outcome.status)
  }

  function EndOf(trace: seq<Stamped>, from: int): int {
    if trace == [] then from else EndOf(trace[1..], trace[0].now)
  }

  /** A trace of the protocol's callers: in time order, runs created before they are leased, outcomes typed. */
  ghost predicate LegalTrace(q: SqlRepo, trace: seq<Stamped>, from: int) {
    Chronological(trace, from) && CreatedFirstTrace(q, trace) && OutcomesTyped(trace)
  }

  lemma {:induction false} TraceKeepsLeasesOnRecord(q: SqlRepo, trace: seq<Stamped>, from: int)
    requires LeasesOnRecord(q, from) && Chronological(trace, from) && CreatedFirstTrace(q, trace)
    ensures LeasesOnRecord(Run(q, trace).0, EndOf(trace, from))
    decreases |trace|
  {
    if trace != [] {
      LeasesOnRecordStep(q, trace[0].call, from, trace[0].now);
      TraceKeepsLeasesOnRecord(Step(q, trace[0].call, trace[0].now).0, trace[1..], trace[0].now);
    }
  }

  lemma {:induction false} TraceKeepsExpiry(q: SqlRepo, trace: seq<Stamped>, r: string)
    requires RunningHasExpiry(q, r) && OutcomesTyped(trace)
    ensures RunningHasExpiry(Run(q, trace).0, r)
    decreases |trace|
  {
    if trace != [] {
      RunningHasExpiryStep(q, trace[0].call, trace[0].now, r);
      TraceKeepsExpiry(Step(q, trace[0].call, trace[0].now).0, trace[1..], r);
    }
  }

  lemma {:induction false} LaterKeepsLeasesOnRecord(q: SqlRepo, now: int, later: int)
    requires LeasesOnRecord(q, now) && now <= later
    ensures LeasesOnRecord(q, later)
  {
    forall c ensures RowOnRecord(q, c, later) {
      assert RowOnRecord(q, c, now);
    }
  }

  /** Whatever the callers did since the store was empty, lease rows are on record and running records carry their expiry. */
  lemma {:induction false} ReachedStore(trace: seq<Stamped>, from: int, now: int)
    requires LegalTrace(EMPTY, trace, from) && EndOf(trace, from) <= now
    ensures LeasesOnRecord(Run(EMPTY, trace).0, now)
    ensures forall r :: RunningHasExpiry(Run(EMPTY, trace).0, r)
  {
    TraceKeepsLeasesOnRecord(EMPTY, trace, from);
    LaterKeepsLeasesOnRecord(Run(EMPTY, trace).0, EndOf(trace, from), now);
    forall r ensures RunningHasExpiry(Run(EMPTY, trace).0, r) {
      TraceKeepsExpiry(EMPTY, trace, r);
    }
  }

  // ---- Handles granted along a trace ----

  lemma {:induction false} StepGrantsIssued(q: SqlRepo, call: Call, before: int, now: int)
    requires LeasesOnRecord(q, before) && before <= now && CreatedFirst(q, call) && Step(q, call, now).1.Granted?
    ensures var (q', reply) := Step(q, call, now); Issued(q', reply.lease) && Coherent(q', reply.lease)
  {
    if call.Renew? {
      assert RowOnRecord(q, call.lease.conversationId, before);
    }
  }

  lemma {:induction false} IssuedForGood(q: SqlRepo, h: Lease, trace: seq<Stamped>)
    requires Issued(q, h) && Coherent(q, h)
    ensures Issued(Run(q, trace).0, h) && Coherent(Run(q, trace).0, h)
    decreases |trace|
  {
    if trace != [] {
      IssuedIsStable(q, h, trace[0].call, trace[0].now);
      IssuedForGood(Step(q, trace[0].call, trace[0].now).0, h, trace[1..]);
    }
  }

  /** Every handle a trace granted is known to the store it leads to. */
  lemma {:induction false} GrantsAreIssued(q: SqlRepo, trace: seq<Stamped>, i: nat, from: int)
    requires LeasesOnRecord(q, from) && Chronological(trace, from) && CreatedFirstTrace(q, trace)
    requires i < |trace| && Run(q, trace).1[i].Granted?
    ensures var (q', replies) := Run(q, trace); Issued(q', replies[i].lease) && Coherent(q', replies[i].lease)
    decreases |trace|
  {
    var now, call := trace[0].now, trace[0].call;
    var (q1, reply) := Step(q, call, now);
    LeasesOnRecordStep(q, call, from, now);
    if i == 0 {
      StepGrantsIssued(q, call, from, now);
      IssuedForGood(q1, reply.lease, trace[1..]);
    } else {
      GrantsAreIssued(q1, trace[1..], i - 1, now);
    }
  }

  lemma {:induction false} RunSplit(q: SqlRepo, first: seq<Stamped>, second: seq<Stamped>)
    ensures Run(q, first + second).0 == Run(Run(q, first).0, second).0
    ensures Run(q, first + second).1 == Run(q, first).1 + Run(Run(q, first).0, second).1
    decreases |first|
  {
    if first == [] {
      assert first + second == second;
    } else {
      assert (first + second)[0] == first[0] && (first + second)[1..] == first[1..] + second;
      RunSplit(Step(q, first[0].call, first[0].now).0, first[1..], second);
    }
  }

  lemma {:induction false} StepKeepsIdentity(q: SqlRepo, call: Call, now: int, id: Identity)
    requires id.runId in q.runs && MatchesIdentity(q.runs[id.runId], id)
    ensures var q' := Step(q, call, now).0; id.runId in q'.runs && MatchesIdentity(q'.runs[id.runId], id)
  {
  }

  /** A run's record never goes and never changes its identity. */
  lemma {:induction false} TraceKeepsIdentity(q: SqlRepo, trace: seq<Stamped>, id: Identity)
    requires id.runId in q.runs && MatchesIdentity(q.runs[id.runId], id)
    ensures var q' := Run(q, trace).0; id.runId in q'.runs && MatchesIdentity(q'.runs[id.runId], id)
    decreases |trace|
  {
    if trace != [] {
      StepKeepsIdentity(q, trace[0].call, trace[0].now, id);
      TraceKeepsIdentity(Step(q, trace[0].call, trace[0].now).0, trace[1..], id);
    }
  }
}
