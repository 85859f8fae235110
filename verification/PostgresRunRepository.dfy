/** The SQL run repository: tables `app_runs` and `app_conversation_leases`. */
module PostgresRuns {
  import opened Prelude
  import opened RunModel

  /** A row of `app_conversation_leases`; its key is the conversation. */
  datatype LeaseRow = LeaseRow(runId: string, owner: string, token: nat, expiresAt: int)

  datatype SqlRepo = SqlRepo(runs: map<string, RunRecord>, leases: map<string, LeaseRow>)

  const EMPTY := SqlRepo(map[], map[])

  /** `execution_thread_id TEXT NOT NULL UNIQUE`. */
  predicate ThreadIdTaken(q: SqlRepo, id: Identity) {
    exists r :: r in q.runs && r != id.runId && q.runs[r].executionThreadId == id.executionThreadId
  }

  /** The lease row carries this owner and token for this run, expired or not. */
  predicate RowHeldBy(row: LeaseRow, runId: string, owner: string, token: nat) {
    row.runId == runId && row.owner == owner && row.token == token
  }

  /** The `WHERE` of `renew`. */
  predicate RenewMatches(q: SqlRepo, lease: Lease, now: int) {
    && lease.conversationId in q.leases
    && RowHeldBy(q.leases[lease.conversationId], lease.runId, lease.ownerId, lease.fencingToken)
    && q.leases[lease.conversationId].expiresAt > now
  }

  /** The `WHERE ... AND EXISTS (...)` of `mark_terminal` and `mark_history_committed`. */
  predicate OutcomeMatches(q: SqlRepo, lease: Lease, now: int) {
    && lease.runId in q.runs
    && var record := q.runs[lease.runId];
    && record.leaseOwner == Some(lease.ownerId)
    && record.fencingToken == Some(lease.fencingToken)
    && record.conversationId in q.leases
    && RowHeldBy(q.leases[record.conversationId], lease.runId, lease.ownerId, lease.fencingToken)
    && q.leases[record.conversationId].expiresAt > now
  }

  function OnCreateOrGet(q: SqlRepo, id: Identity, now: int): (SqlRepo, Reply) {
    if id.runId in q.runs then
      if MatchesIdentity(q.runs[id.runId], id)
      then (q, Created(q.runs[id.runId], false))
      else (q, Failure(Conflict))
    else if ThreadIdTaken(q, id) then (q, Failure(UniqueViolation))
    else (q.(runs := q.runs[id.runId := FreshRecord(id, now)]), Created(FreshRecord(id, now), true))
  }

  /** The upsert on the lease table; none when the `WHERE` of the update leaves the row alone. */
  function UpsertLease(q: SqlRepo, c: string, runId: string, owner: string, ttl: nat, now: int): Option<LeaseRow> {
    if c !in q.leases then Some(LeaseRow(runId, owner, 1, now + ttl))
    else if q.leases[c].expiresAt <= now then Some(LeaseRow(runId, owner, q.leases[c].token + 1, now + ttl))
    else None
  }

  /** One transaction: a failure of the second statement rolls the first back. */
  function OnAcquire(q: SqlRepo, id: Identity, owner: string, ttl: nat, now: int): (SqlRepo, Reply) {
    var c := id.conversationId;
    var row := UpsertLease(q, c, id.runId, owner, ttl, now);
    if row.None? then (q, Failure(Busy))
    else if id.runId !in q.runs then (q, Failure(Conflict))
    else
      var record := q.runs[id.runId];
      (SqlRepo(q.runs[id.runId := record.(status := Running, leaseOwner := Some(owner),
                                          fencingToken := Some(row.value.token),
                                          leaseExpiresAt := Some(row.value.expiresAt),
                                          startedAt := Coalesce(record.startedAt, now), updatedAt := now)],
               q.leases[c := row.value]),
       Granted(Lease(c, id.runId, owner, row.value.token, row.value.expiresAt)))
  }

  function OnRenew(q: SqlRepo, lease: Lease, ttl: nat, now: int): (SqlRepo, Reply) {
    if !RenewMatches(q, lease, now) then (q, Failure(Stale))
    else
      var c := lease.conversationId;
      var leases := q.leases[c := q.leases[c].(expiresAt := now + ttl)];
      var touches := lease.runId in q.runs && q.runs[lease.runId].fencingToken == Some(lease.fencingToken);
      var runs := if touches
                  then q.runs[lease.runId :=
                         q.runs[lease.runId].(leaseExpiresAt := Some(now + ttl), updatedAt := now)]
                  else q.runs;
      (SqlRepo(runs, leases), Granted(lease.(expiresAt := now + ttl)))
  }

  function OnRelease(q: SqlRepo, lease: Lease, now: int): SqlRepo {
    var c := lease.conversationId;
    if c in q.leases && RowHeldBy(q.leases[c], lease.runId, lease.ownerId, lease.fencingToken)
    then q.(leases := q.leases[c := q.leases[c].(expiresAt := now)])
    else q
  }

  function OutcomeRecord(record: RunRecord, o: Outcome, now: int): RunRecord {
    record.(status := o.status,
            payload := o.payload,
            terminationReason := o.terminationReason,
            errorCode := o.errorCode,
            checkpointId := o.checkpointId,
            completedAt := if SqlTerminal(o.status) then Some(now) else None,
            updatedAt := now)
  }

  function OnMarkTerminal(q: SqlRepo, lease: Lease, o: Outcome, now: int): (SqlRepo, Reply) {
    if !OutcomeMatches(q, lease, now) then (q, Failure(Stale))
    else
      var updated := OutcomeRecord(q.runs[lease.runId], o, now);
      (q.(runs := q.runs[lease.runId := updated]), Recorded(updated))
  }

  /** `SET history_committed_at = COALESCE(...), response_payload = COALESCE(...)`. */
  function CommittedRecord(record: RunRecord, p: Option<Payload>, now: int): RunRecord {
    record.(historyCommittedAt := Coalesce(record.historyCommittedAt, now),
            payload := FirstOf(p, record.payload),
            updatedAt := now)
  }

  function OnMarkHistory(q: SqlRepo, lease: Lease, p: Option<Payload>, now: int): (SqlRepo, Reply) {
    if !OutcomeMatches(q, lease, now) then (q, Failure(Stale))
    else
      var updated := CommittedRecord(q.runs[lease.runId], p, now);
      (q.(runs := q.runs[lease.runId := updated]), Recorded(updated))
  }

  function OnReconcile(q: SqlRepo, runId: string, p: Option<Payload>, now: int): (SqlRepo, Reply) {
    if runId !in q.runs || !SqlTerminal(q.runs[runId].status) then (q, Failure(Conflict))
    else
      var updated := CommittedRecord(q.runs[runId], p, now);
      (q.(runs := q.runs[runId := updated]), Recorded(updated))
  }

  function OnRevoke(q: SqlRepo, runId: string, now: int): (SqlRepo, Reply) {
    if runId !in q.runs then (q, Failure(Conflict))
    else
      var record := q.runs[runId];
      (q.(runs := q.runs[runId := record.(tokenVersion := record.tokenVersion + 1, updatedAt := now)]),
       Version(record.tokenVersion + 1))
  }

  function Step(q: SqlRepo, call: Call, now: int): (SqlRepo, Reply) {
    match call
    case CreateOrGet(id) => OnCreateOrGet(q, id, now)
    case Get(runId) => (q, Found(if runId in q.runs then Some(q.runs[runId]) else None))
    case Acquire(id, owner, ttl) => OnAcquire(q, id, owner, ttl, now)
    case Renew(lease, ttl) => OnRenew(q, lease, ttl, now)
    case Release(lease) => (OnRelease(q, lease, now), Released)
    case MarkTerminal(lease, o) => OnMarkTerminal(q, lease, o, now)
    case MarkHistoryCommitted(lease, p) => OnMarkHistory(q, lease, p, now)
    case Reconcile(runId, p) => OnReconcile(q, runId, p, now)
    case Revoke(runId) => OnRevoke(q, runId, now)
  }

  /** State and replies after a whole trace. */
  function Run(q: SqlRepo, trace: seq<Stamped>): (r: (SqlRepo, seq<Reply>))
    ensures |r.1| == |trace|
    decreases |trace|
  {
    if trace == [] then (q, [])
    else
      var (q1, reply) := Step(q, trace[0].call, trace[0].now);
      var (q2, rest) := Run(q1, trace[1..]);
      (q2, [reply] + rest)
  }

  class PostgresRunRepository {
    var runs: map<string, RunRecord>
    var leases: map<string, LeaseRow>

    ghost function Value(): SqlRepo
      reads this
    {
      SqlRepo(runs, leases)
    }

    constructor ()
      ensures Value() == EMPTY
    {
      runs, leases := map[], map[];
    }

    method CreateOrGet(identity: Identity, now: int) returns (reply: Reply)
      modifies this`runs
      ensures (Value(), reply) == OnCreateOrGet(old(Value()), identity, now)
    {
      var inserted := false;
      if identity.runId !in runs {
        if exists r :: r in runs && r != identity.runId
                       && runs[r].executionThreadId == identity.executionThreadId {
          return Failure(UniqueViolation);
        }
        runs := runs[identity.runId := FreshRecord(identity, now)];
        inserted := true;
      }
      var record := runs[identity.runId];
      if !MatchesIdentity(record, identity) {
        return Failure(Conflict);
      }
      return Created(record, inserted);
    }

    method Acquire(identity: Identity, ownerId: string, ttl: nat, now: int) returns (reply: Reply)
      modifies this
      ensures (Value(), reply) == OnAcquire(old(Value()), identity, ownerId, ttl, now)
    {
      var before := leases;
      var row := LeaseRow(identity.runId, ownerId, 1, now + ttl);
      if identity.conversationId in leases {
        if leases[identity.conversationId].expiresAt > now {
          return Failure(Busy);
        }
        row := row.(token := leases[identity.conversationId].token + 1);
      }
      leases := leases[identity.conversationId := row];
      if identity.runId !in runs {
        leases := before;
        return Failure(Conflict);
      }
      var record := runs[identity.runId];
      runs := runs[identity.runId :=
        record.(status := Running, leaseOwner := Some(ownerId), fencingToken := Some(row.token),
                leaseExpiresAt := Some(row.expiresAt), startedAt := Coalesce(record.startedAt, now),
                updatedAt := now)];
      return Granted(Lease(identity.conversationId, identity.runId, ownerId, row.token, row.expiresAt));
    }

    method Renew(lease: Lease, ttl: nat, now: int) returns (reply: Reply)
      modifies this
      ensures (Value(), reply) == OnRenew(old(Value()), lease, ttl, now)
    {
      if !RenewMatches(SqlRepo(runs, leases), lease, now) {
        return Failure(Stale);
      }
      var row := leases[lease.conversationId];
      leases := leases[lease.conversationId := row.(expiresAt := now + ttl)];
      if lease.runId in runs && runs[lease.runId].fencingToken == Some(lease.fencingToken) {
        runs := runs[lease.runId := runs[lease.runId].(leaseExpiresAt := Some(now + ttl), updatedAt := now)];
      }
      return Granted(lease.(expiresAt := now + ttl));
    }

    method Release(lease: Lease, now: int)
      modifies this`leases
      ensures Value() == OnRelease(old(Value()), lease, now)
    {
      if lease.conversationId in leases
         && RowHeldBy(leases[lease.conversationId], lease.runId, lease.ownerId, lease.fencingToken) {
        leases := leases[lease.conversationId := leases[lease.conversationId].(expiresAt := now)];
      }
    }

    method MarkTerminal(lease: Lease, outcome: Outcome, now: int) returns (reply: Reply)
      requires OutcomeStatus(outcome.status)
      modifies this`runs
      ensures (Value(), reply) == OnMarkTerminal(old(Value()), lease, outcome, now)
    {
      if !OutcomeMatches(SqlRepo(runs, leases), lease, now) {
        return Failure(Stale);
      }
      var updated := OutcomeRecord(runs[lease.runId], outcome, now);
      runs := runs[lease.runId := updated];
      return Recorded(updated);
    }

    method MarkHistoryCommitted(lease: Lease, newPayload: Option<Payload>, now: int) returns (reply: Reply)
      modifies this`runs
      ensures (Value(), reply) == OnMarkHistory(old(Value()), lease, newPayload, now)
    {
      if !OutcomeMatches(SqlRepo(runs, leases), lease, now) {
        return Failure(Stale);
      }
      var updated := CommittedRecord(runs[lease.runId], newPayload, now);
      runs := runs[lease.runId := updated];
      return Recorded(updated);
    }

    method ReconcileHistoryCommitted(runId: string, newPayload: Option<Payload>, now: int) returns (reply: Reply)
      modifies this`runs
      ensures (Value(), reply) == OnReconcile(old(Value()), runId, newPayload, now)
    {
      if runId !in runs || !SqlTerminal(runs[runId].status) {
        return Failure(Conflict);
      }
      var updated := CommittedRecord(runs[runId], newPayload, now);
      runs := runs[runId := updated];
      return Recorded(updated);
    }

    method RevokeResumeTokens(runId: string, now: int) returns (reply: Reply)
      modifies this`runs
      ensures (Value(), reply) == OnRevoke(old(Value()), runId, now)
    {
      if runId !in runs {
        return Failure(Conflict);
      }
      var record := runs[runId];
      runs := runs[runId := record.(tokenVersion := record.tokenVersion + 1, updatedAt := now)];
      return Version(record.tokenVersion + 1);
    }
  }
}
