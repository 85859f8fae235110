/** The process-local run repository: three dictionaries changed under one lock. */
module MemoryRuns {
  import opened Prelude
  import opened RunModel

  /** The dictionaries as one value. */
  datatype MemRepo = MemRepo(
    records: map<string, RunRecord>,
    leases: map<string, Lease>,
    fencing: map<string, nat>)

  const EMPTY := MemRepo(map[], map[], map[])

  /** `_assert_lease` raises nothing. */
  predicate LeaseCurrent(s: MemRepo, lease: Lease, now: int) {
    && lease.conversationId in s.leases
    && SameOwner(s.leases[lease.conversationId], lease)
    && s.leases[lease.conversationId].expiresAt > now
  }

  /** The run of every stored lease has a record. */
  predicate LeasesHaveRecords(s: MemRepo) {
    forall c :: c in s.leases ==> s.leases[c].runId in s.records
  }

  function NextToken(s: MemRepo, conversationId: string): nat {
    (if conversationId in s.fencing then s.fencing[conversationId] else 0) + 1
  }

  function OnCreateOrGet(s: MemRepo, id: Identity, now: int): (MemRepo, Reply) {
    if id.runId in s.records then
      if MatchesIdentity(s.records[id.runId], id)
      then (s, Created(s.records[id.runId], false))
      else (s, Failure(Conflict))
    else
      (s.(records := s.records[id.runId := FreshRecord(id, now)]), Created(FreshRecord(id, now), true))
  }

  function OnGet(s: MemRepo, runId: string): Reply {
    Found(if runId in s.records then Some(s.records[runId]) else None)
  }

  function RunningRecord(record: RunRecord, lease: Lease, now: int): RunRecord {
    record.(status := Running, fencingToken := Some(lease.fencingToken), leaseOwner := Some(lease.ownerId),
            leaseExpiresAt := Some(lease.expiresAt), startedAt := Coalesce(record.startedAt, now),
            updatedAt := now)
  }

  function OnAcquire(s: MemRepo, id: Identity, owner: string, ttl: nat, now: int): (MemRepo, Reply) {
    var c := id.conversationId;
    if id.runId !in s.records || !MatchesIdentity(s.records[id.runId], id) then (s, Failure(Conflict))
    else if c in s.leases && s.leases[c].expiresAt > now then (s, Failure(Busy))
    else
      var lease := Lease(c, id.runId, owner, NextToken(s, c), now + ttl);
      (MemRepo(s.records[id.runId := RunningRecord(s.records[id.runId], lease, now)],
               s.leases[c := lease],
               s.fencing[c := lease.fencingToken]),
       Granted(lease))
  }

  function OnRenew(s: MemRepo, lease: Lease, ttl: nat, now: int): (MemRepo, Reply)
    requires LeasesHaveRecords(s)
  {
    if !LeaseCurrent(s, lease, now) then (s, Failure(Stale))
    else
      var renewed := lease.(expiresAt := now + ttl);
      (s.(leases := s.leases[lease.conversationId := renewed],
          records := s.records[lease.runId :=
            s.records[lease.runId].(leaseExpiresAt := Some(now + ttl), updatedAt := now)]),
       Granted(renewed))
  }

  function OnRelease(s: MemRepo, lease: Lease): MemRepo {
    var c := lease.conversationId;
    if c in s.leases && SameOwner(s.leases[c], lease)
    then s.(leases := s.leases - {c})
    else s
  }

  /** The record after an outcome; an empty payload is stored as none. */
  function OutcomeRecord(record: RunRecord, o: Outcome, now: int): RunRecord {
    record.(status := o.status,
            payload := if o.payload == Some(map[]) then None else o.payload,
            terminationReason := o.terminationReason,
            errorCode := o.errorCode,
            checkpointId := o.checkpointId,
            completedAt := if TerminalStatus(o.status) then Some(now) else None,
            updatedAt := now)
  }

  function OnMarkTerminal(s: MemRepo, lease: Lease, o: Outcome, now: int): (MemRepo, Reply)
    requires LeasesHaveRecords(s)
  {
    if !LeaseCurrent(s, lease, now) then (s, Failure(Stale))
    else
      var updated := OutcomeRecord(s.records[lease.runId], o, now);
      (s.(records := s.records[lease.runId := updated]), Recorded(updated))
  }

  function OnMarkHistory(s: MemRepo, lease: Lease, p: Option<Payload>, now: int): (MemRepo, Reply)
    requires LeasesHaveRecords(s)
  {
    if !LeaseCurrent(s, lease, now) then (s, Failure(Stale))
    else
      var record := s.records[lease.runId];
      var updated := record.(payload := FirstOf(p, record.payload), historyCommittedAt := Some(now), updatedAt := now);
      (s.(records := s.records[lease.runId := updated]), Recorded(updated))
  }

  function OnReconcile(s: MemRepo, runId: string, p: Option<Payload>, now: int): (MemRepo, Reply) {
    if runId !in s.records then (s, Failure(Conflict))
    else
      var record := s.records[runId];
      var updated := record.(payload := FirstOf(p, record.payload),
                             historyCommittedAt := Coalesce(record.historyCommittedAt, now),
                             updatedAt := now);
      (s.(records := s.records[runId := updated]), Recorded(updated))
  }

  function OnRevoke(s: MemRepo, runId: string, now: int): (MemRepo, Reply) {
    if runId !in s.records then (s, Failure(Conflict))
    else
      var record := s.records[runId];
      (s.(records := s.records[runId := record.(tokenVersion := record.tokenVersion + 1, updatedAt := now)]),
       Version(record.tokenVersion + 1))
  }

  function Step(s: MemRepo, call: Call, now: int): (r: (MemRepo, Reply))
    requires LeasesHaveRecords(s)
    ensures LeasesHaveRecords(r.0)
  {
    match call
    case CreateOrGet(id) => OnCreateOrGet(s, id, now)
    case Get(runId) => (s, OnGet(s, runId))
    case Acquire(id, owner, ttl) => OnAcquire(s, id, owner, ttl, now)
    case Renew(lease, ttl) => OnRenew(s, lease, ttl, now)
    case Release(lease) => (OnRelease(s, lease), Released)
    case MarkTerminal(lease, o) => OnMarkTerminal(s, lease, o, now)
    case MarkHistoryCommitted(lease, p) => OnMarkHistory(s, lease, p, now)
    case Reconcile(runId, p) => OnReconcile(s, runId, p, now)
    case Revoke(runId) => OnRevoke(s, runId, now)
  }

  /** State and replies after a whole trace. */
  function Run(s: MemRepo, trace: seq<Stamped>): (r: (MemRepo, seq<Reply>))
    requires LeasesHaveRecords(s)
    ensures LeasesHaveRecords(r.0) && |r.1| == |trace|
    decreases |trace|
  {
    if trace == [] then (s, [])
    else
      var (s1, reply) := Step(s, trace[0].call, trace[0].now);
      var (s2, rest) := Run(s1, trace[1..]);
      (s2, [reply] + rest)
  }

  class MemoryRunRepository {
    var records: map<string, RunRecord>
    var leases: map<string, Lease>
    var fencing: map<string, nat>

    ghost function Value(): MemRepo
      reads this
    {
      MemRepo(records, leases, fencing)
    }

    ghost predicate Valid()
      reads this
    {
      LeasesHaveRecords(Value())
    }

    constructor ()
      ensures Valid() && Value() == EMPTY
    {
      records, leases, fencing := map[], map[], map[];
    }

    method CreateOrGet(identity: Identity, now: int) returns (reply: Reply)
      requires Valid()
      modifies this
      ensures Valid() && (Value(), reply) == OnCreateOrGet(old(Value()), identity, now)
    {
      if identity.runId in records {
        var record := records[identity.runId];
        if !MatchesIdentity(record, identity) {
          return Failure(Conflict);
        }
        return Created(record, false);
      }
      var record := FreshRecord(identity, now);
      records := records[identity.runId := record];
      return Created(record, true);
    }

    method Acquire(identity: Identity, ownerId: string, ttl: nat, now: int) returns (reply: Reply)
      requires Valid()
      modifies this
      ensures Valid() && (Value(), reply) == OnAcquire(old(Value()), identity, ownerId, ttl, now)
    {
      if identity.runId !in records {
        return Failure(Conflict);
      }
      var record := records[identity.runId];
      if !MatchesIdentity(record, identity) {
        return Failure(Conflict);
      }
      if identity.conversationId in leases && leases[identity.conversationId].expiresAt > now {
        return Failure(Busy);
      }
      var token := 1;
      if identity.conversationId in fencing {
        token := fencing[identity.conversationId] + 1;
      }
      fencing := fencing[identity.conversationId := token];
      var lease := Lease(identity.conversationId, identity.runId, ownerId, token, now + ttl);
      leases := leases[identity.conversationId := lease];
      records := records[identity.runId := RunningRecord(record, lease, now)];
      return Granted(lease);
    }

    /** `_assert_lease`, as a test. */
    method AssertLease(lease: Lease, now: int) returns (ok: bool)
      ensures ok <==> LeaseCurrent(Value(), lease, now)
    {
      if lease.conversationId !in leases {
        return false;
      }
      var current := leases[lease.conversationId];
      return SameOwner(current, lease) && current.expiresAt > now;
    }

    method Renew(lease: Lease, ttl: nat, now: int) returns (reply: Reply)
      requires Valid()
      modifies this
      ensures Valid() && (Value(), reply) == OnRenew(old(Value()), lease, ttl, now)
    {
      var ok := AssertLease(lease, now);
      if !ok {
        return Failure(Stale);
      }
      var renewed := lease.(expiresAt := now + ttl);
      leases := leases[lease.conversationId := renewed];
      var record := records[lease.runId];
      records := records[lease.runId := record.(leaseExpiresAt := Some(renewed.expiresAt), updatedAt := now)];
      return Granted(renewed);
    }

    method Release(lease: Lease)
      requires Valid()
      modifies this
      ensures Valid() && Value() == OnRelease(old(Value()), lease)
    {
      if lease.conversationId in leases {
        var current := leases[lease.conversationId];
        if SameOwner(current, lease) {
          leases := leases - {lease.conversationId};
        }
      }
    }

    method MarkTerminal(lease: Lease, outcome: Outcome, now: int) returns (reply: Reply)
      requires Valid() && OutcomeStatus(outcome.status)
      modifies this
      ensures Valid() && (Value(), reply) == OnMarkTerminal(old(Value()), lease, outcome, now)
    {
      var ok := AssertLease(lease, now);
      if !ok {
        return Failure(Stale);
      }
      var updated := OutcomeRecord(records[lease.runId], outcome, now);
      records := records[lease.runId := updated];
      return Recorded(updated);
    }

    method MarkHistoryCommitted(lease: Lease, newPayload: Option<Payload>, now: int) returns (reply: Reply)
      requires Valid()
      modifies this
      ensures Valid() && (Value(), reply) == OnMarkHistory(old(Value()), lease, newPayload, now)
    {
      var ok := AssertLease(lease, now);
      if !ok {
        return Failure(Stale);
      }
      var record := records[lease.runId];
      var updated := record.(payload := FirstOf(newPayload, record.payload),
                             historyCommittedAt := Some(now), updatedAt := now);
      records := records[lease.runId := updated];
      return Recorded(updated);
    }

    method ReconcileHistoryCommitted(runId: string, newPayload: Option<Payload>, now: int) returns (reply: Reply)
      requires Valid()
      modifies this
      ensures Valid() && (Value(), reply) == OnReconcile(old(Value()), runId, newPayload, now)
    {
      if runId !in records {
        return Failure(Conflict);
      }
      var record := records[runId];
      var updated := record.(payload := FirstOf(newPayload, record.payload),
                             historyCommittedAt := Coalesce(record.historyCommittedAt, now),
                             updatedAt := now);
      records := records[runId := updated];
      return Recorded(updated);
    }

    method RevokeResumeTokens(runId: string, now: int) returns (reply: Reply)
      requires Valid()
      modifies this
      ensures Valid() && (Value(), reply) == OnRevoke(old(Value()), runId, now)
    {
      if runId !in records {
        return Failure(Conflict);
      }
      var record := records[runId];
      records := records[runId := record.(tokenVersion := record.tokenVersion + 1, updatedAt := now)];
      return Version(record.tokenVersion + 1);
    }
  }
}
