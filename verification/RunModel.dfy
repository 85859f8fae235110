/** Values of the durable run repository: identities, records, leases, calls and replies. */
module RunModel {
  import opened Prelude

  datatype Status =
    | Pending | Running | Interrupted | Completed | Failed | Cancelled | Expired | Reconciling

  /** `RunRecord.terminal`. */
  predicate TerminalStatus(s: Status) {
    s.Completed? || s.Failed? || s.Cancelled? || s.Expired?
  }

  /** The statuses `mark_terminal` is typed to receive. */
  predicate OutcomeStatus(s: Status) {
    s.Completed? || s.Failed? || s.Cancelled? || s.Interrupted?
  }

  /** The statuses the SQL statements list by name. */
  predicate SqlTerminal(s: Status) {
    s.Completed? || s.Failed? || s.Cancelled?
  }

  /** A JSON object: field name to encoded value. */
  type Payload = map<string, string>

  datatype Identity = Identity(
    runId: string,
    conversationId: string,
    executionThreadId: string,
    requestHash: string,
    hashVersion: nat,
    schemaVersion: nat,
    tokenVersion: nat)

  datatype RunRecord = RunRecord(
    runId: string,
    conversationId: string,
    executionThreadId: string,
    requestHash: string,
    hashVersion: nat,
    schemaVersion: nat,
    status: Status,
    fencingToken: Option<nat>,
    leaseOwner: Option<string>,
    leaseExpiresAt: Option<int>,
    checkpointId: Option<string>,
    payload: Option<Payload>,
    terminationReason: Option<string>,
    errorCode: Option<string>,
    createdAt: int,
    updatedAt: int,
    startedAt: Option<int>,
    completedAt: Option<int>,
    historyCommittedAt: Option<int>,
    tokenVersion: nat)

  /** The handle a caller keeps after acquiring a conversation. */
  datatype Lease = Lease(
    conversationId: string,
    runId: string,
    ownerId: string,
    fencingToken: nat,
    expiresAt: int)

  datatype RepoError = Conflict | Busy | Stale | UniqueViolation

  /** The arguments of `mark_terminal` besides the lease. */
  datatype Outcome = Outcome(
    status: Status,
    payload: Option<Payload>,
    terminationReason: Option<string>,
    errorCode: Option<string>,
    checkpointId: Option<string>)

  datatype Call =
    | CreateOrGet(identity: Identity)
    | Get(runId: string)
    | Acquire(identity: Identity, ownerId: string, ttl: nat)
    | Renew(lease: Lease, ttl: nat)
    | Release(lease: Lease)
    | MarkTerminal(lease: Lease, outcome: Outcome)
    | MarkHistoryCommitted(lease: Lease, newPayload: Option<Payload>)
    | Reconcile(runId: string, newPayload: Option<Payload>)
    | Revoke(runId: string)

  datatype Reply =
    | Created(record: RunRecord, created: bool)
    | Found(found: Option<RunRecord>)
    | Granted(lease: Lease)
    | Released
    | Recorded(record: RunRecord)
    | Version(version: nat)
    | Failure(error: RepoError)

  /** One timestamped repository call. */
  datatype Stamped = Stamped(now: int, call: Call)

  function Coalesce<T>(a: Option<T>, b: T): Option<T> {
    if a.Some? then a else Some(b)
  }

  function FirstOf<T>(a: Option<T>, b: Option<T>): Option<T> {
    if a.Some? then a else b
  }

  function FreshRecord(id: Identity, now: int): RunRecord {
    RunRecord(id.runId, id.conversationId, id.executionThreadId, id.requestHash, id.hashVersion,
              id.schemaVersion, Pending, None, None, None, None, None, None, None, now, now,
              None, None, None, id.tokenVersion)
  }

  /** `_validate_record_identity` raises nothing. */
  predicate MatchesIdentity(record: RunRecord, id: Identity) {
    && record.conversationId == id.conversationId
    && record.executionThreadId == id.executionThreadId
    && record.requestHash == id.requestHash
    && record.hashVersion == id.hashVersion
    && record.schemaVersion == id.schemaVersion
  }

  /** `_same_owner`: everything but the expiry. */
  predicate SameOwner(a: Lease, b: Lease) {
    && a.conversationId == b.conversationId
    && a.runId == b.runId
    && a.ownerId == b.ownerId
    && a.fencingToken == b.fencingToken
  }

  /** Identities the service normalises: a 36-character run id and the derived thread id. */
  predicate WellFormedIdentity(id: Identity) {
    |id.runId| == 36 && id.executionThreadId == id.conversationId + ":" + id.runId
  }

  /** Two normalised identities share a thread id only when they are the same run in the same conversation. */
  lemma {:induction false} ThreadIdDeterminesRun(a: Identity, b: Identity)
    requires WellFormedIdentity(a) && WellFormedIdentity(b)
    requires a.executionThreadId == b.executionThreadId
    ensures a.runId == b.runId && a.conversationId == b.conversationId
  {
    var n := |a.executionThreadId| - 36;
    assert a.executionThreadId[n..] == a.runId && b.executionThreadId[n..] == b.runId;
    assert a.executionThreadId[..n - 1] == a.conversationId && b.executionThreadId[..n - 1] == b.conversationId;
  }

  /** Times of a sequence of calls never decrease, starting no earlier than `from`. */
  predicate Chronological(trace: seq<Stamped>, from: int) {
    trace == [] || (from <= trace[0].now && Chronological(trace[1..], trace[0].now))
  }
}
