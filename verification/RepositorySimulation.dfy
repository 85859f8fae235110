/**
 The in-process repository and the SQL repository answer alike.
 A forward simulation over every chronological trace of calls whose callers created their run first.
 */
module RepositorySimulation {
  import opened Prelude
  import opened RunModel
  import M = MemoryRuns
  import Q = PostgresRuns

  /** Records agree but for the instant of the history commit, which one side re-stamps. */
  predicate RecordsAgree(a: RunRecord, b: RunRecord) {
    && a.historyCommittedAt.Some? == b.historyCommittedAt.Some?
    && a == b.(historyCommittedAt := a.historyCommittedAt)
  }

  predicate RepliesAgree(a: Reply, b: Reply) {
    match (a, b)
    case (Created(r, x), Created(r', x')) => RecordsAgree(r, r') && x == x'
    case (Found(Some(r)), Found(Some(r'))) => RecordsAgree(r, r')
    case (Recorded(r), Recorded(r')) => RecordsAgree(r, r')
    case _ => a == b
  }

  /** A stored lease sits under its conversation, and its run record names its owner and token. */
  predicate LeaseMatchesRecord(m: M.MemRepo, c: string) {
    c in m.leases ==>
      var lease := m.leases[c];
      && lease.conversationId == c
      && lease.runId in m.records
      && m.records[lease.runId].conversationId == c
      && m.records[lease.runId].leaseOwner == Some(lease.ownerId)
      && m.records[lease.runId].fencingToken == Some(lease.fencingToken)
  }

  /** Both sides agree on the lease of conversation c at time now. */
  predicate LeasesAgree(m: M.MemRepo, q: Q.SqlRepo, c: string, now: int) {
    && (c in m.fencing <==> c in q.leases)
    && (c in m.leases ==> c in m.fencing)
    && (c in q.leases ==> m.fencing[c] == q.leases[c].token)
    && (c in m.leases ==>
          q.leases[c] == Q.LeaseRow(m.leases[c].runId, m.leases[c].ownerId, m.leases[c].fencingToken,
                                    m.leases[c].expiresAt))
    && (c in q.leases && c !in m.leases ==> q.leases[c].expiresAt <= now)
  }

  predicate IdentityStored(m: M.MemRepo, r: string) {
    r in m.records ==>
      && m.records[r].runId == r && |r| == 36
      && m.records[r].executionThreadId == m.records[r].conversationId + ":" + r
  }

  /** Both sides hold run r or neither does, and what they hold agrees. */
  predicate RunAgrees(m: M.MemRepo, q: Q.SqlRepo, r: string) {
    && (r in m.records <==> r in q.runs)
    && (r in m.records ==> RecordsAgree(m.records[r], q.runs[r]))
    && IdentityStored(m, r)
  }

  ghost predicate Similar(m: M.MemRepo, q: Q.SqlRepo, now: int) {
    && (forall r :: RunAgrees(m, q, r))
    && (forall c :: LeasesAgree(m, q, c, now))
    && (forall c :: LeaseMatchesRecord(m, c))
    && M.LeasesHaveRecords(m)
  }

  /** A handle that `acquire` could have issued: its run, if recorded, lives in its conversation. */
  predicate CoherentHandle(m: M.MemRepo, lease: Lease) {
    lease.runId in m.records ==> m.records[lease.runId].conversationId == lease.conversationId
  }

  /** What the protocol guarantees of each call, given the records that exist. */
  predicate ProtocolCall(m: M.MemRepo, call: Call) {
    match call
    case CreateOrGet(id) => WellFormedIdentity(id)
    case Acquire(id, _, _) => id.runId in m.records && MatchesIdentity(m.records[id.runId], id)
    case Renew(lease, _) => CoherentHandle(m, lease)
    case Release(lease) => CoherentHandle(m, lease)
    case MarkTerminal(lease, o) => CoherentHandle(m, lease) && OutcomeStatus(o.status) && o.payload != Some(map[])
    case MarkHistoryCommitted(lease, _) => CoherentHandle(m, lease)
    case Reconcile(r, _) => r in m.records ==> SqlTerminal(m.records[r].status)
    case Get(_) => true
    case Revoke(_) => true
  }

  ghost predicate ProtocolTrace(m: M.MemRepo, trace: seq<Stamped>)
    requires M.LeasesHaveRecords(m)
    decreases |trace|
  {
    trace == [] ||
    (ProtocolCall(m, trace[0].call) && ProtocolTrace(M.Step(m, trace[0].call, trace[0].now).0, trace[1..]))
  }

  lemma {:induction false} SimilarLater(m: M.MemRepo, q: Q.SqlRepo, now: int, later: int)
    requires Similar(m, q, now) && now <= later
    ensures Similar(m, q, later)
  {
    forall c ensures LeasesAgree(m, q, c, later) {
      assert LeasesAgree(m, q, c, now);
    }
  }

  /** Both lease tests say the same of a coherent handle. */
  lemma {:induction false} LeaseTestsAgree(m: M.MemRepo, q: Q.SqlRepo, lease: Lease, now: int)
    requires Similar(m, q, now) && CoherentHandle(m, lease)
    ensures M.LeaseCurrent(m, lease, now) <==> Q.RenewMatches(q, lease, now)
    ensures M.LeaseCurrent(m, lease, now) <==> Q.OutcomeMatches(q, lease, now)
  {
    var c := lease.conversationId;
    assert LeasesAgree(m, q, c, now) && LeaseMatchesRecord(m, c) && RunAgrees(m, q, lease.runId);
  }

  lemma {:induction false} NoThreadIdClash(m: M.MemRepo, q: Q.SqlRepo, id: Identity, now: int)
    requires Similar(m, q, now) && WellFormedIdentity(id)
    ensures !Q.ThreadIdTaken(q, id)
  {
    forall r | r in q.runs && r != id.runId
      ensures q.runs[r].executionThreadId != id.executionThreadId
    {
      assert RunAgrees(m, q, r);
      var other := Identity(r, q.runs[r].conversationId, q.runs[r].executionThreadId, "", 0, 0, 0);
      if other.executionThreadId == id.executionThreadId {
        ThreadIdDeterminesRun(other, id);
      }
    }
  }

  /** Changing one record, one lease and its counter on both sides keeps the relation if it holds there. */
  lemma {:induction false} LocalChange(m: M.MemRepo, q: Q.SqlRepo, m': M.MemRepo, q': Q.SqlRepo, r: string, c: string, now: int)
    requires Similar(m, q, now)
    requires m'.records - {r} == m.records - {r} && q'.runs - {r} == q.runs - {r}
    requires m'.leases - {c} == m.leases - {c} && q'.leases - {c} == q.leases - {c}
    requires m'.fencing - {c} == m.fencing - {c}
    requires r in m.records ==> r in m'.records && m'.records[r].conversationId == m.records[r].conversationId
    requires r in m.records && m'.records[r].conversationId != c
             ==> m'.records[r].leaseOwner == m.records[r].leaseOwner
                 && m'.records[r].fencingToken == m.records[r].fencingToken
    requires RunAgrees(m', q', r) && LeasesAgree(m', q', c, now) && LeaseMatchesRecord(m', c)
    ensures Similar(m', q', now)
  {
    forall k ensures RunAgrees(m', q', k) {
      OtherRunAgrees(m, q, m', q', r, k);
    }
    forall k ensures LeasesAgree(m', q', k, now) {
      OtherLeaseAgrees(m, q, m', q', c, k, now);
    }
    forall k ensures LeaseMatchesRecord(m', k) {
      OtherLeaseMatches(m, m', r, c, k);
    }
    forall k | k in m'.leases ensures m'.leases[k].runId in m'.records {
      assert LeaseMatchesRecord(m', k);
    }
  }

  lemma {:induction false} OtherRunAgrees(m: M.MemRepo, q: Q.SqlRepo, m': M.MemRepo, q': Q.SqlRepo, r: string, k: string)
    requires m'.records - {r} == m.records - {r} && q'.runs - {r} == q.runs - {r}
    requires RunAgrees(m', q', r) && RunAgrees(m, q, k)
    ensures RunAgrees(m', q', k)
  {
    if k != r {
      SameElsewhere(m.records, m'.records, r, k);
      SameElsewhere(q.runs, q'.runs, r, k);
    }
  }

  lemma {:induction false} OtherLeaseAgrees(m: M.MemRepo, q: Q.SqlRepo, m': M.MemRepo, q': Q.SqlRepo, c: string, k: string, now: int)
    requires m'.leases - {c} == m.leases - {c} && q'.leases - {c} == q.leases - {c}
    requires m'.fencing - {c} == m.fencing - {c}
    requires LeasesAgree(m', q', c, now) && LeasesAgree(m, q, k, now)
    ensures LeasesAgree(m', q', k, now)
  {
    if k != c {
      SameElsewhere(m.leases, m'.leases, c, k);
      SameElsewhere(q.leases, q'.leases, c, k);
      SameElsewhere(m.fencing, m'.fencing, c, k);
    }
  }

  lemma {:induction false} OtherLeaseMatches(m: M.MemRepo, m': M.MemRepo, r: string, c: string, k: string)
    requires m'.records - {r} == m.records - {r} && m'.leases - {c} == m.leases - {c}
    requires r in m.records ==> r in m'.records && m'.records[r].conversationId == m.records[r].conversationId
    requires r in m.records && m'.records[r].conversationId != c
             ==> m'.records[r].leaseOwner == m.records[r].leaseOwner
                 && m'.records[r].fencingToken == m.records[r].fencingToken
    requires LeaseMatchesRecord(m', c) && LeaseMatchesRecord(m, k)
    ensures LeaseMatchesRecord(m', k)
  {
    if k != c && k in m'.leases {
      SameElsewhere(m.leases, m'.leases, c, k);
      if m.leases[k].runId != r {
        SameElsewhere(m.records, m'.records, r, m.leases[k].runId);
      }
    }
  }

  lemma {:induction false} CreateSimulates(m: M.MemRepo, q: Q.SqlRepo, id: Identity, now: int)
    requires Similar(m, q, now) && WellFormedIdentity(id)
    ensures Similar(M.OnCreateOrGet(m, id, now).0, Q.OnCreateOrGet(q, id, now).0, now)
    ensures RepliesAgree(M.OnCreateOrGet(m, id, now).1, Q.OnCreateOrGet(q, id, now).1)
  {
    NoThreadIdClash(m, q, id, now);
    assert RunAgrees(m, q, id.runId) && LeasesAgree(m, q, id.conversationId, now);
    assert LeaseMatchesRecord(m, id.conversationId);
    LocalChange(m, q, M.OnCreateOrGet(m, id, now).0, Q.OnCreateOrGet(q, id, now).0, id.runId, id.conversationId, now);
  }

  lemma {:induction false} AcquireSimulates(m: M.MemRepo, q: Q.SqlRepo, id: Identity, owner: string, ttl: nat, now: int)
    requires Similar(m, q, now) && ProtocolCall(m, Acquire(id, owner, ttl))
    ensures Similar(M.OnAcquire(m, id, owner, ttl, now).0, Q.OnAcquire(q, id, owner, ttl, now).0, now)
    ensures RepliesAgree(M.OnAcquire(m, id, owner, ttl, now).1, Q.OnAcquire(q, id, owner, ttl, now).1)
  {
    var c := id.conversationId;
    assert RunAgrees(m, q, id.runId) && LeasesAgree(m, q, c, now);
    if !(c in m.leases && m.leases[c].expiresAt > now) {
      LocalChange(m, q, M.OnAcquire(m, id, owner, ttl, now).0, Q.OnAcquire(q, id, owner, ttl, now).0, id.runId, c, now);
    }
  }

  lemma {:induction false} RenewSimulates(m: M.MemRepo, q: Q.SqlRepo, lease: Lease, ttl: nat, now: int)
    requires Similar(m, q, now) && CoherentHandle(m, lease)
    ensures Similar(M.OnRenew(m, lease, ttl, now).0, Q.OnRenew(q, lease, ttl, now).0, now)
    ensures RepliesAgree(M.OnRenew(m, lease, ttl, now).1, Q.OnRenew(q, lease, ttl, now).1)
  {
    LeaseTestsAgree(m, q, lease, now);
    if M.LeaseCurrent(m, lease, now) {
      var c, r := lease.conversationId, lease.runId;
      assert LeaseMatchesRecord(m, c) && LeasesAgree(m, q, c, now) && RunAgrees(m, q, r);
      LocalChange(m, q, M.OnRenew(m, lease, ttl, now).0, Q.OnRenew(q, lease, ttl, now).0, r, c, now);
    }
  }

  lemma {:induction false} ReleaseSimulates(m: M.MemRepo, q: Q.SqlRepo, lease: Lease, now: int)
    requires Similar(m, q, now)
    ensures Similar(M.OnRelease(m, lease), Q.OnRelease(q, lease, now), now)
  {
    var c := lease.conversationId;
    assert LeasesAgree(m, q, c, now) && LeaseMatchesRecord(m, c) && RunAgrees(m, q, lease.runId);
    LocalChange(m, q, M.OnRelease(m, lease), Q.OnRelease(q, lease, now), lease.runId, c, now);
  }

  /** Replacing one record by an agreeing pair that keeps identity, owner and token keeps the relation. */
  lemma {:induction false} RecordUpdateSimulates(m: M.MemRepo, q: Q.SqlRepo, r: string, a: RunRecord, b: RunRecord, now: int)
    requires Similar(m, q, now) && r in m.records && RecordsAgree(a, b)
    requires a.runId == m.records[r].runId && a.conversationId == m.records[r].conversationId
    requires a.executionThreadId == m.records[r].executionThreadId
    requires a.leaseOwner == m.records[r].leaseOwner && a.fencingToken == m.records[r].fencingToken
    ensures Similar(m.(records := m.records[r := a]), q.(runs := q.runs[r := b]), now)
  {
    var c := m.records[r].conversationId;
    assert LeasesAgree(m, q, c, now) && LeaseMatchesRecord(m, c) && RunAgrees(m, q, r);
    LocalChange(m, q, m.(records := m.records[r := a]), q.(runs := q.runs[r := b]), r, c, now);
  }

  lemma {:induction false} MarkTerminalSimulates(m: M.MemRepo, q: Q.SqlRepo, lease: Lease, o: Outcome, now: int)
    requires Similar(m, q, now) && ProtocolCall(m, MarkTerminal(lease, o))
    ensures Similar(M.OnMarkTerminal(m, lease, o, now).0, Q.OnMarkTerminal(q, lease, o, now).0, now)
    ensures RepliesAgree(M.OnMarkTerminal(m, lease, o, now).1, Q.OnMarkTerminal(q, lease, o, now).1)
  {
    LeaseTestsAgree(m, q, lease, now);
    if M.LeaseCurrent(m, lease, now) {
      var r := lease.runId;
      assert RunAgrees(m, q, r);
      RecordUpdateSimulates(m, q, r, M.OutcomeRecord(m.records[r], o, now), Q.OutcomeRecord(q.runs[r], o, now), now);
    }
  }

  lemma {:induction false} MarkHistorySimulates(m: M.MemRepo, q: Q.SqlRepo, lease: Lease, p: Option<Payload>, now: int)
    requires Similar(m, q, now) && CoherentHandle(m, lease)
    ensures Similar(M.OnMarkHistory(m, lease, p, now).0, Q.OnMarkHistory(q, lease, p, now).0, now)
    ensures RepliesAgree(M.OnMarkHistory(m, lease, p, now).1, Q.OnMarkHistory(q, lease, p, now).1)
  {
    LeaseTestsAgree(m, q, lease, now);
    if M.LeaseCurrent(m, lease, now) {
      var r := lease.runId;
      assert RunAgrees(m, q, r);
      RecordUpdateSimulates(m, q, r, M.OnMarkHistory(m, lease, p, now).1.record, Q.CommittedRecord(q.runs[r], p, now), now);
    }
  }

  lemma {:induction false} UnleasedWritesSimulate(m: M.MemRepo, q: Q.SqlRepo, call: Call, now: int)
    requires Similar(m, q, now) && ProtocolCall(m, call) && (call.Reconcile? || call.Revoke?)
    ensures Similar(M.Step(m, call, now).0, Q.Step(q, call, now).0, now)
    ensures RepliesAgree(M.Step(m, call, now).1, Q.Step(q, call, now).1)
  {
    var r := call.runId;
    assert RunAgrees(m, q, r);
    if r in m.records {
      var a, b := M.Step(m, call, now).0.records[r], Q.Step(q, call, now).0.runs[r];
      RecordUpdateSimulates(m, q, r, a, b, now);
    }
  }

  /** One protocol call answers alike on both sides and keeps the relation. */
  lemma {:induction false} StepSimulates(m: M.MemRepo, q: Q.SqlRepo, call: Call, now: int)
    requires Similar(m, q, now) && ProtocolCall(m, call)
    ensures Similar(M.Step(m, call, now).0, Q.Step(q, call, now).0, now)
    ensures RepliesAgree(M.Step(m, call, now).1, Q.Step(q, call, now).1)
  {
    match call
    case CreateOrGet(id) => CreateSimulates(m, q, id, now);
    case Get(r) => assert RunAgrees(m, q, r);
    case Acquire(id, owner, ttl) => AcquireSimulates(m, q, id, owner, ttl, now);
    case Renew(lease, ttl) => RenewSimulates(m, q, lease, ttl, now);
    case Release(lease) => ReleaseSimulates(m, q, lease, now);
    case MarkTerminal(lease, o) => MarkTerminalSimulates(m, q, lease, o, now);
    case MarkHistoryCommitted(lease, p) => MarkHistorySimulates(m, q, lease, p, now);
    case Reconcile(_, _) => UnleasedWritesSimulate(m, q, call, now);
    case Revoke(_) => UnleasedWritesSimulate(m, q, call, now);
  }

  /** From related states, every protocol trace gets agreeing replies and ends in related states. */
  lemma {:induction false} TraceSimulates(m: M.MemRepo, q: Q.SqlRepo, trace: seq<Stamped>, from: int)
    returns (until: int)
    requires Similar(m, q, from) && Chronological(trace, from) && ProtocolTrace(m, trace)
    ensures forall i :: 0 <= i < |trace| ==> RepliesAgree(M.Run(m, trace).1[i], Q.Run(q, trace).1[i])
    ensures from <= until && Similar(M.Run(m, trace).0, Q.Run(q, trace).0, until)
    decreases |trace|
  {
    until := from;
    if trace != [] {
      var now, call := trace[0].now, trace[0].call;
      SimilarLater(m, q, from, now);
      StepSimulates(m, q, call, now);
      until := TraceSimulates(M.Step(m, call, now).0, Q.Step(q, call, now).0, trace[1..], now);
    }
  }

  /** Starting empty, the two repositories are indistinguishable to protocol callers. */
  lemma {:induction false} SameContract(trace: seq<Stamped>, from: int)
    requires Chronological(trace, from) && ProtocolTrace(M.EMPTY, trace)
    ensures forall i :: 0 <= i < |trace| ==> RepliesAgree(M.Run(M.EMPTY, trace).1[i], Q.Run(Q.EMPTY, trace).1[i])
  {
    var until := TraceSimulates(M.EMPTY, Q.EMPTY, trace, from);
  }

  /**
   Where the contract splits: an outcome stored under a live lease is the same record on both sides
   exactly when its payload is not the empty object.
   */
  lemma {:induction false} EmptyPayloadSplitsTheContract(m: M.MemRepo, q: Q.SqlRepo, lease: Lease, o: Outcome, now: int)
    requires Similar(m, q, now) && CoherentHandle(m, lease) && OutcomeStatus(o.status)
    requires M.LeaseCurrent(m, lease, now)
    ensures RepliesAgree(M.OnMarkTerminal(m, lease, o, now).1, Q.OnMarkTerminal(q, lease, o, now).1)
            <==> o.payload != Some(map[])
  {
    LeaseTestsAgree(m, q, lease, now);
    assert RunAgrees(m, q, lease.runId);
  }

  /** Handles that `acquire` and `renew` return are coherent, and a coherent handle stays coherent. */
  lemma {:induction false} GrantedHandlesCoherent(m: M.MemRepo, q: Q.SqlRepo, call: Call, h: Lease, now: int)
    requires Similar(m, q, now) && ProtocolCall(m, call)
    ensures var (m', reply) := M.Step(m, call, now);
            && (reply.Granted? ==> CoherentHandle(m', reply.lease))
            && (h.runId in m.records && CoherentHandle(m, h) ==> CoherentHandle(m', h))
  {
    if call.Renew? {
      assert LeaseMatchesRecord(m, call.lease.conversationId);
    }
  }

  // ---- Traces told by what callers were given ----

  /** What the callers of a trace hold: the handles granted to them, and the identities they created or found. */
  datatype Hands = Hands(leases: seq<Lease>, identities: seq<Identity>)

  const EMPTY_HANDS := Hands([], [])

  /** The handle is one that was granted, up to the expiry it was granted with. */
  predicate Holds(hands: Hands, lease: Lease) {
    exists k :: 0 <= k < |hands.leases| && SameOwner(hands.leases[k], lease)
  }

  /** A call uses only handles that an earlier call was granted, and acquires only for identities that an earlier call created or found. */
  predicate CallerCall(m: M.MemRepo, hands: Hands, call: Call) {
    match call
    case CreateOrGet(id) => WellFormedIdentity(id)
    case Acquire(id, _, _) => id in hands.identities
    case Renew(lease, _) => Holds(hands, lease)
    case Release(lease) => Holds(hands, lease)
    case MarkTerminal(lease, o) => Holds(hands, lease) && OutcomeStatus(o.status) && o.payload != Some(map[])
    case MarkHistoryCommitted(lease, _) => Holds(hands, lease)
    case Reconcile(r, _) => r in m.records ==> SqlTerminal(m.records[r].status)
    case Get(_) => true
    case Revoke(_) => true
  }

  function Receive(hands: Hands, call: Call, reply: Reply): Hands {
    match reply
    case Granted(lease) => hands.(leases := hands.leases + [lease])
    case Created(_, _) => if call.CreateOrGet? then hands.(identities := hands.identities + [call.identity]) else hands
    case _ => hands
  }

  ghost predicate CallerTrace(m: M.MemRepo, hands: Hands, trace: seq<Stamped>)
    requires M.LeasesHaveRecords(m)
    decreases |trace|
  {
    trace == []
    || (CallerCall(m, hands, trace[0].call)
        && var (m', reply) := M.Step(m, trace[0].call, trace[0].now);
           CallerTrace(m', Receive(hands, trace[0].call, reply), trace[1..]))
  }

  predicate KnownHandle(m: M.MemRepo, lease: Lease) {
    lease.runId in m.records && m.records[lease.runId].conversationId == lease.conversationId
  }

  predicate KnownIdentity(m: M.MemRepo, id: Identity) {
    id.runId in m.records && MatchesIdentity(m.records[id.runId], id)
  }

  predicate HandsKnown(m: M.MemRepo, hands: Hands) {
    && (forall lease :: lease in hands.leases ==> KnownHandle(m, lease))
    && (forall id :: id in hands.identities ==> KnownIdentity(m, id))
  }

  lemma {:induction false} HeldHandlesCoherent(m: M.MemRepo, hands: Hands, lease: Lease)
    requires HandsKnown(m, hands) && Holds(hands, lease)
    ensures CoherentHandle(m, lease)
  {
    var k :| 0 <= k < |hands.leases| && SameOwner(hands.leases[k], lease);
    assert hands.leases[k] in hands.leases && KnownHandle(m, hands.leases[k]);
  }

  lemma {:induction false} CallerCallsAreProtocol(m: M.MemRepo, hands: Hands, call: Call)
    requires HandsKnown(m, hands) && CallerCall(m, hands, call)
    ensures ProtocolCall(m, call)
  {
    if call.Acquire? {
      assert KnownIdentity(m, call.identity);
    } else if call.Renew? || call.Release? || call.MarkTerminal? || call.MarkHistoryCommitted? {
      HeldHandlesCoherent(m, hands, call.lease);
    }
  }

  /** Records stay, and keep the identity they were created with. */
  lemma {:induction false} StepKeepsKnown(m: M.MemRepo, call: Call, now: int)
    requires M.LeasesHaveRecords(m)
    ensures forall lease :: KnownHandle(m, lease) ==> KnownHandle(M.Step(m, call, now).0, lease)
    ensures forall id :: KnownIdentity(m, id) ==> KnownIdentity(M.Step(m, call, now).0, id)
  {
  }

  lemma {:induction false} StepGivesKnown(m: M.MemRepo, q: Q.SqlRepo, call: Call, now: int)
    requires Similar(m, q, now) && ProtocolCall(m, call)
    ensures var (m', reply) := M.Step(m, call, now);
      && (reply.Granted? ==> KnownHandle(m', reply.lease))
      && (reply.Created? && call.CreateOrGet? ==> KnownIdentity(m', call.identity))
  {
    if call.Renew? {
      assert LeaseMatchesRecord(m, call.lease.conversationId);
    }
  }

  lemma {:induction false} StepKeepsHands(m: M.MemRepo, q: Q.SqlRepo, hands: Hands, call: Call, now: int)
    requires Similar(m, q, now) && HandsKnown(m, hands) && ProtocolCall(m, call)
    ensures var (m', reply) := M.Step(m, call, now); HandsKnown(m', Receive(hands, call, reply))
  {
    StepKeepsKnown(m, call, now);
    StepGivesKnown(m, q, call, now);
  }

  /** A trace whose callers use only what they were given is a protocol trace. */
  lemma {:induction false} CallerTracesAreProtocol(m: M.MemRepo, q: Q.SqlRepo, hands: Hands, trace: seq<Stamped>, from: int)
    requires Similar(m, q, from) && HandsKnown(m, hands) && Chronological(trace, from) && CallerTrace(m, hands, trace)
    ensures ProtocolTrace(m, trace)
    decreases |trace|
  {
    if trace != [] {
      var now, call := trace[0].now, trace[0].call;
      SimilarLater(m, q, from, now);
      CallerCallsAreProtocol(m, hands, call);
      StepKeepsHands(m, q, hands, call, now);
      StepSimulates(m, q, call, now);
      var (m', reply) := M.Step(m, call, now);
      CallerTracesAreProtocol(m', Q.Step(q, call, now).0, Receive(hands, call, reply), trace[1..], now);
    }
  }

  /** Starting empty, callers who use only handles they were granted and runs they created cannot tell the repositories apart. */
  lemma {:induction false} CallersCannotTell(trace: seq<Stamped>, from: int)
    requires Chronological(trace, from) && CallerTrace(M.EMPTY, EMPTY_HANDS, trace)
    ensures forall i :: 0 <= i < |trace| ==> RepliesAgree(M.Run(M.EMPTY, trace).1[i], Q.Run(Q.EMPTY, trace).1[i])
  {
    CallerTracesAreProtocol(M.EMPTY, Q.EMPTY, EMPTY_HANDS, trace, from);
    SameContract(trace, from);
  }
}
