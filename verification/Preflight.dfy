/** `_preflight_existing_run`: what a request may do with the record it found. */
module RunPreflight {
  import opened Prelude
  import opened RunModel
  import opened PostgresRuns
  import Fencing = LeaseFencing

  datatype Rejection =
    | TokenRevoked | RunNotFound | NotResumable | LeaseExpiredUseToken | AlreadyActive | UseToken

  datatype Verdict = Replay(payload: Payload) | Proceed | Reject(why: Rejection)

  function Preflight(resumed: bool, id: Identity, record: RunRecord, created: bool, migrated: bool, now: int): Verdict {
    if resumed && id.tokenVersion != record.tokenVersion then Reject(TokenRevoked)
    else if record.payload.Some? && SqlTerminal(record.status) then Replay(record.payload.value)
    else if resumed && migrated && record.status == Pending then Proceed
    else if created then (if resumed then Reject(RunNotFound) else Proceed)
    else
      var leaseExpired := record.leaseExpiresAt.Some? && record.leaseExpiresAt.value <= now;
      if resumed then
        if record.status == Interrupted || (record.status == Running && leaseExpired) then Proceed
        else Reject(NotResumable)
      else if record.status == Running then Reject(if leaseExpired then LeaseExpiredUseToken else AlreadyActive)
      else if record.status == Pending then Proceed
      else Reject(UseToken)
  }

  /** Nobody holds the conversation at this instant. */
  predicate ConversationFree(q: SqlRepo, c: string, now: int) {
    c in q.leases ==> q.leases[c].expiresAt <= now
  }

  /** The store after a legal trace from the empty one, which ended by `now`. */
  ghost predicate Reaches(past: seq<Stamped>, from: int, q: SqlRepo, now: int) {
    Fencing.LegalTrace(EMPTY, past, from) && Fencing.EndOf(past, from) <= now && q == Run(EMPTY, past).0
  }

  /** A resume of a running run with a current token. */
  predicate ResumesRunning(q: SqlRepo, id: Identity) {
    && id.runId in q.runs && MatchesIdentity(q.runs[id.runId], id)
    && q.runs[id.runId].status == Running
    && id.tokenVersion == q.runs[id.runId].tokenVersion
  }

  /**
   Takeover of a running run, whatever others do between preflight at t1 and acquire at t2: the resume passes both exactly
   when the expiry on the record, which every reached running record has, had passed at t1 and the conversation is free at t2.
   */
  lemma {:induction false} TakeoverExactly(past: seq<Stamped>, from: int, q: SqlRepo, between: seq<Stamped>, id: Identity,
                        owner: string, ttl: nat, t1: int, t2: int)
    requires Reaches(past, from, q, t1) && ResumesRunning(q, id)
    requires Chronological(between, t1) && Fencing.EndOf(between, t1) <= t2
    ensures q.runs[id.runId].leaseExpiresAt.Some?
    ensures var q2 := Run(q, between).0;
      (Preflight(true, id, q.runs[id.runId], false, false, t1) == Proceed && OnAcquire(q2, id, owner, ttl, t2).1.Granted?)
      <==> (q.runs[id.runId].leaseExpiresAt.value <= t1 && ConversationFree(q2, id.conversationId, t2))
  {
    Fencing.ReachedStore(past, from, t1);
    assert Fencing.RunningHasExpiry(q, id.runId);
    Fencing.TraceKeepsIdentity(q, between, id);
  }

  /** While some handle of a running run is valid, preflight admits nobody to it, resumed or not. */
  lemma {:induction false} NeverDoublyOwned(past: seq<Stamped>, from: int, q: SqlRepo, h: Lease, id: Identity, resumed: bool, now: int)
    requires Reaches(past, from, q, now) && Fencing.Live(q, h, now)
    requires h.runId == id.runId
    ensures id.runId in q.runs
    ensures q.runs[id.runId].status == Running ==> Preflight(resumed, id, q.runs[id.runId], false, false, now).Reject?
  {
    Fencing.ReachedStore(past, from, now);
    assert Fencing.RowOnRecord(q, h.conversationId, now);
  }

  /** The handle's holder gets nothing but stale replies along a trace. */
  ghost predicate StaleAlong(q: SqlRepo, h: Lease, trace: seq<Stamped>) {
    forall j :: 0 <= j < |trace| && Fencing.UsesHandle(trace[j].call, h) ==> Run(q, trace).1[j] == Failure(Stale)
  }

  /** Once the conversation is acquired again, every handle granted on it before is stale for ever. */
  lemma {:induction false} OvertakenForEver(past: seq<Stamped>, from: int, q: SqlRepo, i: nat, id: Identity, owner: string, ttl: nat, now: int,
                         later: seq<Stamped>)
    requires Reaches(past, from, q, now) && Chronological(later, now)
    requires i < |past| && Run(EMPTY, past).1[i].Granted? && Run(EMPTY, past).1[i].lease.conversationId == id.conversationId
    requires OnAcquire(q, id, owner, ttl, now).1.Granted?
    ensures var h, q' := Run(EMPTY, past).1[i].lease, OnAcquire(q, id, owner, ttl, now).0;
      && h.fencingToken < OnAcquire(q, id, owner, ttl, now).1.lease.fencingToken
      && StaleAlong(q', h, later)
  {
    var h, q' := Run(EMPTY, past).1[i].lease, OnAcquire(q, id, owner, ttl, now).0;
    Fencing.GrantsAreIssued(EMPTY, past, i, from);
    Fencing.IssuedIsStable(q, h, Acquire(id, owner, ttl), now);
    Fencing.StaleForever(q', h, later, now);
  }

  lemma {:induction false} LegalTracesJoin(q: SqlRepo, past: seq<Stamped>, between: seq<Stamped>, from: int)
    requires Fencing.LegalTrace(q, past, from) && Fencing.LegalTrace(Run(q, past).0, between, Fencing.EndOf(past, from))
    ensures Fencing.LegalTrace(q, past + between, from)
    ensures Fencing.EndOf(past + between, from) == Fencing.EndOf(between, Fencing.EndOf(past, from))
    decreases |past|
  {
    if past == [] {
      assert past + between == between;
    } else {
      var all, rest := past + between, past[1..];
      assert all[0] == past[0] && all[1..] == rest + between;
      assert forall k :: 0 <= k < |rest| ==> rest[k] == past[k + 1];
      LegalTracesJoin(Step(q, past[0].call, past[0].now).0, rest, between, past[0].now);
      assert forall k :: 0 < k < |all| ==> all[k] == (rest + between)[k - 1];
    }
  }

  /** At the instant of the acquire: the conversation being free, the resume gets a lease that is valid at once. */
  lemma {:induction false} FreeIsGranted(q: SqlRepo, id: Identity, owner: string, ttl: nat, now: int)
    requires id.runId in q.runs && ConversationFree(q, id.conversationId, now)
    ensures var (q', reply) := OnAcquire(q, id, owner, ttl, now);
      reply.Granted? && (ttl > 0 ==> Fencing.Live(q', reply.lease, now))
  {
  }

  /** Every handle of the conversation granted before or between is smaller than the new one and stale for ever. */
  lemma {:induction false} EarlierHandlesDie(past: seq<Stamped>, from: int, q: SqlRepo, between: seq<Stamped>, id: Identity, owner: string,
                          ttl: nat, i: nat, now: int, later: seq<Stamped>)
    requires Fencing.LegalTrace(EMPTY, past, from) && q == Run(EMPTY, past).0
    requires Fencing.LegalTrace(q, between, Fencing.EndOf(past, from)) && Fencing.EndOf(between, Fencing.EndOf(past, from)) <= now
    requires OnAcquire(Run(q, between).0, id, owner, ttl, now).1.Granted? && Chronological(later, now)
    requires i < |past + between| && Run(EMPTY, past + between).1[i].Granted?
    requires Run(EMPTY, past + between).1[i].lease.conversationId == id.conversationId
    ensures var h, (q', reply) := Run(EMPTY, past + between).1[i].lease, OnAcquire(Run(q, between).0, id, owner, ttl, now);
      h.fencingToken < reply.lease.fencingToken && StaleAlong(q', h, later)
  {
    LegalTracesJoin(EMPTY, past, between, from);
    Fencing.RunSplit(EMPTY, past, between);
    hide OnAcquire, Fencing.LegalTrace, Fencing.EndOf, Run;
    OvertakenForEver(past + between, from, Run(q, between).0, i, id, owner, ttl, now, later);
  }

  /**
   A run is never stuck: once the expiry on its record has passed at t1 and its conversation is free at t2, the holder of a
   current token takes it over, whatever others did in between, and every handle granted before is dead for good.
   */
  lemma {:induction false} NeverStuck(past: seq<Stamped>, from: int, q: SqlRepo, between: seq<Stamped>, id: Identity, owner: string, ttl: nat,
                   t1: int, t2: int, i: nat, later: seq<Stamped>)
    requires Reaches(past, from, q, t1) && ResumesRunning(q, id)
    requires Fencing.LegalTrace(q, between, Fencing.EndOf(past, from)) && Chronological(between, t1)
    requires Fencing.EndOf(between, Fencing.EndOf(past, from)) <= t2 && t1 <= t2
    requires q.runs[id.runId].leaseExpiresAt.Some? && q.runs[id.runId].leaseExpiresAt.value <= t1
    requires ConversationFree(Run(q, between).0, id.conversationId, t2) && Chronological(later, t2)
    ensures Preflight(true, id, q.runs[id.runId], false, false, t1) == Proceed
    ensures var (q', reply) := OnAcquire(Run(q, between).0, id, owner, ttl, t2);
      && reply.Granted? && (ttl > 0 ==> Fencing.Live(q', reply.lease, t2))
      && (i < |past + between| && Run(EMPTY, past + between).1[i].Granted?
          ==> var h := Run(EMPTY, past + between).1[i].lease;
              h.conversationId == id.conversationId ==> h.fencingToken < reply.lease.fencingToken && StaleAlong(q', h, later))
  {
    Fencing.TraceKeepsIdentity(q, between, id);
    FreeIsGranted(Run(q, between).0, id, owner, ttl, t2);
    hide OnAcquire, ConversationFree, Run, Chronological, Fencing.LegalTrace, Fencing.EndOf, StaleAlong;
    if i < |past + between| && Run(EMPTY, past + between).1[i].Granted?
       && Run(EMPTY, past + between).1[i].lease.conversationId == id.conversationId {
      EarlierHandlesDie(past, from, q, between, id, owner, ttl, i, t2, later);
    }
  }

  /** `acquire` never looks at the status: a finished run stays finished under it only while the conversation is leased. */
  lemma {:induction false} AcquireReopensExactly(q: SqlRepo, id: Identity, owner: string, ttl: nat, now: int)
    requires id.runId in q.runs && TerminalStatus(q.runs[id.runId].status)
    ensures TerminalStatus(OnAcquire(q, id, owner, ttl, now).0.runs[id.runId].status) <==> !ConversationFree(q, id.conversationId, now)
  {
  }

  /**
   So with two live processes a finished run is executed again: both pass preflight on the pending record, the first one
   acquires, persists its outcome and releases, and the second one acquires the finished run and sets it running.
   */
  lemma {:induction false} TwoProcessesReopen(q: SqlRepo, id: Identity, first: string, second: string, ttl: nat, o: Outcome, now: int)
    requires id.runId in q.runs && MatchesIdentity(q.runs[id.runId], id) && q.runs[id.runId].status == Pending
    requires ConversationFree(q, id.conversationId, now) && ttl > 1 && TerminalStatus(o.status)
    ensures Preflight(false, id, q.runs[id.runId], false, false, now) == Proceed
    ensures var (q1, granted) := OnAcquire(q, id, first, ttl, now);
      && granted.Granted?
      && var (q2, recorded) := OnMarkTerminal(q1, granted.lease, o, now + 1);
         && recorded.Recorded? && recorded.record.status == o.status
         && var (q3, again) := OnAcquire(OnRelease(q2, granted.lease, now + 1), id, second, ttl, now + 1);
            again.Granted? && q3.runs[id.runId].status == Running
  {
  }
}
