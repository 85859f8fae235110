/**
 Where outcome, history and replay stop agreeing: a cancellation that arrives after `mark_terminal`
 returned still writes an interruption over the persisted outcome.
 */
module LateCancellation {
  import opened Prelude
  import opened RunModel
  import opened PostgresRuns
  import opened RunPreflight
  import opened ChatRuntime
  import opened RuntimeAgreement

  // ---- Other requests do not see where a request is suspended ----

  /** The same system but for where request w is suspended. */
  predicate SameBut(a: System, b: System, w: nat) {
    && a.now == b.now && a.repo == b.repo && a.history == b.history && a.gate == b.gate && a.answers == b.answers
    && w in a.workers && w in b.workers
    && a.workers - {w} == b.workers - {w}
    && a.workers[w].(pc := b.workers[w].pc) == b.workers[w]
  }

  /** An event of the clock or of another request. */
  predicate Foreign(e: Event, w: nat) {
    e.Tick? || (!e.Crash? && e.w != w)
  }

  predicate AllForeign(events: seq<Event>, w: nat) {
    forall e :: e in events ==> Foreign(e, w)
  }

  lemma {:induction false} PutElsewhere(a: map<nat, Worker>, b: map<nat, Worker>, w: nat, v: nat, wk: Worker)
    requires a - {w} == b - {w} && v != w
    ensures a[v := wk] - {w} == b[v := wk] - {w}
  {
    assert a[v := wk] - {w} == (a - {w})[v := wk];
    assert b[v := wk] - {w} == (b - {w})[v := wk];
  }

  lemma {:induction false} AfterPut(a: System, b: System, w: nat, v: nat, wk: Worker)
    requires SameBut(a, b, w) && v != w
    ensures SameBut(Put(a, v, wk), Put(b, v, wk), w)
    ensures Put(a, v, wk).workers[w] == a.workers[w] && Put(b, v, wk).workers[w] == b.workers[w]
  {
    PutElsewhere(a.workers, b.workers, w, v, wk);
  }

  /** Two systems that agree on everything another request reads. */
  predicate SameFor(a: System, b: System, v: nat) {
    && a.now == b.now && a.repo == b.repo && a.history == b.history && a.gate == b.gate && a.answers == b.answers
    && (v in a.workers <==> v in b.workers)
    && (v in a.workers ==> a.workers[v] == b.workers[v])
  }

  /** The request's step is possible in both, and changes the same in both: nothing of the workers but itself. */
  predicate SameResult(a: System, b: System, e: Event)
    requires !e.Tick? && !e.Crash?
  {
    && Enabled(a, e) && Enabled(b, e)
    && var a', b' := Apply(a, e), Apply(b, e);
       && e.w in a'.workers && e.w in b'.workers
       && a'.workers == a.workers[e.w := a'.workers[e.w]] && b'.workers == b.workers[e.w := b'.workers[e.w]]
       && SameFor(a', b', e.w)
  }

  lemma {:induction false} SameEntry(a: System, b: System, e: Event)
    requires (e.Arrive? || e.Enter?) && SameFor(a, b, e.w) && Enabled(a, e)
    ensures SameResult(a, b, e)
  {
  }

  lemma {:induction false} SameResumedLookup(a: System, b: System, e: Event)
    requires e.Lookup? && SameFor(a, b, e.w) && Enabled(a, e) && a.workers[e.w].request.resumed
    ensures SameResult(a, b, e)
  {
  }

  lemma {:induction false} SameFirstLookup(a: System, b: System, e: Event)
    requires e.Lookup? && SameFor(a, b, e.w) && Enabled(a, e) && !a.workers[e.w].request.resumed
    ensures SameResult(a, b, e)
  {
  }

  lemma {:induction false} SameLookup(a: System, b: System, e: Event)
    requires e.Lookup? && SameFor(a, b, e.w) && Enabled(a, e)
    ensures SameResult(a, b, e)
  {
    hide SameResult, SameFor;
    if a.workers[e.w].request.resumed {
      SameResumedLookup(a, b, e);
    } else {
      SameFirstLookup(a, b, e);
    }
  }

  lemma {:induction false} SameMigration(a: System, b: System, e: Event)
    requires e.Migrate? && SameFor(a, b, e.w) && Enabled(a, e)
    ensures SameResult(a, b, e)
  {
  }

  lemma {:induction false} SameCheck(a: System, b: System, e: Event)
    requires e.Check? && SameFor(a, b, e.w) && Enabled(a, e)
    ensures SameResult(a, b, e)
  {
  }

  lemma {:induction false} SameReplay(a: System, b: System, e: Event)
    requires (e.ReplayAppend? || e.ReplayReconcile?) && SameFor(a, b, e.w) && Enabled(a, e)
    ensures SameResult(a, b, e)
  {
  }

  lemma {:induction false} SameLease(a: System, b: System, e: Event)
    requires (e.Inspect? || e.TakeLease?) && SameFor(a, b, e.w) && Enabled(a, e)
    ensures SameResult(a, b, e)
  {
  }

  lemma {:induction false} SameExecution(a: System, b: System, e: Event)
    requires (e.Heartbeat? || e.Finish?) && SameFor(a, b, e.w) && Enabled(a, e)
    ensures SameResult(a, b, e)
  {
  }

  lemma {:induction false} SameOutcome(a: System, b: System, e: Event)
    requires (e.Persist? || e.Append? || e.Commit?) && SameFor(a, b, e.w) && Enabled(a, e)
    ensures SameResult(a, b, e)
  {
  }

  lemma {:induction false} SameUnwinding(a: System, b: System, e: Event)
    requires (e.Fail? || e.Cancel?) && SameFor(a, b, e.w) && Enabled(a, e)
    ensures SameResult(a, b, e)
  {
  }

  lemma {:induction false} SameEnding(a: System, b: System, e: Event)
    requires (e.Interrupt? || e.Relinquish?) && SameFor(a, b, e.w) && Enabled(a, e)
    ensures SameResult(a, b, e)
  {
  }

  lemma {:induction false} SameStep(a: System, b: System, e: Event)
    requires !e.Tick? && !e.Crash? && SameFor(a, b, e.w) && Enabled(a, e)
    ensures SameResult(a, b, e)
  {
    hide SameResult, SameFor, Enabled;
    match e
    case Arrive(_, _) => SameEntry(a, b, e);
    case Enter(_) => SameEntry(a, b, e);
    case Lookup(_) => SameLookup(a, b, e);
    case Migrate(_, _) => SameMigration(a, b, e);
    case Check(_) => SameCheck(a, b, e);
    case ReplayAppend(_, _) => SameReplay(a, b, e);
    case ReplayReconcile(_) => SameReplay(a, b, e);
    case Inspect(_, _) => SameLease(a, b, e);
    case TakeLease(_, _, _) => SameLease(a, b, e);
    case Heartbeat(_, _) => SameExecution(a, b, e);
    case Finish(_, _) => SameExecution(a, b, e);
    case Persist(_) => SameOutcome(a, b, e);
    case Append(_, _) => SameOutcome(a, b, e);
    case Commit(_) => SameOutcome(a, b, e);
    case Fail(_) => SameUnwinding(a, b, e);
    case Cancel(_) => SameUnwinding(a, b, e);
    case Interrupt(_, _) => SameEnding(a, b, e);
    case Relinquish(_, _) => SameEnding(a, b, e);
  }

  lemma {:induction false} ForeignStep(a: System, b: System, e: Event, w: nat)
    requires SameBut(a, b, w) && Foreign(e, w) && Enabled(a, e)
    ensures Enabled(b, e) && SameBut(Apply(a, e), Apply(b, e), w) && (LateCancel(a, e) <==> LateCancel(b, e))
    ensures Apply(a, e).workers[w] == a.workers[w] && Apply(b, e).workers[w] == b.workers[w]
  {
    if !e.Tick? {
      SameElsewhere(a.workers, b.workers, w, e.w);
      SameStep(a, b, e);
      hide Apply, Enabled;
      AfterPut(a, b, w, e.w, Apply(a, e).workers[e.w]);
    }
  }

  lemma {:induction false} ForeignRun(a: System, b: System, events: seq<Event>, w: nat)
    requires SameBut(a, b, w) && AllForeign(events, w) && ValidRun(a, events) && NoLateCancel(a, events)
    ensures ValidRun(b, events) && NoLateCancel(b, events) && SameBut(After(a, events), After(b, events), w)
    ensures After(a, events).workers[w] == a.workers[w] && After(b, events).workers[w] == b.workers[w]
    decreases |events|
  {
    if events != [] {
      assert events[0] in events;
      ForeignStep(a, b, events[0], w);
      ForeignRun(Apply(a, events[0]), Apply(b, events[0]), events[1..], w);
    }
  }

  // ---- What the late handler destroys ----

  /** Request w is cancelled, `others` happens, and then the handler's write reaches the store. */
  ghost predicate CancelledLate(s: System, w: nat, others: seq<Event>) {
    && Enabled(s, Cancel(w)) && LateCancel(s, Cancel(w))
    && AllForeign(others, w)
    && ValidRun(Apply(s, Cancel(w)), others) && NoLateCancel(Apply(s, Cancel(w)), others)
  }

  /** As the handler writes, the run is as settled as if the request had not been cancelled. */
  lemma {:induction false} WhatTheHandlerFinds(s: System, w: nat, others: seq<Event>)
    requires Agreement(s) && CancelledLate(s, w, others)
    ensures var wk, t := s.workers[w], After(Apply(s, Cancel(w)), others);
      && wk.lease.Some? && Enabled(t, Interrupt(w, true))
      && t.workers[w] == wk.(pc := AtInterrupt)
      && RunOf(wk) in t.repo.runs && SqlTerminal(t.repo.runs[RunOf(wk)].status)
      && wk.lease.value.runId == RunOf(wk)
      && (wk.pc == AtCommit ==> InHistory(t.history, Conv(wk), RunOf(wk)))
  {
    var cancelled := Apply(s, Cancel(w));
    assert WorkerAtOk(s, w);
    assert cancelled.workers - {w} == s.workers - {w};
    ForeignRun(cancelled, s, others, w);
    RunKeepsAgreement(s, others);
    assert WorkerAtOk(After(s, others), w);
  }

  /** An interrupted record admits a resume under its current token. */
  lemma {:induction false} InterruptedAdmitsResume(id: Identity, record: RunRecord, now: int)
    requires record.status == Interrupted && record.payload.None?
    ensures Preflight(true, id.(tokenVersion := record.tokenVersion), record, false, false, now) == Proceed
  {
  }

  /** A turn in the history of a run that is no longer settled breaks the agreement. */
  lemma {:induction false} UnsettledTurnDisagrees(s: System, c: string, r: string)
    requires InHistory(s.history, c, r) && r in s.repo.runs && !SqlTerminal(s.repo.runs[r].status)
    ensures !Agreement(s)
  {
    var i :| 0 <= i < |s.history| && s.history[i].conversationId == c && s.history[i].runId == r;
    assert !TurnOk(s, i);
  }

  /**
   A cancellation after the outcome was persisted destroys it exactly when the lease is still valid as the handler writes,
   whatever other requests do in between. The run can then be executed again under its token, and if the turn had been
   appended, the history no longer agrees with the record.
   */
  lemma {:induction false} LateCancelDestroysOutcomeExactly(s: System, w: nat, others: seq<Event>)
    requires Agreement(s) && CancelledLate(s, w, others)
    ensures var wk, t := s.workers[w], After(Apply(s, Cancel(w)), others);
      && wk.lease.Some? && Enabled(t, Interrupt(w, true))
      && var s', held := Apply(t, Interrupt(w, true)), OutcomeMatches(t.repo, wk.lease.value, t.now);
         && RunOf(wk) in s'.repo.runs
         && var record := s'.repo.runs[RunOf(wk)];
            && (SqlTerminal(record.status) <==> !held)
            && (held ==>
                  && Preflight(true, wk.request.identity.(tokenVersion := record.tokenVersion), record, false, false, t.now) == Proceed
                  && (wk.pc == AtCommit ==> !Agreement(s')))
  {
    WhatTheHandlerFinds(s, w, others);
    var wk, t := s.workers[w], After(Apply(s, Cancel(w)), others);
    var s' := Apply(t, Interrupt(w, true));
    if OutcomeMatches(t.repo, wk.lease.value, t.now) {
      InterruptedAdmitsResume(wk.request.identity, s'.repo.runs[RunOf(wk)], t.now);
      if wk.pc == AtCommit {
        UnsettledTurnDisagrees(s', Conv(wk), RunOf(wk));
      }
    }
  }

  // ---- That situation arises in every ordinary first request ----

  /** A first request, the lease it takes and what its graph produces. */
  datatype First = First(identity: Identity, message: string, owner: string, ttl: nat, execution: Execution)

  predicate Ordinary(f: First) {
    WellFormedIdentity(f.identity) && f.ttl > 0 && "response" in f.execution.payload
  }

  /** Its events up to the point where its turn is appended. */
  function FirstRun(f: First): seq<Event> {
    [Arrive(0, Request(f.identity, false, false, f.message)), Enter(0), Lookup(0)]
    + [Check(0), Inspect(0, Absent), TakeLease(0, f.owner, f.ttl)]
    + [Finish(0, f.execution), Persist(0), Append(0, true)]
  }

  /** `from` reaches `to` by these events, none of them a late cancellation. */
  ghost predicate Leads(from: System, events: seq<Event>, to: System) {
    ValidRun(from, events) && NoLateCancel(from, events) && After(from, events) == to
  }

  lemma {:induction false} LeadsInThree(a: System, e1: Event, b: System, e2: Event, c: System, e3: Event, d: System)
    requires Enabled(a, e1) && !LateCancel(a, e1) && Apply(a, e1) == b
    requires Enabled(b, e2) && !LateCancel(b, e2) && Apply(b, e2) == c
    requires Enabled(c, e3) && !LateCancel(c, e3) && Apply(c, e3) == d
    ensures Leads(a, [e1, e2, e3], d)
  {
    var t := [e1, e2, e3];
    assert t[1..] == [e2, e3] && [e2, e3][1..] == [e3] && [e3][1..] == [];
    assert Leads(c, [e3], d) by { assert Leads(d, [], d); }
    assert Leads(b, [e2, e3], d);
  }

  /** The system with this one request. */
  function Alone(f: First, now: int, record: RunRecord, leases: map<string, LeaseRow>, history: seq<Turn>, wk: Worker): System {
    var id := f.identity;
    System(now, SqlRepo(map[id.runId := record], leases), history, map[id.conversationId := id.runId], map[0 := wk], [])
  }

  function RequestOf(f: First): Request {
    Request(f.identity, false, false, f.message)
  }

  function Created(f: First, now: int): System {
    var pending := FreshRecord(f.identity, now);
    Alone(f, now, pending, map[], [], Worker(AtPreflight, RequestOf(f), Some(pending), true, false, None, None, None))
  }

  function Leased(f: First, now: int, record: RunRecord, history: seq<Turn>, pc: Pc, execution: Option<Execution>): System {
    var id := f.identity;
    var lease := Lease(id.conversationId, id.runId, f.owner, 1, now + f.ttl);
    Alone(f, now, record, map[id.conversationId := LeaseRow(id.runId, f.owner, 1, now + f.ttl)], history,
          Worker(pc, RequestOf(f), Some(FreshRecord(id, now)), true, false, Some(lease), execution, None))
  }

  function RunningOf(f: First, now: int): RunRecord {
    FreshRecord(f.identity, now).(status := Running, leaseOwner := Some(f.owner), fencingToken := Some(1),
                                  leaseExpiresAt := Some(now + f.ttl), startedAt := Some(now), updatedAt := now)
  }

  function SettledOf(f: First, now: int): RunRecord {
    OutcomeRecord(RunningOf(f, now), OutcomeOf(f.execution), now)
  }

  function TurnShown(f: First): Turn {
    Turn(f.identity.conversationId, f.identity.runId, f.message, TextOf(f.execution.payload))
  }

  /** The request with its turn appended, about to commit. */
  function Committing(f: First, now: int): System {
    Leased(f, now, SettledOf(f, now), [TurnShown(f)], AtCommit, Some(f.execution))
  }

  lemma {:induction false} FirstIsCreated(f: First, now: int)
    requires Ordinary(f)
    ensures Leads(Init(now), [Arrive(0, RequestOf(f)), Enter(0), Lookup(0)], Created(f, now))
  {
    var s1 := Apply(Init(now), Arrive(0, RequestOf(f)));
    var s2 := Apply(s1, Enter(0));
    LeadsInThree(Init(now), Arrive(0, RequestOf(f)), s1, Enter(0), s2, Lookup(0), Created(f, now));
  }

  function Checked(f: First, now: int, pc: Pc): System {
    var pending := FreshRecord(f.identity, now);
    Alone(f, now, pending, map[], [], Worker(pc, RequestOf(f), Some(pending), true, false, None, None, None))
  }

  lemma {:induction false} FirstIsChecked(f: First, now: int)
    requires Ordinary(f)
    ensures Enabled(Created(f, now), Check(0)) && Apply(Created(f, now), Check(0)) == Checked(f, now, AtCheckpoint)
  {
    var s := Created(f, now);
    assert Goto(s, 0, AtCheckpoint).workers == Checked(f, now, AtCheckpoint).workers;
  }

  lemma {:induction false} FirstIsInspected(f: First, now: int)
    requires Ordinary(f)
    ensures var s := Checked(f, now, AtCheckpoint);
      Enabled(s, Inspect(0, Absent)) && Apply(s, Inspect(0, Absent)) == Checked(f, now, AtAcquire)
  {
    var s := Checked(f, now, AtCheckpoint);
    assert Goto(s, 0, AtAcquire).workers == Checked(f, now, AtAcquire).workers;
  }

  lemma {:induction false} FirstIsLeased(f: First, now: int)
    requires Ordinary(f)
    ensures var s := Checked(f, now, AtAcquire);
      Enabled(s, TakeLease(0, f.owner, f.ttl))
      && Apply(s, TakeLease(0, f.owner, f.ttl)) == Leased(f, now, RunningOf(f, now), [], Executing, None)
  {
  }

  lemma {:induction false} FirstExecutes(f: First, now: int)
    requires Ordinary(f)
    ensures Leads(Created(f, now), [Check(0), Inspect(0, Absent), TakeLease(0, f.owner, f.ttl)],
                  Leased(f, now, RunningOf(f, now), [], Executing, None))
  {
    FirstIsChecked(f, now);
    FirstIsInspected(f, now);
    FirstIsLeased(f, now);
    hide Leased, Created, Checked, Apply, Enabled;
    LeadsInThree(Created(f, now), Check(0), Checked(f, now, AtCheckpoint), Inspect(0, Absent), Checked(f, now, AtAcquire),
                 TakeLease(0, f.owner, f.ttl), Leased(f, now, RunningOf(f, now), [], Executing, None));
  }

  lemma {:induction false} FirstFinishes(f: First, now: int)
    requires Ordinary(f)
    ensures var s := Leased(f, now, RunningOf(f, now), [], Executing, None);
      Enabled(s, Finish(0, f.execution))
      && Apply(s, Finish(0, f.execution)) == Leased(f, now, RunningOf(f, now), [], AtMark, Some(f.execution))
  {
  }

  lemma {:induction false} FirstPersists(f: First, now: int)
    requires Ordinary(f)
    ensures var s := Leased(f, now, RunningOf(f, now), [], AtMark, Some(f.execution));
      Enabled(s, Persist(0)) && Apply(s, Persist(0)) == Leased(f, now, SettledOf(f, now), [], AtAppend, Some(f.execution))
  {
    var s := Leased(f, now, RunningOf(f, now), [], AtMark, Some(f.execution));
    assert OutcomeMatches(s.repo, s.workers[0].lease.value, now);
  }

  lemma {:induction false} FirstAppends(f: First, now: int)
    requires Ordinary(f)
    ensures var s := Leased(f, now, SettledOf(f, now), [], AtAppend, Some(f.execution));
      Enabled(s, Append(0, true)) && Apply(s, Append(0, true)) == Committing(f, now)
  {
  }

  lemma {:induction false} FirstCommits(f: First, now: int)
    requires Ordinary(f)
    ensures Leads(Leased(f, now, RunningOf(f, now), [], Executing, None),
                  [Finish(0, f.execution), Persist(0), Append(0, true)], Committing(f, now))
  {
    FirstFinishes(f, now);
    FirstPersists(f, now);
    FirstAppends(f, now);
    hide Leased, Committing, Apply, Enabled;
    LeadsInThree(Leased(f, now, RunningOf(f, now), [], Executing, None), Finish(0, f.execution),
                 Leased(f, now, RunningOf(f, now), [], AtMark, Some(f.execution)), Persist(0),
                 Leased(f, now, SettledOf(f, now), [], AtAppend, Some(f.execution)), Append(0, true), Committing(f, now));
  }

  lemma {:induction false} LeadsOn(a: System, first: seq<Event>, b: System, second: seq<Event>, c: System)
    requires Leads(a, first, b) && Leads(b, second, c)
    ensures Leads(a, first + second, c)
    decreases |first|
  {
    if first == [] {
      assert first + second == second;
    } else {
      LeadsOn(Apply(a, first[0]), first[1..], b, second, c);
      assert (first + second)[1..] == first[1..] + second;
    }
  }

  /** Every ordinary first request gets, one step before its commit, to where a cancellation destroys its outcome. */
  lemma {:induction false} LateCancelIsReachable(f: First, now: int)
    requires Ordinary(f)
    ensures Leads(Init(now), FirstRun(f), Committing(f, now))
    ensures var s := Committing(f, now);
      && CancelledLate(s, 0, [])
      && OutcomeMatches(s.repo, s.workers[0].lease.value, s.now)
  {
    FirstIsCreated(f, now);
    FirstExecutes(f, now);
    FirstCommits(f, now);
    var one, two := [Arrive(0, RequestOf(f)), Enter(0), Lookup(0)], [Check(0), Inspect(0, Absent), TakeLease(0, f.owner, f.ttl)];
    var three := [Finish(0, f.execution), Persist(0), Append(0, true)];
    LeadsOn(Init(now), one, Created(f, now), two, Leased(f, now, RunningOf(f, now), [], Executing, None));
    LeadsOn(Init(now), one + two, Leased(f, now, RunningOf(f, now), [], Executing, None), three, Committing(f, now));
  }
}
