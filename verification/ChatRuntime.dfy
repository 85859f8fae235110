/**
 The chat runtime as a transition system: any number of concurrent requests in one live process,
 a clock, crashes and restarts, over the SQL run repository and an idempotent history store.
 */
module ChatRuntime {
  import opened Prelude
  import opened RunModel
  import opened PostgresRuns
  import opened RunPreflight

  datatype Request = Request(identity: Identity, resumed: bool, clientSupplied: bool, message: string)

  /** What the graph produced: `_RunExecution`. */
  datatype Execution = Execution(failed: bool, payload: Payload, reason: Option<string>, error: Option<string>)

  datatype Checkpoint = Exists | Absent | LookupFailed

  /** Where a request is suspended inside `_ainvoke_with_identity`. */
  datatype Pc =
    | AtGate | AtLookup | AtMigrate | AtPreflight | AtReplayAppend | AtReplayReconcile | AtCheckpoint
    | AtAcquire | Executing | AtMark | AtAppend | AtCommit | AtInterrupt | AtRelease | Done

  datatype Worker = Worker(
    pc: Pc,
    request: Request,
    record: Option<RunRecord>,
    created: bool,
    migrated: bool,
    lease: Option<Lease>,
    execution: Option<Execution>,
    response: Option<Payload>)

  datatype Turn = Turn(conversationId: string, runId: string, user: string, assistant: string)

  /** A response handed back to a client. */
  datatype Answer = Answer(runId: string, text: string)

  datatype System = System(
    now: int,
    repo: SqlRepo,
    history: seq<Turn>,
    gate: map<string, string>,
    workers: map<nat, Worker>,
    answers: seq<Answer>)

  datatype Event =
    | Tick(later: int)
    | Crash
    | Arrive(w: nat, request: Request)
    | Enter(w: nat)
    | Lookup(w: nat)
    | Migrate(w: nat, checkpoint: Checkpoint)
    | Check(w: nat)
    | ReplayAppend(w: nat, stored: bool)
    | ReplayReconcile(w: nat)
    | Inspect(w: nat, checkpoint: Checkpoint)
    | TakeLease(w: nat, owner: string, ttl: nat)
    | Heartbeat(w: nat, ttl: nat)
    | Finish(w: nat, execution: Execution)
    | Persist(w: nat)
    | Append(w: nat, stored: bool)
    | Commit(w: nat)
    | Fail(w: nat)
    | Cancel(w: nat)
    | Interrupt(w: nat, written: bool)
    | Relinquish(w: nat, written: bool)

  /** The assistant text inside a stored response. */
  function TextOf(p: Payload): string {
    if "response" in p then p["response"] else ""
  }

  function Stored(record: RunRecord): string {
    if record.payload.Some? then TextOf(record.payload.value) else ""
  }

  /** `metadata.persistence.history_persisted` is set on the response; its text stays. */
  function WithPersistence(p: Payload, persisted: bool): Payload {
    p["history_persisted" := if persisted then "true" else "false"]
  }

  predicate InHistory(history: seq<Turn>, c: string, r: string) {
    exists i :: 0 <= i < |history| && history[i].conversationId == c && history[i].runId == r
  }

  /** `append_turn`: one turn per run and conversation. */
  function AppendTurn(history: seq<Turn>, t: Turn): seq<Turn> {
    if InHistory(history, t.conversationId, t.runId) then history else history + [t]
  }

  function Init(now: int): System {
    System(now, EMPTY, [], map[], map[], [])
  }

  predicate Inside(wk: Worker) {
    wk.pc != AtGate && wk.pc != Done
  }

  function Conv(wk: Worker): string { wk.request.identity.conversationId }

  function RunOf(wk: Worker): string { wk.request.identity.runId }

  function Put(s: System, w: nat, wk: Worker): System {
    s.(workers := s.workers[w := wk])
  }

  function Goto(s: System, w: nat, pc: Pc): System
    requires w in s.workers
  {
    Put(s, w, s.workers[w].(pc := pc))
  }

  /** The `finally` of the gate: the conversation is freed only by the run that holds it. */
  function FreeGate(gate: map<string, string>, wk: Worker): map<string, string> {
    if Conv(wk) in gate && gate[Conv(wk)] == RunOf(wk) then gate - {Conv(wk)} else gate
  }

  /** The request ends without a response. */
  function Leave(s: System, w: nat): System
    requires w in s.workers
  {
    Goto(s, w, Done).(gate := FreeGate(s.gate, s.workers[w]))
  }

  /** The request ends and its response reaches the client. */
  function Return(s: System, w: nat, p: Payload): System
    requires w in s.workers
  {
    Leave(s, w).(answers := s.answers + [Answer(RunOf(s.workers[w]), TextOf(p))])
  }

  function OnEnter(s: System, w: nat): System
    requires w in s.workers
  {
    var wk := s.workers[w];
    if Conv(wk) in s.gate then Goto(s, w, Done)
    else Goto(s, w, AtLookup).(gate := s.gate[Conv(wk) := RunOf(wk)])
  }

  function WithRecord(s: System, w: nat, record: RunRecord, created: bool, migrated: bool): System
    requires w in s.workers
  {
    Put(s, w, s.workers[w].(pc := AtPreflight, record := Some(record), created := created, migrated := migrated))
  }

  function OnLookup(s: System, w: nat): System
    requires w in s.workers
  {
    var id := s.workers[w].request.identity;
    if s.workers[w].request.resumed then
      if id.runId !in s.repo.runs then Goto(s, w, AtMigrate)
      else if !MatchesIdentity(s.repo.runs[id.runId], id) then Leave(s, w)
      else WithRecord(s, w, s.repo.runs[id.runId], false, false)
    else
      var (repo, reply) := OnCreateOrGet(s.repo, id, s.now);
      if reply.Created? then WithRecord(s.(repo := repo), w, reply.record, reply.created, false) else Leave(s, w)
  }

  function OnMigrate(s: System, w: nat, checkpoint: Checkpoint): System
    requires w in s.workers
  {
    if checkpoint != Exists then Leave(s, w)
    else
      var (repo, reply) := OnCreateOrGet(s.repo, s.workers[w].request.identity, s.now);
      if reply.Created? then WithRecord(s.(repo := repo), w, reply.record, reply.created, true) else Leave(s, w)
  }

  function OnCheck(s: System, w: nat): System
    requires w in s.workers && s.workers[w].record.Some?
  {
    var wk := s.workers[w];
    var record := wk.record.value;
    match Preflight(wk.request.resumed, wk.request.identity, record, wk.created, wk.migrated, s.now)
    case Reject(_) => Leave(s, w)
    case Proceed => Goto(s, w, AtCheckpoint)
    case Replay(p) =>
      if record.historyCommittedAt.Some? then Return(s, w, p)
      else Put(s, w, wk.(pc := AtReplayAppend, response := Some(p)))
  }

  function TurnOf(wk: Worker, p: Payload): Turn {
    Turn(Conv(wk), RunOf(wk), wk.request.message, TextOf(p))
  }

  function OnReplayAppend(s: System, w: nat, stored: bool): System
    requires w in s.workers && s.workers[w].response.Some?
  {
    var wk := s.workers[w];
    var p := WithPersistence(wk.response.value, stored);
    if !stored then Return(s, w, p)
    else
      Put(s.(history := AppendTurn(s.history, TurnOf(wk, p))), w,
          wk.(pc := AtReplayReconcile, response := Some(p)))
  }

  function OnReplayReconcile(s: System, w: nat): System
    requires w in s.workers && s.workers[w].response.Some?
  {
    var p := s.workers[w].response.value;
    var (repo, reply) := OnReconcile(s.repo, RunOf(s.workers[w]), Some(p), s.now);
    if reply.Recorded? then Return(s.(repo := repo), w, p) else Leave(s, w)
  }

  function OnInspect(s: System, w: nat, checkpoint: Checkpoint): System
    requires w in s.workers
  {
    var wk := s.workers[w];
    var required := wk.request.resumed || (wk.request.clientSupplied && !wk.created);
    if wk.migrated then Goto(s, w, AtAcquire)
    else if checkpoint == LookupFailed && required then Leave(s, w)
    else if wk.request.resumed && checkpoint != Exists then Leave(s, w)
    else if !wk.request.resumed && wk.request.clientSupplied && wk.created && checkpoint == Exists then Leave(s, w)
    else Goto(s, w, AtAcquire)
  }

  function OnTakeLease(s: System, w: nat, owner: string, ttl: nat): System
    requires w in s.workers
  {
    var (repo, reply) := OnAcquire(s.repo, s.workers[w].request.identity, owner, ttl, s.now);
    if reply.Granted? then Put(s.(repo := repo), w, s.workers[w].(pc := Executing, lease := Some(reply.lease)))
    else Leave(s, w)
  }

  function OnHeartbeat(s: System, w: nat, ttl: nat): System
    requires w in s.workers && s.workers[w].lease.Some?
  {
    var (repo, reply) := OnRenew(s.repo, s.workers[w].lease.value, ttl, s.now);
    if reply.Granted? then s.(repo := repo) else Goto(s, w, AtRelease)
  }

  function OutcomeOf(e: Execution): Outcome {
    Outcome(if e.failed then Failed else Completed, Some(e.payload), e.reason, e.error, None)
  }

  function OnPersist(s: System, w: nat): System
    requires w in s.workers && s.workers[w].lease.Some? && s.workers[w].execution.Some?
  {
    var wk := s.workers[w];
    var (repo, reply) := OnMarkTerminal(s.repo, wk.lease.value, OutcomeOf(wk.execution.value), s.now);
    if reply.Recorded? then Goto(s.(repo := repo), w, AtAppend) else Goto(s, w, AtRelease)
  }

  function OnAppend(s: System, w: nat, stored: bool): System
    requires w in s.workers && s.workers[w].execution.Some?
  {
    var wk := s.workers[w];
    var p := WithPersistence(wk.execution.value.payload, stored);
    if !stored then Put(s, w, wk.(pc := AtRelease, response := Some(p)))
    else Put(s.(history := AppendTurn(s.history, TurnOf(wk, p))), w, wk.(pc := AtCommit))
  }

  function OnCommit(s: System, w: nat): System
    requires w in s.workers && s.workers[w].lease.Some? && s.workers[w].execution.Some?
  {
    var wk := s.workers[w];
    var p := WithPersistence(wk.execution.value.payload, true);
    var (repo, reply) := OnMarkHistory(s.repo, wk.lease.value, Some(p), s.now);
    if reply.Recorded? then Put(s.(repo := repo), w, wk.(pc := AtRelease, response := Some(p)))
    else Goto(s, w, AtRelease)
  }

  const INTERRUPTED := Outcome(Interrupted, None, Some("interrupted"), Some("interrupted"), None)

  function OnInterrupt(s: System, w: nat, written: bool): System
    requires w in s.workers && s.workers[w].lease.Some?
  {
    var repo := if written then OnMarkTerminal(s.repo, s.workers[w].lease.value, INTERRUPTED, s.now).0 else s.repo;
    Goto(s.(repo := repo), w, AtRelease)
  }

  function OnRelinquish(s: System, w: nat, written: bool): System
    requires w in s.workers && s.workers[w].lease.Some?
  {
    if !written then Leave(s, w)
    else
      var s1 := s.(repo := OnRelease(s.repo, s.workers[w].lease.value, s.now));
      if s.workers[w].response.Some? then Return(s1, w, s.workers[w].response.value) else Leave(s1, w)
  }

  /** Suspension points inside the `try` block that follows a successful acquire. */
  predicate InTry(pc: Pc) {
    pc == Executing || pc == AtMark || pc == AtAppend || pc == AtCommit
  }

  /** `except Exception`: the interruption is written only while no outcome was persisted. */
  function OnFail(s: System, w: nat): System
    requires w in s.workers
  {
    var pc := s.workers[w].pc;
    if pc == Executing || pc == AtMark then Goto(s, w, AtInterrupt)
    else if pc == AtCommit then Goto(s, w, AtRelease)
    else Leave(s, w)
  }

  /** `except CancelledError`: the interruption is written whether or not an outcome was persisted. */
  function OnCancel(s: System, w: nat): System
    requires w in s.workers
  {
    if InTry(s.workers[w].pc) then Goto(s, w, AtInterrupt) else Leave(s, w)
  }

  predicate Interruptible(wk: Worker) {
    Inside(wk) && wk.pc != AtInterrupt && wk.pc != AtRelease
  }

  predicate HasWorker(s: System, w: nat, pc: Pc) {
    w in s.workers && s.workers[w].pc == pc
  }

  /** The event can happen now; the extra conjuncts say which locals are bound at the suspension point. */
  predicate Enabled(s: System, e: Event) {
    match e
    case Tick(later) => s.now <= later
    case Crash => true
    case Arrive(w, _) => w !in s.workers
    case Enter(w) => HasWorker(s, w, AtGate)
    case Lookup(w) => HasWorker(s, w, AtLookup)
    case Migrate(w, _) => HasWorker(s, w, AtMigrate)
    case Check(w) => HasWorker(s, w, AtPreflight) && s.workers[w].record.Some?
    case ReplayAppend(w, _) => HasWorker(s, w, AtReplayAppend) && s.workers[w].response.Some?
    case ReplayReconcile(w) => HasWorker(s, w, AtReplayReconcile) && s.workers[w].response.Some?
    case Inspect(w, _) => HasWorker(s, w, AtCheckpoint)
    case TakeLease(w, _, _) => HasWorker(s, w, AtAcquire)
    case Heartbeat(w, _) => HasWorker(s, w, Executing) && s.workers[w].lease.Some?
    case Finish(w, x) => HasWorker(s, w, Executing) && "response" in x.payload
    case Persist(w) => HasWorker(s, w, AtMark) && s.workers[w].lease.Some? && s.workers[w].execution.Some?
    case Append(w, _) => HasWorker(s, w, AtAppend) && s.workers[w].execution.Some?
    case Commit(w) => HasWorker(s, w, AtCommit) && s.workers[w].lease.Some? && s.workers[w].execution.Some?
    case Fail(w) => w in s.workers && Interruptible(s.workers[w]) && s.workers[w].pc != AtAppend
    case Cancel(w) => w in s.workers && Interruptible(s.workers[w])
    case Interrupt(w, _) => HasWorker(s, w, AtInterrupt) && s.workers[w].lease.Some?
    case Relinquish(w, _) => HasWorker(s, w, AtRelease) && s.workers[w].lease.Some?
  }

  function Apply(s: System, e: Event): System
    requires Enabled(s, e)
  {
    match e
    case Tick(later) => s.(now := later)
    case Crash => s.(workers := map[], gate := map[])
    case Arrive(w, request) => Put(s, w, Worker(AtGate, request, None, false, false, None, None, None))
    case Enter(w) => OnEnter(s, w)
    case Lookup(w) => OnLookup(s, w)
    case Migrate(w, checkpoint) => OnMigrate(s, w, checkpoint)
    case Check(w) => OnCheck(s, w)
    case ReplayAppend(w, stored) => OnReplayAppend(s, w, stored)
    case ReplayReconcile(w) => OnReplayReconcile(s, w)
    case Inspect(w, checkpoint) => OnInspect(s, w, checkpoint)
    case TakeLease(w, owner, ttl) => OnTakeLease(s, w, owner, ttl)
    case Heartbeat(w, ttl) => OnHeartbeat(s, w, ttl)
    case Finish(w, x) => Put(s, w, s.workers[w].(pc := AtMark, execution := Some(x)))
    case Persist(w) => OnPersist(s, w)
    case Append(w, stored) => OnAppend(s, w, stored)
    case Commit(w) => OnCommit(s, w)
    case Fail(w) => OnFail(s, w)
    case Cancel(w) => OnCancel(s, w)
    case Interrupt(w, written) => OnInterrupt(s, w, written)
    case Relinquish(w, written) => OnRelinquish(s, w, written)
  }

  /** A cancellation delivered after `mark_terminal` returned. */
  predicate LateCancel(s: System, e: Event) {
    e.Cancel? && e.w in s.workers && (s.workers[e.w].pc == AtAppend || s.workers[e.w].pc == AtCommit)
  }

  /** A run of the system: every event enabled when it happens. */
  ghost predicate ValidRun(s: System, events: seq<Event>)
    decreases |events|
  {
    events == [] || (Enabled(s, events[0]) && ValidRun(Apply(s, events[0]), events[1..]))
  }

  ghost predicate NoLateCancel(s: System, events: seq<Event>)
    requires ValidRun(s, events)
    decreases |events|
  {
    events == [] || (!LateCancel(s, events[0]) && NoLateCancel(Apply(s, events[0]), events[1..]))
  }

  ghost function After(s: System, events: seq<Event>): System
    requires ValidRun(s, events)
    decreases |events|
  {
    if events == [] then s else After(Apply(s, events[0]), events[1..])
  }
}
