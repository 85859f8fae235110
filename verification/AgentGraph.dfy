/**
 The agent graph: eleven nodes over one state, their routing functions and their edge maps.
 What models, tools, routers and the clock answer is an arbitrary value of its type.
 */
module AgentGraph {
  import opened Prelude
  import opened ClaimGrounding

  datatype Config = Config(
    ollama: bool,
    mcpEnabled: bool,
    maxVerifierRounds: nat,
    maxResearchRounds: nat,
    maxReplans: nat,
    maxFinalRounds: nat,
    finalVerification: bool)

  datatype Task = Task(id: string, objective: string)

  datatype WorkerResult = WorkerResult(answer: string, claims: seq<Claim>)

  datatype Verdict = Pass | ReviseIt | ResearchIt | ReplanIt | TerminateIt

  datatype Report = Report(verdict: Verdict, taskComplete: bool, issues: seq<string>, requiredActions: seq<string>)

  /** A final report; `about` is instrumentation: the candidate answer that was shown to the verifier. */
  datatype FinalReport = FinalReport(pass: bool, answerComplete: bool, about: string)

  datatype TaskResult = TaskResult(
    task: Task,
    worker: WorkerResult,
    report: Report,
    grounding: seq<Grounding>,
    evidence: seq<EvidenceItem>)

  datatype Action = NoAction | ResearchAction | WorkerAction

  /** The graph state; `retrieved` is instrumentation: every record a tool returned during this run. */
  datatype GState = GState(
    runId: string,
    message: string,
    plan: seq<Task>,
    taskIndex: nat,
    results: seq<TaskResult>,
    worker: Option<WorkerResult>,
    report: Option<Report>,
    grounding: seq<Grounding>,
    evidence: seq<EvidenceItem>,
    researched: set<string>,
    researchRounds: nat,
    replans: nat,
    nextAction: Action,
    response: string,
    reason: Option<string>,
    finalRequired: bool,
    finalReport: Option<FinalReport>,
    finalRounds: nat,
    verifierRounds: nat,
    retrieved: seq<EvidenceItem>)

  /** How one model operation ended. */
  datatype ModelOutcome<T> = Produced(value: T) | Malformed | OverBudget(why: string) | Broke

  /** How one tool attempt of the research loop ended. */
  datatype Attempt =
    | Denied
    | Stopped(why: string)
    | Threw
    | Answered(ok: bool, uri: string, contentHash: string, freshness: Freshness)

  /** Everything the outside world may answer to one node; each node reads only its own part. */
  datatype Answers = Answers(
    budgetStop: Option<string>,
    plan: ModelOutcome<seq<Task>>,
    worker: ModelOutcome<WorkerResult>,
    report: ModelOutcome<Report>,
    finalReport: ModelOutcome<(bool, bool)>,
    text: ModelOutcome<string>,
    userEvidence: seq<EvidenceItem>,
    answerIssues: seq<string>,
    needsEvidence: bool,
    attempts: seq<seq<Attempt>>,
    partial: string)

  /** What the schemas enforce: plans are not empty, and a passing final report is complete. */
  predicate WellTyped(a: Answers) {
    && (a.plan.Produced? ==> a.plan.value != [])
    && (a.finalReport.Produced? && a.finalReport.value.0 ==> a.finalReport.value.1)
  }

  /** A node returns the next state, raises out of the graph, or reads state that is not there. */
  datatype NodeResult = Next(state: GState) | Raised | Corrupt

  predicate HasTask(s: GState) {
    s.taskIndex < |s.plan|
  }

  function CurrentTask(s: GState): Task
    requires HasTask(s)
  {
    s.plan[s.taskIndex]
  }

  /** The task id under which verification looks for evidence. */
  function VerifyKey(task: Task): string {
    if task.id == "" then "task" else task.id
  }

  /** The task id under which research files evidence. */
  function ResearchKey(task: Task, index: nat): string {
    if task.id == "" then "task-" + Decimal(index) else task.id
  }

  function SetNextAction(s: GState, needsEvidence: bool): NodeResult {
    if !HasTask(s) then Corrupt
    else Next(s.(nextAction := if needsEvidence && CurrentTask(s).id !in s.researched then ResearchAction else WorkerAction))
  }

  /** Caller-supplied records keep no trust label of their own. */
  function Distrust(items: seq<EvidenceItem>, runId: string): seq<EvidenceItem> {
    seq(|items|, i requires 0 <= i < |items| =>
      items[i].(runId := runId, taskId := "request", eligible := false, toolStatus := NotApplicable, freshness := UnknownFreshness))
  }

  function Plan(cfg: Config, s: GState, a: Answers): NodeResult {
    if a.budgetStop.Some? then Next(s.(reason := a.budgetStop))
    else if cfg.ollama && a.plan.Malformed? then Next(s.(reason := Some("plan could not produce valid structured output")))
    else if cfg.ollama && !a.plan.Produced? then Raised
    else
      SetNextAction(
        s.(plan := if cfg.ollama then a.plan.value else [Task("t1", s.message)],
           taskIndex := 0, results := [], worker := None, report := None,
           evidence := Distrust(a.userEvidence, s.runId), researchRounds := 0, replans := 0,
           reason := None, response := "", researched := {}),
        a.needsEvidence)
  }

  function Worker(cfg: Config, s: GState, a: Answers): NodeResult {
    if a.budgetStop.Some? then Next(s.(reason := a.budgetStop))
    else if !HasTask(s) then Corrupt
    else if !cfg.ollama then Next(s.(worker := Some(WorkerResult("Echo mode is active.\n\nMessage received: " + s.message, []))))
    else match a.worker
      case Malformed => Next(s.(reason := Some("worker could not produce valid structured output")))
      case OverBudget(_) => Raised
      case Broke => Raised
      case Produced(result) => Next(s.(worker := Some(result)))
  }

  function StopReport(why: string): Report {
    Report(TerminateIt, false, [why], [])
  }

  ghost predicate Ungrounded(grounding: seq<Grounding>) {
    exists i :: 0 <= i < |grounding| && grounding[i].status != Supported
  }

  /** A pass over ungrounded claims is turned into a revision. */
  ghost function Downgrade(report: Report, grounding: seq<Grounding>): Report {
    if Ungrounded(grounding) && report.verdict == Pass
    then report.(verdict := ReviseIt, taskComplete := false, issues := report.issues + ["claim_grounding"])
    else report
  }

  ghost function Verify(cfg: Config, s0: GState, a: Answers): NodeResult {
    var s := s0.(verifierRounds := s0.verifierRounds + 1);
    if a.budgetStop.Some? then Next(s.(reason := a.budgetStop, report := Some(StopReport(a.budgetStop.value))))
    else if s.verifierRounds > cfg.maxVerifierRounds then
      Next(s.(reason := Some("maximum verifier rounds exceeded"), report := Some(StopReport("maximum verifier rounds exceeded"))))
    else if s.worker.None? || !HasTask(s) then Corrupt
    else
      var grounding := GroundAll(s.worker.value.claims, s.evidence, s.runId, VerifyKey(CurrentTask(s)));
      if !cfg.ollama then
        var clean := a.answerIssues == [] && !Ungrounded(grounding);
        var report := Report(if clean then Pass else ReviseIt, clean, a.answerIssues, []);
        Next(s.(report := Some(Downgrade(report, grounding)), grounding := grounding))
      else match a.report
        case Produced(report) => Next(s.(report := Some(Downgrade(report, grounding)), grounding := grounding))
        case OverBudget(why) => Next(s.(reason := Some(why), report := Some(StopReport(why))))
        case Malformed => Raised
        case Broke => Raised
  }

  function Revise(cfg: Config, s: GState, a: Answers): NodeResult {
    if a.budgetStop.Some? then Next(s.(reason := a.budgetStop))
    else if !HasTask(s) || s.worker.None? || s.report.None? then Corrupt
    else if !cfg.ollama then Next(s)
    else if a.worker.Produced? then Next(s.(worker := Some(a.worker.value)))
    else Raised
  }

  // ---- Research ----

  /** The record built from one tool result. */
  function ToolRecord(s: GState, query: nat, attempt: Attempt): EvidenceItem
    requires HasTask(s) && attempt.Answered?
  {
    var key := ResearchKey(CurrentTask(s), s.taskIndex);
    EvidenceItem("research-" + key + "-" + Decimal(s.researchRounds) + "-" + Decimal(query), s.runId, key,
                 attempt.uri, attempt.contentHash, attempt.ok,
                 if attempt.ok then Success else Failed,
                 if attempt.ok then attempt.freshness else UnknownFreshness)
  }

  datatype QueryResult = Hit(item: EvidenceItem) | Miss | Halt(why: string) | Escape

  /** The candidates of one query are tried in order until one answers, the budget ends or another exception escapes. */
  function TryCandidates(s: GState, query: nat, attempts: seq<Attempt>): QueryResult
    requires HasTask(s)
  {
    if attempts == [] then Miss
    else match attempts[0]
      case Stopped(why) => Halt(why)
      case Threw => Escape
      case Denied => TryCandidates(s, query, attempts[1..])
      case Answered(ok, _, _, _) =>
        if ok then Hit(ToolRecord(s, query, attempts[0])) else TryCandidates(s, query, attempts[1..])
  }

  datatype Findings = Findings(items: seq<EvidenceItem>) | HaltedBy(why: string) | Escaped

  function Prepend(items: seq<EvidenceItem>, found: Findings): Findings {
    if found.Findings? then Findings(items + found.items) else found
  }

  /** All queries, numbered from `query`; a halt or an exception anywhere discards what was found. */
  function RunQueries(s: GState, query: nat, queries: seq<seq<Attempt>>): Findings
    requires HasTask(s)
    decreases |queries|
  {
    if queries == [] then Findings([])
    else match TryCandidates(s, query, queries[0])
      case Halt(why) => HaltedBy(why)
      case Escape => Escaped
      case Miss => RunQueries(s, query + 1, queries[1..])
      case Hit(item) =>
        Prepend([item], RunQueries(s, query + 1, queries[1..]))
  }

  /** The same (canonical URI, content hash) as an item already kept. */
  predicate SeenIn(kept: seq<EvidenceItem>, uri: string, contentHash: string) {
    exists k :: 0 <= k < |kept| && kept[k].uri == uri && kept[k].contentHash == contentHash
  }

  lemma {:induction false} SeenAfterKeeping(kept: seq<EvidenceItem>, e: EvidenceItem, uri: string, contentHash: string)
    ensures SeenIn(kept + [e], uri, contentHash)
            <==> SeenIn(kept, uri, contentHash) || (e.uri == uri && e.contentHash == contentHash)
  {
    assert (kept + [e])[|kept|] == e;
    if SeenIn(kept, uri, contentHash) {
      var k :| 0 <= k < |kept| && kept[k].uri == uri && kept[k].contentHash == contentHash;
      assert (kept + [e])[k] == kept[k];
    }
  }

  /** `deduplicate_evidence`: the first record of each content survives. */
  function Dedupe(kept: seq<EvidenceItem>, items: seq<EvidenceItem>): seq<EvidenceItem>
    decreases |items|
  {
    if items == [] then kept
    else Dedupe(if SeenIn(kept, items[0].uri, items[0].contentHash) then kept else kept + [items[0]], items[1..])
  }

  /** What `_research` makes of its findings; a halt returns the state as it came in. */
  function UseFindings(s0: GState, s: GState, found: Findings): NodeResult
    requires HasTask(s)
  {
    match found
    case HaltedBy(why) => Next(s0.(reason := Some(why)))
    case Escaped => Raised
    case Findings(items) =>
      if items == [] then
        Next(s.(reason := Some("all compatible read-only MCP research attempts failed; no current evidence was retrieved")))
      else
        Next(s.(evidence := Dedupe([], s.evidence + items),
                researched := s.researched + {ResearchKey(CurrentTask(s), s.taskIndex)},
                nextAction := WorkerAction,
                retrieved := s.retrieved + items))
  }

  function Research(cfg: Config, s0: GState, a: Answers): NodeResult {
    var s := s0.(researchRounds := s0.researchRounds + 1);
    if !cfg.mcpEnabled then Next(s.(reason := Some("external evidence is required but MCP is disabled")))
    else if s.researchRounds > cfg.maxResearchRounds then Next(s0.(reason := Some("maximum research rounds exceeded")))
    else if !HasTask(s) then Corrupt
    else UseFindings(s0, s, RunQueries(s, 1, a.attempts))
  }

  lemma {:induction false} PrependTwice(items: seq<EvidenceItem>, item: EvidenceItem, found: Findings)
    ensures Prepend(items, Prepend([item], found)) == Prepend(items + [item], found)
  {
    if found.Findings? {
      assert items + ([item] + found.items) == items + [item] + found.items;
    }
  }

  /** The loops of `_research` over queries and candidate tools. */
  method GatherEvidence(s: GState, queries: seq<seq<Attempt>>) returns (found: Findings)
    requires HasTask(s)
    ensures found == RunQueries(s, 1, queries)
  {
    var items: seq<EvidenceItem> := [];
    assert queries[0..] == queries;
    for q := 0 to |queries|
      invariant RunQueries(s, 1, queries) == Prepend(items, RunQueries(s, q + 1, queries[q..]))
    {
      assert queries[q..][0] == queries[q] && queries[q..][1..] == queries[q + 1..];
      var candidates := queries[q];
      ghost var before := items;
      var c, hit := 0, false;
      while c < |candidates| && !hit
        invariant 0 <= c <= |candidates|
        invariant if hit then exists item :: items == before + [item] && TryCandidates(s, q + 1, candidates) == Hit(item)
                  else items == before && TryCandidates(s, q + 1, candidates) == TryCandidates(s, q + 1, candidates[c..])
      {
        assert candidates[c..][0] == candidates[c] && candidates[c..][1..] == candidates[c + 1..];
        if candidates[c].Stopped? {
          return HaltedBy(candidates[c].why);
        }
        if candidates[c].Threw? {
          return Escaped;
        }
        if candidates[c].Answered? && candidates[c].ok {
          items := items + [ToolRecord(s, q + 1, candidates[c])];
          hit := true;
        }
        c := c + 1;
      }
      if hit {
        PrependTwice(before, items[|items| - 1], RunQueries(s, q + 2, queries[q + 1..]));
      }
    }
    return Findings(items);
  }

  method DeduplicateEvidence(items: seq<EvidenceItem>) returns (output: seq<EvidenceItem>)
    ensures output == Dedupe([], items)
  {
    output := [];
    var seen: set<(string, string)> := {};
    for i := 0 to |items|
      invariant forall u, h :: (u, h) in seen <==> SeenIn(output, u, h)
      invariant Dedupe([], items) == Dedupe(output, items[i..])
    {
      assert items[i..][0] == items[i] && items[i..][1..] == items[i + 1..];
      var key := (items[i].uri, items[i].contentHash);
      if key !in seen {
        forall u, h {
          SeenAfterKeeping(output, items[i], u, h);
        }
        seen := seen + {key};
        output := output + [items[i]];
      }
    }
  }

  // ---- The remaining nodes ----

  function Replan(cfg: Config, s0: GState, a: Answers): NodeResult {
    var s := s0.(replans := s0.replans + 1);
    if s.replans > cfg.maxReplans then Next(s.(reason := Some("maximum replans exceeded")))
    else if cfg.ollama && !a.plan.Produced? then Raised
    else if !cfg.ollama && s.plan == [] then Raised
    else
      SetNextAction(
        s.(plan := if cfg.ollama then a.plan.value else s.plan,
           taskIndex := 0, results := [], worker := None, report := None, evidence := [],
           researchRounds := 0, researched := {}),
        a.needsEvidence)
  }

  function Advance(s0: GState, a: Answers): NodeResult {
    if !HasTask(s0) || s0.worker.None? || s0.report.None? then Corrupt
    else
      var result := TaskResult(CurrentTask(s0), s0.worker.value, s0.report.value, s0.grounding, s0.evidence);
      var s := s0.(results := s0.results + [result], taskIndex := s0.taskIndex + 1, report := None, worker := None,
                   grounding := [], evidence := [], researchRounds := 0, nextAction := WorkerAction);
      if s.taskIndex < |s.plan| then SetNextAction(s, a.needsEvidence) else Next(s)
  }

  function Terminate(s: GState, a: Answers): NodeResult {
    Next(s.(response := a.partial))
  }

  function Finalize(cfg: Config, s: GState, a: Answers): NodeResult {
    if s.reason.Some? then Terminate(s, a)
    else if cfg.ollama && |s.results| > 1 then
      if !a.text.Produced? then Terminate(s.(reason := Some("final synthesis failed")), a)
      else Next(s.(response := a.text.value, finalRequired := cfg.finalVerification, finalReport := None, finalRounds := 0))
    else
      var answer := if s.results != [] then s.results[|s.results| - 1].worker.answer
                    else if s.worker.Some? then s.worker.value.answer else "";
      Next(s.(response := answer, finalRequired := false, finalReport := None, finalRounds := 0))
  }

  function VerifyFinal(cfg: Config, s: GState, a: Answers): NodeResult {
    if a.budgetStop.Some? then Next(s.(reason := a.budgetStop))
    else match a.finalReport
      case Malformed => Next(s.(reason := Some("final verification could not produce valid structured output")))
      case OverBudget(_) => Raised
      case Broke => Raised
      case Produced(verdict) =>
        var report := FinalReport(verdict.0, verdict.1, s.response);
        Next(s.(finalReport := Some(report),
                reason := if !report.pass && s.finalRounds >= cfg.maxFinalRounds
                          then Some("final answer could not be independently verified") else s.reason))
  }

  function ReviseFinal(s: GState, a: Answers): NodeResult {
    if a.budgetStop.Some? then Next(s.(reason := a.budgetStop))
    else if !a.text.Produced? then Next(s.(reason := Some("final answer revision failed"), finalRounds := s.finalRounds + 1))
    else Next(s.(response := a.text.value, finalRounds := s.finalRounds + 1, finalReport := None))
  }

  // ---- Routing ----

  datatype Node =
    | NPlan | NResearch | NWorker | NVerify | NRevise | NReplan | NAdvance | NFinalize | NVerifyFinal | NReviseFinal
    | NTerminate

  datatype Label =
    | LResearch | LWorker | LTerminate | LContinue | LAdvance | LRevise | LReplan | LFinalize | LComplete | LVerifyFinal
    | LReviseFinal | LEnd

  function AfterBudgetedStep(s: GState): Label {
    if s.reason.Some? then LTerminate else LContinue
  }

  function AfterPlan(s: GState): Label {
    if s.reason.Some? then LTerminate else if s.nextAction.ResearchAction? then LResearch else LWorker
  }

  function AfterVerification(s: GState): Label {
    if s.reason.Some? || s.report.None? then LTerminate
    else match s.report.value.verdict
      case Pass => if s.report.value.taskComplete then LAdvance else LRevise
      case ReviseIt => LRevise
      case ResearchIt => LResearch
      case ReplanIt => LReplan
      case TerminateIt => LTerminate
  }

  function AfterAdvance(s: GState): Label {
    if s.reason.Some? then LTerminate
    else if s.taskIndex >= |s.plan| then LFinalize
    else if s.nextAction.ResearchAction? then LResearch else LWorker
  }

  function AfterFinalize(s: GState): Label {
    if s.reason.Some? then LTerminate else if s.finalRequired then LVerifyFinal else LComplete
  }

  function AfterFinalVerification(cfg: Config, s: GState): Label {
    if s.reason.Some? then LTerminate
    else if s.finalReport.Some? && s.finalReport.value.pass && s.finalReport.value.answerComplete then LComplete
    else if s.finalRounds < cfg.maxFinalRounds then LReviseFinal
    else LTerminate
  }

  datatype Target = To(node: Node) | End(complete: bool)

  /** The edge maps of `_build_graph`; none when a label has no edge. */
  function Edge(node: Node, choice: Label): Option<Target> {
    match (node, choice)
    case (NPlan, LResearch) => Some(To(NResearch))
    case (NPlan, LWorker) => Some(To(NWorker))
    case (NPlan, LTerminate) => Some(To(NTerminate))
    case (NResearch, LContinue) => Some(To(NWorker))
    case (NResearch, LTerminate) => Some(To(NTerminate))
    case (NWorker, LContinue) => Some(To(NVerify))
    case (NWorker, LTerminate) => Some(To(NTerminate))
    case (NRevise, LContinue) => Some(To(NVerify))
    case (NRevise, LTerminate) => Some(To(NTerminate))
    case (NReplan, LContinue) => Some(To(NWorker))
    case (NReplan, LTerminate) => Some(To(NTerminate))
    case (NVerify, LAdvance) => Some(To(NAdvance))
    case (NVerify, LRevise) => Some(To(NRevise))
    case (NVerify, LResearch) => Some(To(NResearch))
    case (NVerify, LReplan) => Some(To(NReplan))
    case (NVerify, LTerminate) => Some(To(NTerminate))
    case (NAdvance, LResearch) => Some(To(NResearch))
    case (NAdvance, LWorker) => Some(To(NWorker))
    case (NAdvance, LFinalize) => Some(To(NFinalize))
    case (NFinalize, LComplete) => Some(End(true))
    case (NFinalize, LVerifyFinal) => Some(To(NVerifyFinal))
    case (NFinalize, LTerminate) => Some(To(NTerminate))
    case (NVerifyFinal, LComplete) => Some(End(true))
    case (NVerifyFinal, LReviseFinal) => Some(To(NReviseFinal))
    case (NVerifyFinal, LTerminate) => Some(To(NTerminate))
    case (NReviseFinal, LEnd) => Some(To(NVerifyFinal))
    case (NTerminate, LEnd) => Some(End(false))
    case _ => None
  }

  function LabelAfter(cfg: Config, node: Node, s: GState): Label {
    match node
    case NPlan => AfterPlan(s)
    case NVerify => AfterVerification(s)
    case NAdvance => AfterAdvance(s)
    case NFinalize => AfterFinalize(s)
    case NVerifyFinal => AfterFinalVerification(cfg, s)
    case NReviseFinal => LEnd
    case NTerminate => LEnd
    case _ => AfterBudgetedStep(s)
  }

  ghost function RunNode(cfg: Config, node: Node, s: GState, a: Answers): NodeResult {
    match node
    case NPlan => Plan(cfg, s, a)
    case NResearch => Research(cfg, s, a)
    case NWorker => Worker(cfg, s, a)
    case NVerify => Verify(cfg, s, a)
    case NRevise => Revise(cfg, s, a)
    case NReplan => Replan(cfg, s, a)
    case NAdvance => Advance(s, a)
    case NFinalize => Finalize(cfg, s, a)
    case NVerifyFinal => VerifyFinal(cfg, s, a)
    case NReviseFinal => ReviseFinal(s, a)
    case NTerminate => Terminate(s, a)
  }

  /** A run is about to execute a node, has reached END, was left by an exception, or hit missing state or a missing edge. */
  datatype Machine = About(node: Node, state: GState) | Finished(complete: bool, state: GState) | Aborted | Stuck

  ghost function StepMachine(cfg: Config, m: Machine, a: Answers): Machine
    requires m.About?
  {
    match RunNode(cfg, m.node, m.state, a)
    case Raised => Aborted
    case Corrupt => Stuck
    case Next(s) =>
      match Edge(m.node, LabelAfter(cfg, m.node, s))
      case None => Stuck
      case Some(To(node)) => About(node, s)
      case Some(End(complete)) => Finished(complete, s)
  }

  /** `build_fresh_run_state`. */
  function FreshState(runId: string, message: string): GState {
    GState(runId, message, [], 0, [], None, None, [], [], {}, 0, 0, NoAction, "", None, false, None, 0, 0, [])
  }

  function Start(runId: string, message: string): Machine {
    About(NPlan, FreshState(runId, message))
  }

  /** Execute one node per element of `answers`, as long as there is a node to execute. */
  ghost function Execute(cfg: Config, m: Machine, answers: seq<Answers>): Machine
    decreases |answers|
  {
    if answers == [] || !m.About? then m else Execute(cfg, StepMachine(cfg, m, answers[0]), answers[1..])
  }

  predicate AllWellTyped(answers: seq<Answers>) {
    forall a :: a in answers ==> WellTyped(a)
  }

  /**
   Research and verification key evidence alike exactly for tasks that have an id; EvidenceFiling shows what
   that means for the claims of the others.
   */
  lemma {:induction false} KeysAgreeExactly(task: Task, index: nat)
    ensures ResearchKey(task, index) == VerifyKey(task) <==> task.id != ""
  {
    if task.id == "" {
      assert |ResearchKey(task, index)| > 4 && |VerifyKey(task)| == 4;
    }
  }
}
