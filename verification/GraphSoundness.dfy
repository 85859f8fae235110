/**
 Completion soundness and routing safety of the agent graph, for every run and every answer of
 models, tools and routers.
 */
module GraphSoundness {
  import opened Prelude
  import opened ClaimGrounding
  import opened AgentGraph

  /** Every claim is backed by fresh eligible evidence of this run and task that a tool returned in this run. */
  ghost predicate ClaimsBacked(r: TaskResult, runId: string, retrieved: seq<EvidenceItem>) {
    forall claim :: claim in r.worker.claims ==>
      && FullyBacked(claim, r.evidence, runId, VerifyKey(r.task))
      && forall id :: id in claim.evidenceIds ==> Lookup(r.evidence, id).Some? && Lookup(r.evidence, id).value in retrieved
  }

  /** A finished task: passed, complete, and grounded as recorded. */
  ghost predicate ResultSound(r: TaskResult, runId: string, retrieved: seq<EvidenceItem>) {
    && r.report.verdict == Pass && r.report.taskComplete
    && r.grounding == GroundAll(r.worker.claims, r.evidence, runId, VerifyKey(r.task))
    && (forall i :: 0 <= i < |r.grounding| ==> r.grounding[i].status == Supported)
    && ClaimsBacked(r, runId, retrieved)
  }

  ghost predicate ResultAt(s: GState, i: nat) {
    i < |s.results| ==> i < |s.plan| && s.results[i].task == s.plan[i] && ResultSound(s.results[i], s.runId, s.retrieved)
  }

  ghost predicate ResultsSound(s: GState) {
    forall i: nat :: ResultAt(s, i)
  }

  /** Eligible evidence in the state was returned by a tool during this run. */
  predicate Provenance(s: GState) {
    forall e :: e in s.evidence && e.eligible ==> e in s.retrieved
  }

  predicate ResultsInStep(s: GState) {
    |s.results| == s.taskIndex
  }

  /** The verification in the state is a pass over claims that are all grounded. */
  ghost predicate PassedAndGrounded(s: GState) {
    && HasTask(s) && s.worker.Some? && s.report.Some?
    && s.report.value.verdict == Pass && s.report.value.taskComplete
    && s.grounding == GroundAll(s.worker.value.claims, s.evidence, s.runId, VerifyKey(CurrentTask(s)))
    && !Ungrounded(s.grounding)
  }

  /** What holds when a node is about to run. */
  ghost predicate NodeInvariant(cfg: Config, node: Node, s: GState) {
    match node
    case NPlan => s.reason.None? && s.taskIndex == 0
    case NResearch => s.reason.None? && HasTask(s)
    case NWorker => s.reason.None? && HasTask(s)
    case NVerify => s.reason.None? && HasTask(s) && s.worker.Some?
    case NRevise => s.reason.None? && HasTask(s) && s.worker.Some? && s.report.Some?
    case NReplan => s.reason.None? && s.plan != []
    case NAdvance => s.reason.None? && PassedAndGrounded(s)
    case NFinalize => s.reason.None? && s.taskIndex == |s.plan| && s.plan != []
    case NVerifyFinal => s.taskIndex == |s.plan| && s.plan != [] && s.finalRequired
    case NReviseFinal => s.reason.None? && s.taskIndex == |s.plan| && s.plan != [] && s.finalRequired && s.finalRounds < cfg.maxFinalRounds
    case NTerminate => s.reason.Some? || (s.report.Some? && s.report.value.verdict == TerminateIt)
  }

  ghost predicate Invariant(cfg: Config, node: Node, s: GState) {
    && ResultsInStep(s)
    && ResultsSound(s)
    && Provenance(s)
    && NodeInvariant(cfg, node, s)
  }

  /** A run that ended by a `complete` edge. */
  ghost predicate SoundlyComplete(s: GState) {
    && s.reason.None?
    && s.plan != []
    && |s.results| == |s.plan|
    && (forall i :: 0 <= i < |s.plan| ==>
          s.results[i].task == s.plan[i] && ResultSound(s.results[i], s.runId, s.retrieved))
    && (s.finalRequired ==>
          s.finalReport.Some? && s.finalReport.value.pass && s.finalReport.value.answerComplete
          && s.finalReport.value.about == s.response)
  }

  /** Never stuck, invariant kept, and completion sound. */
  ghost predicate GoodMachine(cfg: Config, m: Machine) {
    match m
    case About(node, s) => Invariant(cfg, node, s)
    case Finished(complete, s) => complete ==> SoundlyComplete(s)
    case Aborted => true
    case Stuck => false
  }

  lemma {:induction false} DedupeKeepsOnlyItems(kept: seq<EvidenceItem>, items: seq<EvidenceItem>, e: EvidenceItem)
    requires e in Dedupe(kept, items)
    ensures e in kept || e in items
    decreases |items|
  {
    if items != [] {
      var kept' := if SeenIn(kept, items[0].uri, items[0].contentHash) then kept else kept + [items[0]];
      DedupeKeepsOnlyItems(kept', items[1..], e);
    }
  }

  /** Deduplication keeps every content: only later copies go. */
  lemma {:induction false} DedupeKeepsContents(kept: seq<EvidenceItem>, items: seq<EvidenceItem>, uri: string, contentHash: string)
    ensures SeenIn(Dedupe(kept, items), uri, contentHash) <==> SeenIn(kept, uri, contentHash) || SeenIn(items, uri, contentHash)
    decreases |items|
  {
    if items != [] {
      var kept' := if SeenIn(kept, items[0].uri, items[0].contentHash) then kept else kept + [items[0]];
      SeenAfterKeeping(kept, items[0], uri, contentHash);
      DedupeKeepsContents(kept', items[1..], uri, contentHash);
      SeenInCons(items, uri, contentHash);
    }
  }

  lemma {:induction false} SeenInCons(items: seq<EvidenceItem>, uri: string, contentHash: string)
    requires items != []
    ensures SeenIn(items, uri, contentHash)
            <==> SeenIn(items[1..], uri, contentHash) || (items[0].uri == uri && items[0].contentHash == contentHash)
  {
    if SeenIn(items[1..], uri, contentHash) {
      var k :| 0 <= k < |items[1..]| && items[1..][k].uri == uri && items[1..][k].contentHash == contentHash;
      assert items[k + 1] == items[1..][k];
    }
    if SeenIn(items, uri, contentHash) {
      var k :| 0 <= k < |items| && items[k].uri == uri && items[k].contentHash == contentHash;
      assert k > 0 ==> items[1..][k - 1] == items[k];
    }
  }

  /** Growing the set of retrieved records keeps earlier results sound. */
  lemma {:induction false} MoreRetrieved(r: TaskResult, runId: string, before: seq<EvidenceItem>, after: seq<EvidenceItem>)
    requires ResultSound(r, runId, before) && forall e :: e in before ==> e in after
    ensures ResultSound(r, runId, after)
  {
  }

  /** A pass that survived the grounding check is a sound result. */
  lemma {:induction false} PassIsSound(s: GState)
    requires Provenance(s) && PassedAndGrounded(s)
    ensures ResultSound(TaskResult(CurrentTask(s), s.worker.value, s.report.value, s.grounding, s.evidence), s.runId, s.retrieved)
  {
    var claims, key := s.worker.value.claims, VerifyKey(CurrentTask(s));
    var r := TaskResult(CurrentTask(s), s.worker.value, s.report.value, s.grounding, s.evidence);
    forall claim | claim in claims
      ensures FullyBacked(claim, s.evidence, s.runId, key)
      ensures forall id :: id in claim.evidenceIds ==> Lookup(s.evidence, id).Some? && Lookup(s.evidence, id).value in s.retrieved
    {
      var i :| 0 <= i < |claims| && claims[i] == claim;
      assert s.grounding[i].status == Supported;
      StatusMeaning(claim, i + 1, s.evidence, s.runId, key);
    }
    assert ClaimsBacked(r, s.runId, s.retrieved);
  }

  // ---- One lemma per node ----

  ghost predicate Keeps(cfg: Config, node: Node, s: GState, a: Answers) {
    GoodMachine(cfg, StepMachine(cfg, About(node, s), a))
  }

  /** What a node leaves alone of the plan, the results and the retrieved records stays sound. */
  lemma {:induction false} ResultsCarry(s: GState, s': GState)
    requires ResultsSound(s) && s'.runId == s.runId && s'.retrieved == s.retrieved
    requires s'.results == [] || (s'.plan == s.plan && s'.results == s.results)
    ensures ResultsSound(s')
  {
    forall i: nat ensures ResultAt(s', i) {
      assert ResultAt(s, i);
    }
  }

  /** Planning starts over with no results and no trusted evidence, or gives up with a reason. */
  lemma {:induction false} PlannedState(cfg: Config, s: GState, a: Answers)
    requires WellTyped(a) && s.reason.None? && s.taskIndex == 0 && s.results == []
    ensures var r := Plan(cfg, s, a);
      && !r.Corrupt?
      && (r.Next? ==>
            && r.state.runId == s.runId && r.state.retrieved == s.retrieved
            && r.state.taskIndex == 0 && r.state.results == []
            && (if r.state.reason.Some? then r.state.evidence == s.evidence
                else HasTask(r.state) && r.state.evidence == Distrust(a.userEvidence, s.runId)))
  {
  }

  lemma {:induction false} PlanKeeps(cfg: Config, s: GState, a: Answers)
    requires Invariant(cfg, NPlan, s) && WellTyped(a)
    ensures Keeps(cfg, NPlan, s, a)
  {
    PlannedState(cfg, s, a);
    hide Plan, ResultsSound;
    var r := Plan(cfg, s, a);
    if r.Next? {
      ResultsCarry(s, r.state);
    }
  }

  /** The worker changes only its result, or gives up with a reason. */
  lemma {:induction false} WorkedState(cfg: Config, s: GState, a: Answers)
    requires s.reason.None? && HasTask(s)
    ensures var r := Worker(cfg, s, a);
      && !r.Corrupt?
      && (r.Next? ==>
            && r.state == s.(worker := r.state.worker, reason := r.state.reason)
            && (r.state.reason.None? ==> r.state.worker.Some?))
  {
  }

  lemma {:induction false} WorkerKeeps(cfg: Config, s: GState, a: Answers)
    requires Invariant(cfg, NWorker, s)
    ensures Keeps(cfg, NWorker, s, a)
  {
    WorkedState(cfg, s, a);
    hide Worker;
    var r := Worker(cfg, s, a);
    if r.Next? {
      ResultsCarry(s, r.state);
    }
  }

  /** A surviving pass is grounded: the downgrade removed every other one. */
  lemma {:induction false} VerifiedState(cfg: Config, s: GState, a: Answers)
    requires s.reason.None? && HasTask(s) && s.worker.Some?
    ensures var r := Verify(cfg, s, a);
      && !r.Corrupt?
      && (r.Next? ==>
            && r.state == s.(verifierRounds := s.verifierRounds + 1, reason := r.state.reason, report := r.state.report, grounding := r.state.grounding)
            && r.state.report.Some?
            && (r.state.reason.None? && r.state.report.value.verdict == Pass ==>
                  !Ungrounded(r.state.grounding)
                  && r.state.grounding == GroundAll(s.worker.value.claims, s.evidence, s.runId, VerifyKey(CurrentTask(s)))))
  {
  }

  lemma {:induction false} VerifyKeeps(cfg: Config, s: GState, a: Answers)
    requires Invariant(cfg, NVerify, s)
    ensures Keeps(cfg, NVerify, s, a)
  {
    VerifiedState(cfg, s, a);
    var r := Verify(cfg, s, a);
    if r.Next? {
      ResultsCarry(s, r.state);
      assert Provenance(r.state) && ResultsInStep(r.state);
      AfterVerifiedState(cfg, s, a);
    }
  }

  lemma {:induction false} AfterVerifiedState(cfg: Config, s: GState, a: Answers)
    requires Invariant(cfg, NVerify, s) && Verify(cfg, s, a).Next?
    ensures var s' := Verify(cfg, s, a).state;
            var target := Edge(NVerify, AfterVerification(s'));
            target.Some? && target.value.To? && NodeInvariant(cfg, target.value.node, s')
  {
    VerifiedState(cfg, s, a);
  }

  lemma {:induction false} ReviseKeeps(cfg: Config, s: GState, a: Answers)
    requires Invariant(cfg, NRevise, s)
    ensures Keeps(cfg, NRevise, s, a)
  {
    var r := Revise(cfg, s, a);
    if r.Next? {
      ResultsCarry(s, r.state);
    }
  }

  lemma {:induction false} MergedProvenance(s: GState, s': GState, items: seq<EvidenceItem>)
    requires Provenance(s) && s'.evidence == Dedupe([], s.evidence + items) && s'.retrieved == s.retrieved + items
    ensures Provenance(s')
  {
    forall e | e in s'.evidence && e.eligible ensures e in s'.retrieved {
      DedupeKeepsOnlyItems([], s.evidence + items, e);
    }
  }

  /** Research adds to the evidence only what tools returned. */
  lemma {:induction false} FindingsKeep(cfg: Config, s0: GState, s: GState, found: Findings)
    requires Invariant(cfg, NResearch, s0) && s == s0.(researchRounds := s.researchRounds)
    requires !found.Escaped?
    ensures var s' := UseFindings(s0, s, found).state;
            Invariant(cfg, if s'.reason.Some? then NTerminate else NWorker, s')
  {
    var s' := UseFindings(s0, s, found).state;
    if found.Findings? && found.items != [] {
      MergedProvenance(s0, s', found.items);
      ResultsSurviveRetrieval(s0, s');
    } else {
      ResultsCarry(s0, s');
    }
  }

  /** Research either gives up with a reason and everything else as it was, or uses what its queries found. */
  lemma {:induction false} ResearchedState(cfg: Config, s: GState, a: Answers)
    requires HasTask(s)
    ensures var r := Research(cfg, s, a);
      var counted := s.(researchRounds := s.researchRounds + 1);
      || (r.Next? && r.state.reason.Some? && r.state == s.(researchRounds := r.state.researchRounds, reason := r.state.reason))
      || r == UseFindings(s, counted, RunQueries(counted, 1, a.attempts))
  {
    hide UseFindings, RunQueries;
  }

  lemma {:induction false} GivenUpKeeps(cfg: Config, s: GState, s': GState)
    requires Invariant(cfg, NResearch, s) && s'.reason.Some?
    requires s' == s.(researchRounds := s'.researchRounds, reason := s'.reason)
    ensures Invariant(cfg, NTerminate, s')
  {
    ResultsCarry(s, s');
  }

  lemma {:induction false} AfterResearch(cfg: Config, s: GState, a: Answers)
    requires Research(cfg, s, a).Next?
    requires var s' := Research(cfg, s, a).state; Invariant(cfg, if s'.reason.Some? then NTerminate else NWorker, s')
    ensures Keeps(cfg, NResearch, s, a)
  {
    hide Research, Invariant;
  }

  lemma {:induction false} ResearchKeeps(cfg: Config, s: GState, a: Answers)
    requires Invariant(cfg, NResearch, s)
    ensures Keeps(cfg, NResearch, s, a)
  {
    ResearchedState(cfg, s, a);
    var counted, r := s.(researchRounds := s.researchRounds + 1), Research(cfg, s, a);
    var found := RunQueries(counted, 1, a.attempts);
    hide Research, RunQueries;
    if r.Next? {
      hide Keeps;
      if r == UseFindings(s, counted, found) {
        FindingsKeep(cfg, s, counted, found);
      } else {
        GivenUpKeeps(cfg, s, r.state);
      }
      AfterResearch(cfg, s, a);
    }
  }

  lemma {:induction false} ResultsSurviveRetrieval(s: GState, s': GState)
    requires s'.plan == s.plan && s'.results == s.results && s'.runId == s.runId
    requires (forall e :: e in s.retrieved ==> e in s'.retrieved) && ResultsSound(s)
    ensures ResultsSound(s')
  {
    forall i: nat ensures ResultAt(s', i) {
      assert ResultAt(s, i);
      if i < |s.results| {
        MoreRetrieved(s.results[i], s.runId, s.retrieved, s'.retrieved);
      }
    }
  }

  lemma {:induction false} ReplanKeeps(cfg: Config, s: GState, a: Answers)
    requires Invariant(cfg, NReplan, s) && WellTyped(a)
    ensures Keeps(cfg, NReplan, s, a)
  {
    var r := Replan(cfg, s, a);
    if r.Next? {
      ResultsCarry(s, r.state);
    }
  }

  lemma {:induction false} AdvanceKeeps(cfg: Config, s: GState, a: Answers)
    requires Invariant(cfg, NAdvance, s)
    ensures Keeps(cfg, NAdvance, s, a)
  {
    PassIsSound(s);
    var r := Advance(s, a);
    assert r.Next?;
    forall i: nat ensures ResultAt(r.state, i) {
      assert ResultAt(s, i);
    }
  }

  lemma {:induction false} CompleteResults(s: GState)
    requires ResultsSound(s) && ResultsInStep(s) && s.taskIndex == |s.plan|
    ensures forall i :: 0 <= i < |s.plan| ==> s.results[i].task == s.plan[i] && ResultSound(s.results[i], s.runId, s.retrieved)
  {
    forall i | 0 <= i < |s.plan|
      ensures s.results[i].task == s.plan[i] && ResultSound(s.results[i], s.runId, s.retrieved)
    {
      assert ResultAt(s, i);
    }
  }

  /** Finalizing changes the answer, the final check's own fields and the reason. */
  lemma {:induction false} FinalizedState(cfg: Config, s: GState, a: Answers)
    requires s.reason.None?
    ensures var r := Finalize(cfg, s, a);
      && r.Next?
      && r.state == s.(response := r.state.response, finalRequired := r.state.finalRequired, finalReport := r.state.finalReport,
                       finalRounds := r.state.finalRounds, reason := r.state.reason)
  {
  }

  lemma {:induction false} FinalizeKeeps(cfg: Config, s: GState, a: Answers)
    requires Invariant(cfg, NFinalize, s)
    ensures Keeps(cfg, NFinalize, s, a)
  {
    FinalizedState(cfg, s, a);
    hide Finalize;
    var r := Finalize(cfg, s, a);
    ResultsCarry(s, r.state);
    CompleteResults(r.state);
  }

  /** The final check changes only its report and the reason; a report is about the response it saw. */
  lemma {:induction false} CheckedState(cfg: Config, s: GState, a: Answers)
    requires WellTyped(a)
    ensures var r := VerifyFinal(cfg, s, a);
      && !r.Corrupt?
      && (r.Next? ==>
            && r.state == s.(finalReport := r.state.finalReport, reason := r.state.reason)
            && (r.state.reason.None? ==> s.reason.None? && r.state.finalReport.Some? && r.state.finalReport.value.about == s.response))
  {
  }

  lemma {:induction false} VerifyFinalKeeps(cfg: Config, s: GState, a: Answers)
    requires Invariant(cfg, NVerifyFinal, s) && WellTyped(a)
    ensures Keeps(cfg, NVerifyFinal, s, a)
  {
    CheckedState(cfg, s, a);
    hide VerifyFinal;
    var r := VerifyFinal(cfg, s, a);
    if r.Next? {
      ResultsCarry(s, r.state);
      CompleteResults(r.state);
    }
  }

  lemma {:induction false} ReviseFinalKeeps(cfg: Config, s: GState, a: Answers)
    requires Invariant(cfg, NReviseFinal, s)
    ensures Keeps(cfg, NReviseFinal, s, a)
  {
    var r := ReviseFinal(s, a);
    ResultsCarry(s, r.state);
  }

  /** Every node keeps the invariant, never reads missing state, and never emits a label without an edge. */
  lemma {:induction false} StepKeepsInvariant(cfg: Config, node: Node, s: GState, a: Answers)
    requires Invariant(cfg, node, s) && WellTyped(a)
    ensures Keeps(cfg, node, s, a)
  {
    match node
    case NPlan => PlanKeeps(cfg, s, a);
    case NResearch => ResearchKeeps(cfg, s, a);
    case NWorker => WorkerKeeps(cfg, s, a);
    case NVerify => VerifyKeeps(cfg, s, a);
    case NRevise => ReviseKeeps(cfg, s, a);
    case NReplan => ReplanKeeps(cfg, s, a);
    case NAdvance => AdvanceKeeps(cfg, s, a);
    case NFinalize => FinalizeKeeps(cfg, s, a);
    case NVerifyFinal => VerifyFinalKeeps(cfg, s, a);
    case NReviseFinal => ReviseFinalKeeps(cfg, s, a);
    case NTerminate =>
  }

  lemma {:induction false} RunKeepsInvariant(cfg: Config, m: Machine, answers: seq<Answers>)
    requires GoodMachine(cfg, m) && AllWellTyped(answers)
    ensures GoodMachine(cfg, Execute(cfg, m, answers))
    decreases |answers|
  {
    if answers != [] && m.About? {
      StepKeepsInvariant(cfg, m.node, m.state, answers[0]);
      RunKeepsInvariant(cfg, StepMachine(cfg, m, answers[0]), answers[1..]);
    }
  }

  /**
   A run that reaches END by a `complete` edge has one result per planned task, in plan order, each
   passed and complete with every claim backed by evidence a tool returned in this run for that task;
   and where a final check was required, the passing report is about the very response returned.
   */
  lemma {:induction false} CompletionSound(cfg: Config, runId: string, message: string, answers: seq<Answers>)
    requires AllWellTyped(answers)
    requires var m := Execute(cfg, Start(runId, message), answers); m.Finished? && m.complete
    ensures SoundlyComplete(Execute(cfg, Start(runId, message), answers).state)
  {
    assert ResultsSound(FreshState(runId, message));
    RunKeepsInvariant(cfg, Start(runId, message), answers);
  }

  /** No run reads a task, a worker result or a report that is not there, or takes an edge that does not exist. */
  lemma {:induction false} NeverStuck(cfg: Config, runId: string, message: string, answers: seq<Answers>)
    requires AllWellTyped(answers)
    ensures var m := Execute(cfg, Start(runId, message), answers);
            && !m.Stuck?
            && (m.About? ==> |m.state.results| == m.state.taskIndex)
            && (m.About? && m.node in {NResearch, NWorker, NVerify, NRevise, NAdvance} ==> HasTask(m.state))
  {
    assert ResultsSound(FreshState(runId, message));
    RunKeepsInvariant(cfg, Start(runId, message), answers);
  }

  /** Once a termination reason is set it stays set, and only `verify_final` can run before `terminate`. */
  lemma {:induction false} ReasonLeadsOut(cfg: Config, node: Node, s: GState, a: Answers)
    requires Invariant(cfg, node, s) && WellTyped(a) && s.reason.Some?
    ensures node == NVerifyFinal || node == NTerminate
    ensures var m := StepMachine(cfg, About(node, s), a);
            && (m.About? ==> m.node == NTerminate && m.state.reason.Some?)
            && (m.Finished? ==> !m.complete && m.state.reason.Some?)
  {
  }

  /** Every node but the verifier is routed to `terminate` by a reason, or by a final check out of rounds, which sets one. */
  lemma {:induction false} OthersRouteByReason(cfg: Config, node: Node, s: GState)
    requires node != NVerify && node != NVerifyFinal && Edge(node, LabelAfter(cfg, node, s)) == Some(To(NTerminate))
    ensures s.reason.Some?
  {
  }

  lemma {:induction false} FinalCheckGivesReason(cfg: Config, s: GState, a: Answers)
    requires WellTyped(a) && VerifyFinal(cfg, s, a).Next?
    requires var s' := VerifyFinal(cfg, s, a).state; Edge(NVerifyFinal, LabelAfter(cfg, NVerifyFinal, s')) == Some(To(NTerminate))
    ensures VerifyFinal(cfg, s, a).state.reason.Some?
  {
  }

  lemma {:induction false} OthersGiveReasons(cfg: Config, node: Node, s: GState, a: Answers)
    requires WellTyped(a) && node != NVerify
    ensures var m := StepMachine(cfg, About(node, s), a);
            m.About? && m.node == NTerminate ==> m.state.reason.Some?
  {
    var m := StepMachine(cfg, About(node, s), a);
    if m.About? && m.node == NTerminate {
      if node == NVerifyFinal {
        FinalCheckGivesReason(cfg, s, a);
      } else {
        hide RunNode;
        OthersRouteByReason(cfg, node, m.state);
      }
    }
  }

  lemma {:induction false} VerifierMayGiveNone(cfg: Config, s: GState, a: Answers)
    requires Invariant(cfg, NVerify, s)
    ensures var m := StepMachine(cfg, About(NVerify, s), a);
            m.About? && m.node == NTerminate ==>
              (m.state.reason.None? <==>
                 a.budgetStop.None? && s.verifierRounds < cfg.maxVerifierRounds
                 && cfg.ollama && a.report.Produced? && a.report.value.verdict == TerminateIt)
  {
    hide ResultsSound, Provenance;
  }

  /** `terminate` is entered without a reason exactly from a verifier that said `terminate`. */
  lemma {:induction false} ReasonlessTermination(cfg: Config, node: Node, s: GState, a: Answers)
    requires Invariant(cfg, node, s) && WellTyped(a)
    ensures var m := StepMachine(cfg, About(node, s), a);
            m.About? && m.node == NTerminate ==>
              (m.state.reason.None? <==>
                 node == NVerify && a.budgetStop.None? && s.verifierRounds < cfg.maxVerifierRounds
                 && cfg.ollama && a.report.Produced? && a.report.value.verdict == TerminateIt)
  {
    if node == NVerify {
      VerifierMayGiveNone(cfg, s, a);
    } else {
      hide StepMachine, Invariant;
      OthersGiveReasons(cfg, node, s, a);
    }
  }
}
