/** Under which task evidence is filed in every run of the agent graph, and what that costs a task without an id. */
module EvidenceFiling {
  import opened Prelude
  import opened ClaimGrounding
  import opened AgentGraph
  import opened GraphSoundness

  /** Evidence was brought by the caller or researched for this task. */
  predicate FiledUnder(e: EvidenceItem, task: Task, index: nat) {
    e.taskId == "request" || e.taskId == ResearchKey(task, index)
  }

  predicate FiledForCurrentTask(s: GState) {
    forall e :: e in s.evidence ==> e.taskId == "request" || (HasTask(s) && FiledUnder(e, CurrentTask(s), s.taskIndex))
  }

  predicate ResultFiled(s: GState, i: nat) {
    i < |s.results| ==> forall e :: e in s.results[i].evidence ==> FiledUnder(e, s.results[i].task, i)
  }

  ghost predicate ResultsFiled(s: GState) {
    forall i: nat :: ResultFiled(s, i)
  }

  ghost predicate Filing(s: GState) {
    FiledForCurrentTask(s) && ResultsInStep(s) && ResultsFiled(s)
  }

  ghost predicate FilingMachine(m: Machine) {
    match m
    case About(_, s) => Filing(s)
    case Finished(_, s) => ResultsFiled(s)
    case Aborted => true
    case Stuck => true
  }

  ghost predicate KeepsFiling(cfg: Config, node: Node, s: GState, a: Answers) {
    var r := RunNode(cfg, node, s, a);
    r.Next? ==> Filing(r.state)
  }

  /** Nodes that leave evidence, plan, position and results alone. */
  lemma {:induction false} UntouchedFiling(s: GState, s': GState)
    requires Filing(s)
    requires s'.evidence == s.evidence && s'.plan == s.plan && s'.taskIndex == s.taskIndex && s'.results == s.results
    ensures Filing(s')
  {
    forall i: nat ensures ResultFiled(s', i) {
      assert ResultFiled(s, i);
    }
  }

  lemma {:induction false} OthersKeepFiling(cfg: Config, node: Node, s: GState, a: Answers)
    requires Filing(s) && node != NPlan && node != NResearch && node != NReplan && node != NAdvance
    ensures KeepsFiling(cfg, node, s, a)
  {
    var r := RunNode(cfg, node, s, a);
    if r.Next? {
      assert r.state.evidence == s.evidence && r.state.plan == s.plan;
      assert r.state.taskIndex == s.taskIndex && r.state.results == s.results;
      hide RunNode;
      UntouchedFiling(s, r.state);
    }
  }

  /** A plan or a new plan starts with no results, and with no evidence but the caller's. */
  lemma {:induction false} FreshFiling(s: GState)
    requires s.results == [] && s.taskIndex == 0 && forall e :: e in s.evidence ==> e.taskId == "request"
    ensures Filing(s)
  {
  }

  lemma {:induction false} PlanOutcomes(cfg: Config, s: GState, a: Answers)
    ensures var r := Plan(cfg, s, a);
      r.Next? ==> || r.state == s.(reason := r.state.reason)
                  || (r.state.results == [] && r.state.taskIndex == 0 && r.state.evidence == Distrust(a.userEvidence, s.runId))
  {
    hide Distrust;
  }

  lemma {:induction false} PlanKeepsFiling(cfg: Config, s: GState, a: Answers)
    requires Filing(s)
    ensures KeepsFiling(cfg, NPlan, s, a)
  {
    PlanOutcomes(cfg, s, a);
    hide Plan;
    var r := Plan(cfg, s, a);
    if r.Next? {
      if r.state == s.(reason := r.state.reason) {
        UntouchedFiling(s, r.state);
      } else {
        assert forall e :: e in Distrust(a.userEvidence, s.runId) ==> e.taskId == "request";
        FreshFiling(r.state);
      }
    }
  }

  lemma {:induction false} ReplanKeepsFiling(cfg: Config, s: GState, a: Answers)
    requires Filing(s)
    ensures KeepsFiling(cfg, NReplan, s, a)
  {
    var r := Replan(cfg, s, a);
    if r.Next? {
      if s.replans + 1 > cfg.maxReplans {
        UntouchedFiling(s, r.state);
      } else {
        FreshFiling(r.state);
      }
    }
  }

  lemma {:induction false} CandidatesFiled(s: GState, query: nat, attempts: seq<Attempt>)
    requires HasTask(s)
    ensures var r := TryCandidates(s, query, attempts); r.Hit? ==> r.item.taskId == ResearchKey(CurrentTask(s), s.taskIndex)
  {
    if attempts != [] {
      CandidatesFiled(s, query, attempts[1..]);
    }
  }

  /** Whatever the tools answer, research files it under the key of the current task. */
  lemma {:induction false} QueriesFiled(s: GState, query: nat, queries: seq<seq<Attempt>>)
    requires HasTask(s)
    ensures var r := RunQueries(s, query, queries);
      r.Findings? ==> forall e :: e in r.items ==> e.taskId == ResearchKey(CurrentTask(s), s.taskIndex)
    decreases |queries|
  {
    if queries != [] {
      CandidatesFiled(s, query, queries[0]);
      QueriesFiled(s, query + 1, queries[1..]);
    }
  }

  lemma {:induction false} MergedFiling(s: GState, s': GState, items: seq<EvidenceItem>)
    requires Filing(s) && HasTask(s) && s'.evidence == Dedupe([], s.evidence + items)
    requires s'.plan == s.plan && s'.taskIndex == s.taskIndex && s'.results == s.results
    requires forall e :: e in items ==> e.taskId == ResearchKey(CurrentTask(s), s.taskIndex)
    ensures Filing(s')
  {
    forall e | e in s'.evidence ensures FiledUnder(e, CurrentTask(s'), s'.taskIndex) {
      DedupeKeepsOnlyItems([], s.evidence + items, e);
    }
    forall i: nat ensures ResultFiled(s', i) {
      assert ResultFiled(s, i);
    }
  }

  lemma {:induction false} FindingsKeepFiling(s0: GState, s: GState, found: Findings)
    requires Filing(s0) && HasTask(s0) && s == s0.(researchRounds := s.researchRounds)
    requires found.Findings? ==> forall e :: e in found.items ==> e.taskId == ResearchKey(CurrentTask(s0), s0.taskIndex)
    ensures var r := UseFindings(s0, s, found); r.Next? ==> Filing(r.state)
  {
    var r := UseFindings(s0, s, found);
    hide Filing;
    if r.Next? {
      if found.Findings? && found.items != [] {
        MergedFiling(s0, r.state, found.items);
      } else {
        UntouchedFiling(s0, r.state);
      }
    }
  }

  lemma {:induction false} ResearchWithoutTask(cfg: Config, s: GState, a: Answers)
    requires !HasTask(s)
    ensures var r := Research(cfg, s, a);
      r.Next? ==> r.state == s.(researchRounds := r.state.researchRounds, reason := r.state.reason)
  {
  }

  lemma {:induction false} ResearchKeepsFiling(cfg: Config, s: GState, a: Answers)
    requires Filing(s)
    ensures KeepsFiling(cfg, NResearch, s, a)
  {
    var counted := s.(researchRounds := s.researchRounds + 1);
    if HasTask(s) {
      ResearchedState(cfg, s, a);
      QueriesFiled(counted, 1, a.attempts);
      FindingsKeepFiling(s, counted, RunQueries(counted, 1, a.attempts));
    } else {
      ResearchWithoutTask(cfg, s, a);
    }
    hide Research, RunQueries, UseFindings, Filing;
    var r := Research(cfg, s, a);
    if r.Next? && r.state == s.(researchRounds := r.state.researchRounds, reason := r.state.reason) {
      UntouchedFiling(s, r.state);
    }
  }

  /** Advancing files the current task's evidence with its result and starts the next task with none. */
  lemma {:induction false} AdvancedState(s: GState, a: Answers)
    requires Advance(s, a).Next?
    ensures var s' := Advance(s, a).state;
      && HasTask(s) && s'.evidence == [] && s'.taskIndex == s.taskIndex + 1
      && |s'.results| == |s.results| + 1 && s'.results[..|s.results|] == s.results
      && s'.results[|s.results|].task == CurrentTask(s) && s'.results[|s.results|].evidence == s.evidence
  {
  }

  lemma {:induction false} AdvanceKeepsFiling(cfg: Config, s: GState, a: Answers)
    requires Filing(s)
    ensures KeepsFiling(cfg, NAdvance, s, a)
  {
    var r := Advance(s, a);
    if r.Next? {
      AdvancedState(s, a);
      hide Advance;
      forall i: nat ensures ResultFiled(r.state, i) {
        assert ResultFiled(s, i);
        assert i < |s.results| ==> r.state.results[i] == s.results[i];
      }
    }
  }

  lemma {:induction false} StepKeepsFiling(cfg: Config, node: Node, s: GState, a: Answers)
    requires Filing(s)
    ensures KeepsFiling(cfg, node, s, a)
  {
    hide KeepsFiling, Filing;
    match node
    case NPlan => PlanKeepsFiling(cfg, s, a);
    case NResearch => ResearchKeepsFiling(cfg, s, a);
    case NReplan => ReplanKeepsFiling(cfg, s, a);
    case NAdvance => AdvanceKeepsFiling(cfg, s, a);
    case _ => OthersKeepFiling(cfg, node, s, a);
  }

  lemma {:induction false} RunKeepsFiling(cfg: Config, m: Machine, answers: seq<Answers>)
    requires FilingMachine(m)
    ensures FilingMachine(Execute(cfg, m, answers))
    decreases |answers|
  {
    hide RunNode;
    if answers != [] && m.About? {
      StepKeepsFiling(cfg, m.node, m.state, answers[0]);
      RunKeepsFiling(cfg, StepMachine(cfg, m, answers[0]), answers[1..]);
    }
  }

  /** Evidence under which verification would look for an unnamed task is filed by nobody. */
  lemma {:induction false} NothingFiledForUnnamed(e: EvidenceItem, task: Task, index: nat)
    requires FiledUnder(e, task, index) && task.id == ""
    ensures e.taskId != VerifyKey(task)
  {
    KeysAgreeExactly(task, index);
  }

  lemma {:induction false} UnnamedResultClaimsNothing(s: GState, i: nat)
    requires i < |s.results| && ResultFiled(s, i) && ResultSound(s.results[i], s.runId, s.retrieved)
    requires s.results[i].task.id == ""
    ensures s.results[i].worker.claims == []
  {
    var r := s.results[i];
    if r.worker.claims != [] {
      var claim := r.worker.claims[0];
      assert claim in r.worker.claims && FullyBacked(claim, r.evidence, s.runId, VerifyKey(r.task));
      var id := claim.evidenceIds[0];
      assert id in claim.evidenceIds && IsAcceptable(r.evidence, claim, s.runId, VerifyKey(r.task), id);
      NothingFiledForUnnamed(Lookup(r.evidence, id).value, r.task, i);
      assert false;
    }
  }

  /** A run that ends by a complete edge has results without claims for all its tasks without an id: no evidence can support one. */
  lemma {:induction false} UnnamedTasksClaimNothing(cfg: Config, runId: string, message: string, answers: seq<Answers>)
    requires AllWellTyped(answers)
    requires var m := Execute(cfg, Start(runId, message), answers); m.Finished? && m.complete
    ensures var s := Execute(cfg, Start(runId, message), answers).state;
      forall i :: 0 <= i < |s.results| && s.results[i].task.id == "" ==> s.results[i].worker.claims == []
  {
    CompletionSound(cfg, runId, message, answers);
    assert ResultsFiled(FreshState(runId, message));
    RunKeepsFiling(cfg, Start(runId, message), answers);
    var s := Execute(cfg, Start(runId, message), answers).state;
    forall i | 0 <= i < |s.results| && s.results[i].task.id == "" ensures s.results[i].worker.claims == [] {
      assert ResultFiled(s, i);
      UnnamedResultClaimsNothing(s, i);
    }
  }
}
