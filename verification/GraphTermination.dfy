/**
 Every run of the agent graph ends within 4V + max(5, 2R + 4) node executions, where V bounds verifier
 rounds and R final revisions - within 4V + 5 when V is below two, since then no answer is put together
 from several results and none is finally checked - whatever models and tools answer. Research, replanning and advancing
 reset their own counters, so the measure rests on the verifier rounds, which nothing resets.
 */
module GraphTermination {
  import opened Prelude
  import opened AgentGraph

  /** The announced bound. */
  function Bound(cfg: Config): nat {
    4 * cfg.maxVerifierRounds + if cfg.maxVerifierRounds < 2 then 5 else Max(5, 2 * cfg.maxFinalRounds + 4)
  }

  /** Nodes still to run from `finalize` on. */
  function FinalizeCost(cfg: Config): nat {
    if cfg.maxVerifierRounds < 2 then 2 else 2 * cfg.maxFinalRounds + 3
  }

  /** Nodes still to run when `verify` is next and v rounds have been counted. */
  function VerifyCost(cfg: Config, v: nat): nat {
    if v >= cfg.maxVerifierRounds then 2
    else 4 * (cfg.maxVerifierRounds - 1 - v) + Max(6, FinalizeCost(cfg) + 2)
  }

  /** Nodes still to run from a given node, it included. */
  function Cost(cfg: Config, node: Node, s: GState): nat {
    var verify := VerifyCost(cfg, s.verifierRounds);
    var finalLeft := if s.finalRounds <= cfg.maxFinalRounds then cfg.maxFinalRounds - s.finalRounds else 0;
    match node
    case NTerminate => 1
    case NVerifyFinal => if s.reason.Some? then 2 else 2 + 2 * finalLeft
    case NReviseFinal => 1 + Max(2, 2 * finalLeft)
    case NFinalize => FinalizeCost(cfg)
    case NVerify => verify
    case NWorker => 1 + verify
    case NRevise => 1 + verify
    case NResearch => 2 + verify
    case NReplan => 2 + verify
    case NAdvance => 1 + Max(2 + verify, FinalizeCost(cfg))
    case NPlan => 3 + verify
  }

  /** Nodes before the final ones. */
  predicate Working(node: Node) {
    node == NVerify || node == NWorker || node == NRevise || node == NResearch || node == NReplan || node == NPlan
  }

  /** What the measure needs of the state: reasons lead out, every result took a verifier round, and rounds stay within bounds. */
  predicate Orderly(cfg: Config, node: Node, s: GState) {
    && (s.reason.Some? ==> node == NTerminate || node == NVerifyFinal)
    && (Working(node) || node == NFinalize ==> |s.results| <= s.verifierRounds <= cfg.maxVerifierRounds)
    && (node == NAdvance ==> |s.results| < s.verifierRounds <= cfg.maxVerifierRounds)
    && (node == NVerifyFinal || node == NReviseFinal ==> cfg.maxVerifierRounds >= 2)
    && (node == NReviseFinal ==> s.finalRounds < cfg.maxFinalRounds)
  }

  /** Executing the node leaves less to execute, unless the run ends. */
  ghost predicate Lowers(cfg: Config, node: Node, s: GState, a: Answers) {
    var m := StepMachine(cfg, About(node, s), a);
    m.About? ==> Orderly(cfg, m.node, m.state) && Cost(cfg, m.node, m.state) < Cost(cfg, node, s)
  }

  /** The counters come out as they went in, with at most `more` new results. */
  ghost predicate CountersKeptBy(cfg: Config, node: Node, s: GState, a: Answers, more: nat) {
    var r := RunNode(cfg, node, s, a);
    r.Next? ==> && r.state.verifierRounds == s.verifierRounds && r.state.finalRounds == s.finalRounds
                && |r.state.results| <= |s.results| + more
  }

  lemma {:induction false} PlanningKeepsCounters(cfg: Config, node: Node, s: GState, a: Answers)
    requires node == NPlan || node == NReplan
    ensures CountersKeptBy(cfg, node, s, a, 0)
  {
  }

  lemma {:induction false} WorkingKeepsCounters(cfg: Config, node: Node, s: GState, a: Answers)
    requires node == NWorker || node == NRevise || node == NResearch
    ensures CountersKeptBy(cfg, node, s, a, 0)
  {
  }

  lemma {:induction false} AdvancingKeepsCounters(cfg: Config, s: GState, a: Answers)
    ensures CountersKeptBy(cfg, NAdvance, s, a, 1)
  {
  }

  /** Nodes that count no round: their counters come out as they went in, and only `advance` adds a result. */
  lemma {:induction false} CountersKept(cfg: Config, node: Node, s: GState, a: Answers)
    requires (Working(node) && node != NVerify) || node == NAdvance
    ensures CountersKeptBy(cfg, node, s, a, if node == NAdvance then 1 else 0)
  {
    hide CountersKeptBy;
    match node
    case NAdvance => AdvancingKeepsCounters(cfg, s, a);
    case NPlan => PlanningKeepsCounters(cfg, node, s, a);
    case NReplan => PlanningKeepsCounters(cfg, node, s, a);
    case NWorker => WorkingKeepsCounters(cfg, node, s, a);
    case NRevise => WorkingKeepsCounters(cfg, node, s, a);
    case NResearch => WorkingKeepsCounters(cfg, node, s, a);
  }

  lemma {:induction false} VerifyCounts(cfg: Config, s: GState, a: Answers)
    ensures var r := Verify(cfg, s, a);
            r.Next? ==>
              && r.state.verifierRounds == s.verifierRounds + 1 && r.state.results == s.results
              && (r.state.reason.None? ==> s.reason.None? && r.state.verifierRounds <= cfg.maxVerifierRounds)
  {
  }

  lemma {:induction false} VerifyLowers(cfg: Config, s: GState, a: Answers)
    requires Orderly(cfg, NVerify, s)
    ensures Lowers(cfg, NVerify, s, a)
  {
    VerifyCounts(cfg, s, a);
    hide Verify;
  }

  lemma {:induction false} EntryLowers(cfg: Config, node: Node, s: GState, a: Answers)
    requires Orderly(cfg, node, s) && (node == NPlan || node == NAdvance)
    ensures Lowers(cfg, node, s, a)
  {
    hide RunNode;
    CountersKept(cfg, node, s, a);
  }

  lemma {:induction false} BudgetedLowers(cfg: Config, node: Node, s: GState, a: Answers)
    requires Orderly(cfg, node, s) && (node == NResearch || node == NWorker || node == NRevise || node == NReplan)
    ensures Lowers(cfg, node, s, a)
  {
    hide RunNode;
    CountersKept(cfg, node, s, a);
  }

  lemma {:induction false} FinalizeLowers(cfg: Config, s: GState, a: Answers)
    requires Orderly(cfg, NFinalize, s)
    ensures Lowers(cfg, NFinalize, s, a)
  {
  }

  lemma {:induction false} TerminateLowers(cfg: Config, s: GState, a: Answers)
    ensures Lowers(cfg, NTerminate, s, a)
  {
  }

  lemma {:induction false} VerifyFinalLowers(cfg: Config, s: GState, a: Answers)
    requires Orderly(cfg, NVerifyFinal, s)
    ensures Lowers(cfg, NVerifyFinal, s, a)
  {
  }

  lemma {:induction false} ReviseFinalLowers(cfg: Config, s: GState, a: Answers)
    requires Orderly(cfg, NReviseFinal, s)
    ensures Lowers(cfg, NReviseFinal, s, a)
  {
  }

  lemma {:induction false} StepLowersCost(cfg: Config, node: Node, s: GState, a: Answers)
    requires Orderly(cfg, node, s)
    ensures Lowers(cfg, node, s, a)
  {
    hide Lowers, Orderly;
    match node
    case NVerify => VerifyLowers(cfg, s, a);
    case NPlan => EntryLowers(cfg, node, s, a);
    case NAdvance => EntryLowers(cfg, node, s, a);
    case NResearch => BudgetedLowers(cfg, node, s, a);
    case NWorker => BudgetedLowers(cfg, node, s, a);
    case NRevise => BudgetedLowers(cfg, node, s, a);
    case NReplan => BudgetedLowers(cfg, node, s, a);
    case NVerifyFinal => VerifyFinalLowers(cfg, s, a);
    case NReviseFinal => ReviseFinalLowers(cfg, s, a);
    case NFinalize => FinalizeLowers(cfg, s, a);
    case NTerminate => TerminateLowers(cfg, s, a);
  }

  lemma {:induction false} ExecuteBounded(cfg: Config, node: Node, s: GState, answers: seq<Answers>)
    requires Orderly(cfg, node, s)
    ensures Execute(cfg, About(node, s), answers).About? ==> |answers| < Cost(cfg, node, s)
    decreases |answers|
  {
    if answers != [] {
      StepLowersCost(cfg, node, s, answers[0]);
      var m := StepMachine(cfg, About(node, s), answers[0]);
      assert Execute(cfg, About(node, s), answers) == Execute(cfg, m, answers[1..]);
      if m.About? {
        assert m == About(m.node, m.state);
        ExecuteBounded(cfg, m.node, m.state, answers[1..]);
      }
    }
  }

  /** After `Bound` node executions no node is left to execute. */
  lemma {:induction false} GraphTerminates(cfg: Config, runId: string, message: string, answers: seq<Answers>)
    requires |answers| >= Bound(cfg)
    ensures !Execute(cfg, Start(runId, message), answers).About?
  {
    ExecuteBounded(cfg, NPlan, FreshState(runId, message), answers);
  }
}
