/** The node bound is not slack: a run of the graph executes exactly that many nodes. */
module GraphBoundAttained {
  import opened Prelude
  import opened ClaimGrounding
  import opened AgentGraph
  import opened GraphTermination

  /** Settings under which every stage of the graph can run. */
  predicate AllStages(cfg: Config) {
    cfg.ollama && cfg.mcpEnabled && cfg.maxResearchRounds >= 1 && cfg.finalVerification
  }

  function Unary(n: nat): (s: string)
    ensures |s| == n
  {
    seq(n, _ => 'x')
  }

  /** n tasks with different, non-empty ids. */
  function Tasks(n: nat): (tasks: seq<Task>)
    ensures |tasks| == n && forall i :: 0 <= i < n ==> |tasks[i].id| == i + 1
  {
    seq(n, i requires 0 <= i < n => Task(Unary(i + 1), ""))
  }

  /** One more task than verifier rounds when no final revision is allowed or can be reached, as many otherwise. */
  function TaskCount(cfg: Config): nat {
    if cfg.maxFinalRounds == 0 || cfg.maxVerifierRounds < 2 then cfg.maxVerifierRounds + 1 else cfg.maxVerifierRounds
  }

  /** Every task needs research, every worker answers, every verifier passes, every final check fails. */
  function Slowest(cfg: Config): Answers {
    Answers(None, Produced(Tasks(TaskCount(cfg))), Produced(WorkerResult("", [])), Produced(Report(Pass, true, [], [])),
            Produced((false, false)), Produced(""), [], [], true, [[Answered(true, "", "", Current)]], "")
  }

  function Times(a: Answers, n: nat): (s: seq<Answers>)
    ensures |s| == n && forall x :: x in s ==> x == a
  {
    seq(n, _ => a)
  }

  ghost function Repeat(cfg: Config, m: Machine, n: nat): Machine {
    Execute(cfg, m, Times(Slowest(cfg), n))
  }

  lemma {:induction false} RepeatOnce(cfg: Config, m: Machine, n: nat)
    requires m.About? && n > 0
    ensures Repeat(cfg, m, n) == Repeat(cfg, StepMachine(cfg, m, Slowest(cfg)), n - 1)
  {
    assert Times(Slowest(cfg), n)[1..] == Times(Slowest(cfg), n - 1);
  }

  /** About to run a node on task k, the first k tasks done with one verifier round each. */
  ghost predicate OnTask(cfg: Config, m: Machine, node: Node, k: nat, rounds: nat) {
    && m.About? && m.node == node
    && var s := m.state;
    && s.reason.None? && s.plan == Tasks(TaskCount(cfg)) && s.taskIndex == k < |s.plan| && |s.results| == k
    && s.verifierRounds == rounds
    && (forall id :: id in s.researched ==> |id| <= (if node == NResearch then k else k + 1))
    && (node == NResearch ==> s.researchRounds == 0)
    && (node == NVerify || node == NAdvance ==> s.worker == Some(WorkerResult("", [])))
    && (node == NAdvance ==> s.report.Some?)
  }

  lemma {:induction false} ResearchWorks(cfg: Config, m: Machine, k: nat)
    requires AllStages(cfg) && OnTask(cfg, m, NResearch, k, k)
    ensures OnTask(cfg, StepMachine(cfg, m, Slowest(cfg)), NWorker, k, k)
  {
    var a, s := Slowest(cfg), m.state.(researchRounds := 1);
    assert TryCandidates(s, 1, a.attempts[0]) == Hit(ToolRecord(s, 1, a.attempts[0][0]));
    assert RunQueries(s, 2, a.attempts[1..]) == Findings([]);
    assert RunQueries(s, 1, a.attempts) == Findings([ToolRecord(s, 1, a.attempts[0][0])]);
    assert ResearchKey(CurrentTask(s), k) == s.plan[k].id;
  }

  lemma {:induction false} WorkerWorks(cfg: Config, m: Machine, k: nat)
    requires AllStages(cfg) && OnTask(cfg, m, NWorker, k, k)
    ensures OnTask(cfg, StepMachine(cfg, m, Slowest(cfg)), NVerify, k, k)
  {
  }

  lemma {:induction false} VerifyPasses(cfg: Config, m: Machine, k: nat)
    requires AllStages(cfg) && OnTask(cfg, m, NVerify, k, k) && k < cfg.maxVerifierRounds
    ensures OnTask(cfg, StepMachine(cfg, m, Slowest(cfg)), NAdvance, k, k + 1)
  {
    var s := m.state;
    assert !Ungrounded(GroundAll([], s.evidence, s.runId, VerifyKey(CurrentTask(s))));
  }

  lemma {:induction false} AdvanceMoves(cfg: Config, m: Machine, k: nat)
    requires AllStages(cfg) && OnTask(cfg, m, NAdvance, k, k + 1) && k + 1 < TaskCount(cfg)
    ensures OnTask(cfg, StepMachine(cfg, m, Slowest(cfg)), NResearch, k + 1, k + 1)
  {
    assert |m.state.plan[k + 1].id| == k + 2;
  }

  lemma {:induction false} OneTask(cfg: Config, m: Machine, k: nat, n: nat) returns (m': Machine)
    requires AllStages(cfg) && OnTask(cfg, m, NResearch, k, k)
    requires k < cfg.maxVerifierRounds && k + 1 < TaskCount(cfg) && n >= 4
    ensures OnTask(cfg, m', NResearch, k + 1, k + 1) && Repeat(cfg, m, n) == Repeat(cfg, m', n - 4)
  {
    hide OnTask, Repeat;
    var m1 := ToVerify(cfg, m, k, n);
    var m2 := PassOver(cfg, m1, k, n - 2);
    m' := Advanced(cfg, m2, k, n - 3);
  }

  lemma {:induction false} PassOver(cfg: Config, m: Machine, k: nat, n: nat) returns (m': Machine)
    requires AllStages(cfg) && OnTask(cfg, m, NVerify, k, k) && k < cfg.maxVerifierRounds && n >= 1
    ensures OnTask(cfg, m', NAdvance, k, k + 1) && Repeat(cfg, m, n) == Repeat(cfg, m', n - 1)
  {
    hide Repeat, StepMachine;
    VerifyPasses(cfg, m, k);
    RepeatOnce(cfg, m, n);
    m' := StepMachine(cfg, m, Slowest(cfg));
  }

  lemma {:induction false} Advanced(cfg: Config, m: Machine, k: nat, n: nat) returns (m': Machine)
    requires AllStages(cfg) && OnTask(cfg, m, NAdvance, k, k + 1) && k + 1 < TaskCount(cfg) && n >= 1
    ensures OnTask(cfg, m', NResearch, k + 1, k + 1) && Repeat(cfg, m, n) == Repeat(cfg, m', n - 1)
  {
    hide Repeat, StepMachine;
    AdvanceMoves(cfg, m, k);
    RepeatOnce(cfg, m, n);
    m' := StepMachine(cfg, m, Slowest(cfg));
  }

  /** From task k on, four nodes per task as long as verifier rounds and tasks last. */
  lemma {:induction false} TasksTakeFour(cfg: Config, m: Machine, k: nat, upTo: nat, n: nat) returns (m': Machine)
    requires AllStages(cfg) && OnTask(cfg, m, NResearch, k, k)
    requires k <= upTo <= cfg.maxVerifierRounds && upTo < TaskCount(cfg) && n >= 4 * (upTo - k)
    ensures OnTask(cfg, m', NResearch, upTo, upTo)
    ensures Repeat(cfg, m, n) == Repeat(cfg, m', n - 4 * (upTo - k))
    decreases upTo - k
  {
    hide OnTask, Repeat;
    if k == upTo {
      return m;
    }
    m' := OneTask(cfg, m, k, n);
    m' := TasksTakeFour(cfg, m', k + 1, upTo, n - 4);
  }

  lemma {:induction false} ToVerify(cfg: Config, m: Machine, k: nat, n: nat) returns (m': Machine)
    requires AllStages(cfg) && OnTask(cfg, m, NResearch, k, k) && n >= 2
    ensures OnTask(cfg, m', NVerify, k, k) && Repeat(cfg, m, n) == Repeat(cfg, m', n - 2)
  {
    hide Repeat, StepMachine;
    ResearchWorks(cfg, m, k);
    RepeatOnce(cfg, m, n);
    var m1 := StepMachine(cfg, m, Slowest(cfg));
    WorkerWorks(cfg, m1, k);
    RepeatOnce(cfg, m1, n - 1);
    m' := StepMachine(cfg, m1, Slowest(cfg));
  }

  /** About to check the final answer for the (r+1)-th time. */
  ghost predicate OnFinal(cfg: Config, m: Machine, node: Node, r: nat) {
    m.About? && m.node == node && m.state.reason.None? && m.state.finalRounds == r <= cfg.maxFinalRounds
  }

  /** A failed final check leads to a revision while revisions are left, and to the end after. */
  lemma {:induction false} FinalCheckFails(cfg: Config, m: Machine, r: nat)
    requires AllStages(cfg) && OnFinal(cfg, m, NVerifyFinal, r)
    ensures var m' := StepMachine(cfg, m, Slowest(cfg));
      if r == cfg.maxFinalRounds then m'.About? && m'.node == NTerminate else OnFinal(cfg, m', NReviseFinal, r)
  {
  }

  lemma {:induction false} RevisionIsChecked(cfg: Config, m: Machine, r: nat)
    requires AllStages(cfg) && OnFinal(cfg, m, NReviseFinal, r) && r < cfg.maxFinalRounds
    ensures OnFinal(cfg, StepMachine(cfg, m, Slowest(cfg)), NVerifyFinal, r + 1)
  {
  }

  lemma {:induction false} FinalTakesTwo(cfg: Config, m: Machine, r: nat, n: nat) returns (m': Machine)
    requires AllStages(cfg) && OnFinal(cfg, m, NVerifyFinal, r) && n >= 2 * (cfg.maxFinalRounds - r) + 1
    ensures m'.About? && m'.node == NTerminate
    ensures Repeat(cfg, m, n) == Repeat(cfg, m', n - 2 * (cfg.maxFinalRounds - r) - 1)
    decreases cfg.maxFinalRounds - r
  {
    hide Repeat, StepMachine;
    FinalCheckFails(cfg, m, r);
    RepeatOnce(cfg, m, n);
    var m1 := StepMachine(cfg, m, Slowest(cfg));
    if r == cfg.maxFinalRounds {
      return m1;
    }
    RevisionIsChecked(cfg, m1, r);
    RepeatOnce(cfg, m1, n - 1);
    var m2 := StepMachine(cfg, m1, Slowest(cfg));
    m' := FinalTakesTwo(cfg, m2, r + 1, n - 2);
  }

  lemma {:induction false} LastTaskAdvances(cfg: Config, m: Machine, k: nat)
    requires AllStages(cfg) && OnTask(cfg, m, NAdvance, k, k + 1) && k + 1 == TaskCount(cfg)
    ensures var m' := StepMachine(cfg, m, Slowest(cfg));
      m'.About? && m'.node == NFinalize && m'.state.reason.None? && |m'.state.results| == k + 1
  {
  }

  lemma {:induction false} FinalizeAsksForCheck(cfg: Config, m: Machine)
    requires AllStages(cfg) && m.About? && m.node == NFinalize && m.state.reason.None? && |m.state.results| > 1
    ensures OnFinal(cfg, StepMachine(cfg, m, Slowest(cfg)), NVerifyFinal, 0)
  {
  }

  /** The last task's verification, with rounds left, leads through advance and finalize to the final check. */
  lemma {:induction false} LastTaskToFinal(cfg: Config, m: Machine, k: nat, n: nat) returns (m': Machine)
    requires AllStages(cfg) && OnTask(cfg, m, NVerify, k, k) && 2 <= k + 1 == cfg.maxVerifierRounds == TaskCount(cfg) && n >= 3
    ensures OnFinal(cfg, m', NVerifyFinal, 0) && Repeat(cfg, m, n) == Repeat(cfg, m', n - 3)
  {
    hide Repeat, StepMachine;
    var m1 := PassOver(cfg, m, k, n);
    LastTaskAdvances(cfg, m1, k);
    RepeatOnce(cfg, m1, n - 1);
    var m2 := StepMachine(cfg, m1, Slowest(cfg));
    FinalizeAsksForCheck(cfg, m2);
    RepeatOnce(cfg, m2, n - 2);
    m' := StepMachine(cfg, m2, Slowest(cfg));
  }

  lemma {:induction false} PlanStarts(cfg: Config, runId: string, message: string, n: nat) returns (m': Machine)
    requires AllStages(cfg) && n >= 1
    ensures OnTask(cfg, m', NResearch, 0, 0)
    ensures Repeat(cfg, Start(runId, message), n) == Repeat(cfg, m', n - 1)
  {
    RepeatOnce(cfg, Start(runId, message), n);
    m' := StepMachine(cfg, Start(runId, message), Slowest(cfg));
  }

  /** Without final revisions, or without two results to check, the longest run spends its last verifier round being told to stop. */
  lemma {:induction false} SlowestWithoutRevision(cfg: Config, m: Machine)
    requires AllStages(cfg) && OnTask(cfg, m, NResearch, 0, 0) && (cfg.maxFinalRounds == 0 || cfg.maxVerifierRounds < 2)
    ensures Repeat(cfg, m, 4 * cfg.maxVerifierRounds + 3).About?
  {
    hide OnTask, Repeat;
    var v := cfg.maxVerifierRounds;
    var m1 := TasksTakeFour(cfg, m, 0, v, 4 * v + 3);
    assert 4 * v + 3 - 4 * (v - 0) == 3;
    StoppedTaskTerminates(cfg, m1, v);
  }

  lemma {:induction false} StoppedTaskTerminates(cfg: Config, m: Machine, v: nat)
    requires AllStages(cfg) && OnTask(cfg, m, NResearch, v, v) && v == cfg.maxVerifierRounds
    ensures Repeat(cfg, m, 3).About?
  {
    var m1 := ToVerify(cfg, m, v, 3);
    StoppedVerifierTerminates(cfg, m1, v);
  }

  lemma {:induction false} StoppedVerifierTerminates(cfg: Config, m: Machine, v: nat)
    requires OnTask(cfg, m, NVerify, v, v) && v == cfg.maxVerifierRounds
    ensures Repeat(cfg, m, 1).About?
  {
    RepeatOnce(cfg, m, 1);
    assert StepMachine(cfg, m, Slowest(cfg)).About?;
  }

  lemma {:induction false} LastTaskAndFinal(cfg: Config, m: Machine, k: nat)
    requires AllStages(cfg) && OnTask(cfg, m, NResearch, k, k) && 2 <= k + 1 == cfg.maxVerifierRounds == TaskCount(cfg)
    ensures Repeat(cfg, m, 2 * cfg.maxFinalRounds + 6).About?
  {
    hide OnTask, OnFinal, Repeat;
    var n := 2 * cfg.maxFinalRounds + 6;
    var m1 := ToVerify(cfg, m, k, n);
    var m2 := LastTaskToFinal(cfg, m1, k, n - 2);
    FinalRoundsSurvive(cfg, m2);
  }

  lemma {:induction false} FinalRoundsSurvive(cfg: Config, m: Machine)
    requires AllStages(cfg) && OnFinal(cfg, m, NVerifyFinal, 0)
    ensures Repeat(cfg, m, 2 * cfg.maxFinalRounds + 1).About?
  {
    var m1 := FinalTakesTwo(cfg, m, 0, 2 * cfg.maxFinalRounds + 1);
    assert 2 * cfg.maxFinalRounds + 1 - 2 * (cfg.maxFinalRounds - 0) - 1 == 0;
    assert Repeat(cfg, m1, 0) == m1;
  }

  /** With final revisions the longest run also spends all of them. */
  lemma {:induction false} SlowestWithRevision(cfg: Config, m: Machine)
    requires AllStages(cfg) && OnTask(cfg, m, NResearch, 0, 0) && cfg.maxFinalRounds > 0 && cfg.maxVerifierRounds >= 2
    ensures Repeat(cfg, m, 4 * cfg.maxVerifierRounds + 2 * cfg.maxFinalRounds + 2).About?
  {
    hide OnTask, Repeat;
    var last, n := cfg.maxVerifierRounds - 1, 4 * cfg.maxVerifierRounds + 2 * cfg.maxFinalRounds + 2;
    var m1 := TasksTakeFour(cfg, m, 0, last, n);
    assert n - 4 * (last - 0) == 2 * cfg.maxFinalRounds + 6;
    LastTaskAndFinal(cfg, m1, last);
  }

  lemma {:induction false} SlowestRun(cfg: Config, m: Machine)
    requires AllStages(cfg) && OnTask(cfg, m, NResearch, 0, 0)
    ensures Repeat(cfg, m, Bound(cfg) - 2).About?
  {
    hide OnTask, Repeat;
    if cfg.maxFinalRounds == 0 || cfg.maxVerifierRounds < 2 {
      SlowestWithoutRevision(cfg, m);
      assert Bound(cfg) - 2 == 4 * cfg.maxVerifierRounds + 3;
    } else {
      SlowestWithRevision(cfg, m);
      assert Bound(cfg) - 2 == 4 * cfg.maxVerifierRounds + 2 * cfg.maxFinalRounds + 2;
    }
  }

  lemma {:induction false} SlowestStart(cfg: Config, runId: string, message: string)
    requires AllStages(cfg)
    ensures Repeat(cfg, Start(runId, message), Bound(cfg) - 1).About?
  {
    var m := PlanStarts(cfg, runId, message, Bound(cfg) - 1);
    SlowestRun(cfg, m);
  }

  /** With every stage enabled, some run still has a node to execute after all but one node of the bound. */
  lemma {:induction false} BoundIsAttained(cfg: Config, runId: string, message: string) returns (answers: seq<Answers>)
    requires AllStages(cfg)
    ensures AllWellTyped(answers) && |answers| == Bound(cfg) - 1
    ensures Execute(cfg, Start(runId, message), answers).About?
  {
    answers := Times(Slowest(cfg), Bound(cfg) - 1);
    assert WellTyped(Slowest(cfg));
    SlowestStart(cfg, runId, message);
  }
}
