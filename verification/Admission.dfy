/** Admission to the model server: a total limit, a smaller limit for heavy models, and counters that may drift under cancellation. */
module Admission {

  /** The manager's fields; `free` and `freeHeavy` are the semaphores' values. */
  datatype Counters = Counters(free: int, freeHeavy: int, active: int, activeHeavy: int, queued: int)

  // Each locked section runs without suspending, so it joins the grant before it into one step.

  function OnArrive(c: Counters): Counters {
    c.(queued := c.queued + 1)
  }

  function OnAdmitLight(c: Counters): Counters {
    c.(free := c.free - 1, queued := c.queued - 1, active := c.active + 1)
  }

  function OnTakeSlot(c: Counters): Counters {
    c.(free := c.free - 1)
  }

  function OnAdmitHeavy(c: Counters): Counters {
    c.(freeHeavy := c.freeHeavy - 1, queued := c.queued - 1, active := c.active + 1, activeHeavy := c.activeHeavy + 1)
  }

  /** The exception handler and the `finally` block, by what the request had acquired. */
  function OnLeave(c: Counters, stillQueued: bool, hasSlot: bool, hasHeavy: bool): Counters {
    var c1 := if stillQueued then c.(queued := c.queued - 1) else c;
    var c2 := if hasHeavy then c1.(activeHeavy := c1.activeHeavy - 1, freeHeavy := c1.freeHeavy + 1) else c1;
    if hasSlot then c2.(active := if c2.active > 0 then c2.active - 1 else c2.active, free := c2.free + 1) else c2
  }

  class OllamaResourceManager {
    const maxConcurrency: nat
    const maxHeavyConcurrency: nat
    var free: int
    var freeHeavy: int
    var active: int
    var activeHeavy: int
    var queued: int

    function Value(): Counters
      reads this
    {
      Counters(free, freeHeavy, active, activeHeavy, queued)
    }

    constructor (concurrency: int, heavyConcurrency: int)
      ensures maxConcurrency == (if concurrency < 1 then 1 else concurrency)
      ensures maxHeavyConcurrency == (if heavyConcurrency < 1 then 1 else heavyConcurrency)
      ensures Value() == Counters(maxConcurrency, maxHeavyConcurrency, 0, 0, 0)
    {
      maxConcurrency := if concurrency < 1 then 1 else concurrency;
      maxHeavyConcurrency := if heavyConcurrency < 1 then 1 else heavyConcurrency;
      free := maxConcurrency;
      freeHeavy := maxHeavyConcurrency;
      active, activeHeavy, queued := 0, 0, 0;
    }

    method Arrive()
      modifies this`queued
      ensures Value() == OnArrive(old(Value()))
    {
      queued := queued + 1;
    }

    method TakeSlot(heavy: bool)
      modifies this
      ensures Value() == if heavy then OnTakeSlot(old(Value())) else OnAdmitLight(old(Value()))
    {
      free := free - 1;
      if !heavy {
        queued := queued - 1;
        active := active + 1;
      }
    }

    method TakeHeavySlot()
      modifies this
      ensures Value() == OnAdmitHeavy(old(Value()))
    {
      freeHeavy := freeHeavy - 1;
      queued := queued - 1;
      active := active + 1;
      activeHeavy := activeHeavy + 1;
    }

    method Leave(stillQueued: bool, hasSlot: bool, hasHeavy: bool)
      modifies this
      ensures Value() == OnLeave(old(Value()), stillQueued, hasSlot, hasHeavy)
    {
      if stillQueued {
        queued := queued - 1;
      }
      if hasHeavy {
        activeHeavy := activeHeavy - 1;
        freeHeavy := freeHeavy + 1;
      }
      if hasSlot {
        if active > 0 {
          active := active - 1;
        }
        free := free + 1;
      }
    }
  }

  // ---- Requests, cancelled at any wait or inside their body ----

  datatype Phase = Outside | Waiting(heavy: bool) | WaitingHeavy | Running(heavy: bool) | Gone

  datatype System = System(counters: Counters, phases: seq<Phase>)

  datatype Event =
    | Arrive(i: nat, heavy: bool)
    | GrantSlot(i: nat)
    | GrantHeavy(i: nat)
    | CancelWaiting(i: nat)
    | Finish(i: nat)

  predicate Enabled(s: System, e: Event) {
    && e.i < |s.phases|
    && match e
       case Arrive(i, _) => s.phases[i].Outside?
       case GrantSlot(i) => s.phases[i].Waiting? && s.counters.free > 0
       case GrantHeavy(i) => s.phases[i].WaitingHeavy? && s.counters.freeHeavy > 0
       case CancelWaiting(i) => s.phases[i].Waiting? || s.phases[i].WaitingHeavy?
       case Finish(i) => s.phases[i].Running?
  }

  function Apply(s: System, e: Event): System
    requires Enabled(s, e)
  {
    match e
    case Arrive(i, heavy) => System(OnArrive(s.counters), s.phases[i := Waiting(heavy)])
    case GrantSlot(i) =>
      if s.phases[i].heavy
      then System(OnTakeSlot(s.counters), s.phases[i := WaitingHeavy])
      else System(OnAdmitLight(s.counters), s.phases[i := Running(false)])
    case GrantHeavy(i) => System(OnAdmitHeavy(s.counters), s.phases[i := Running(true)])
    case CancelWaiting(i) => System(OnLeave(s.counters, true, s.phases[i].WaitingHeavy?, false), s.phases[i := Gone])
    case Finish(i) => System(OnLeave(s.counters, false, true, s.phases[i].heavy), s.phases[i := Gone])
  }

  function Initial(requests: nat, limit: nat, heavyLimit: nat): System {
    System(Counters(limit, heavyLimit, 0, 0, 0), seq(requests, _ => Outside))
  }

  predicate ValidRun(s: System, es: seq<Event>)
    decreases |es|
  {
    es != [] ==> Enabled(s, es[0]) && ValidRun(Apply(s, es[0]), es[1..])
  }

  function After(s: System, es: seq<Event>): System
    requires ValidRun(s, es)
    decreases |es|
  {
    if es == [] then s else After(Apply(s, es[0]), es[1..])
  }

  datatype Kind = ForSlot | ForHeavy | Light | Heavy

  predicate Is(p: Phase, k: Kind) {
    match k
    case ForSlot => p.Waiting?
    case ForHeavy => p.WaitingHeavy?
    case Light => p == Running(false)
    case Heavy => p == Running(true)
  }

  /** How many requests wait for a slot, wait for the heavy slot, or run. */
  function N(phases: seq<Phase>, k: Kind): nat {
    if phases == [] then 0 else (if Is(phases[0], k) then 1 else 0) + N(phases[1..], k)
  }

  function Queued(s: System): nat {
    N(s.phases, ForSlot) + N(s.phases, ForHeavy)
  }

  function Admitted(s: System): nat {
    N(s.phases, Light) + N(s.phases, Heavy)
  }

  function AdmittedHeavy(s: System): nat {
    N(s.phases, Heavy)
  }

  /** Slots and holders are conserved, the queue and the heavy count are exact, the active count never too high. */
  predicate Conserved(s: System, limit: nat, heavyLimit: nat) {
    && s.counters.free >= 0
    && s.counters.freeHeavy >= 0
    && s.counters.free + Admitted(s) + N(s.phases, ForHeavy) == limit
    && s.counters.freeHeavy + AdmittedHeavy(s) == heavyLimit
    && s.counters.queued == Queued(s)
    && s.counters.activeHeavy == AdmittedHeavy(s)
    && 0 <= s.counters.active <= Admitted(s)
  }

  /** How many admitted requests the active count misses. */
  function Missing(s: System): int {
    Admitted(s) - s.counters.active
  }

  /** The one step that loses count: a request cancelled while it waits for the heavy slot, others being active. */
  predicate LosesCount(s: System, e: Event) {
    Enabled(s, e) && e.CancelWaiting? && s.phases[e.i].WaitingHeavy? && s.counters.active > 0
  }

  /** The one step that makes up for it: a request finishing when the count already reads zero. */
  predicate RegainsCount(s: System, e: Event) {
    Enabled(s, e) && e.Finish? && s.counters.active <= 0
  }

  /** A request that changes phase is counted where it goes and no longer where it was. */
  lemma {:induction false} Moves(phases: seq<Phase>, i: nat, p: Phase, k: Kind)
    requires i < |phases|
    ensures N(phases[i := p], k) == N(phases, k) - (if Is(phases[i], k) then 1 else 0) + (if Is(p, k) then 1 else 0)
    ensures Is(phases[i], k) ==> N(phases, k) > 0
  {
    var moved := phases[i := p];
    if i == 0 {
      assert moved[1..] == phases[1..];
    } else {
      Moves(phases[1..], i - 1, p, k);
      assert moved[1..] == phases[1..][i - 1 := p] && moved[0] == phases[0];
    }
  }

  lemma {:induction false} StepConserves(s: System, e: Event, limit: nat, heavyLimit: nat)
    requires Conserved(s, limit, heavyLimit) && Enabled(s, e)
    ensures Conserved(Apply(s, e), limit, heavyLimit)
    ensures Missing(Apply(s, e)) == Missing(s) + (if LosesCount(s, e) then 1 else 0) - (if RegainsCount(s, e) then 1 else 0)
  {
    var p := Apply(s, e).phases[e.i];
    assert Apply(s, e).phases == s.phases[e.i := p];
    Moves(s.phases, e.i, p, ForSlot);
    Moves(s.phases, e.i, p, ForHeavy);
    Moves(s.phases, e.i, p, Light);
    Moves(s.phases, e.i, p, Heavy);
  }

  /** Signed number of steps that lose and regain count along a run. */
  function Drift(s: System, es: seq<Event>): int
    requires ValidRun(s, es)
    decreases |es|
  {
    if es == [] then 0
    else (if LosesCount(s, es[0]) then 1 else 0) - (if RegainsCount(s, es[0]) then 1 else 0) + Drift(Apply(s, es[0]), es[1..])
  }

  lemma {:induction false} RunConserves(s: System, es: seq<Event>, limit: nat, heavyLimit: nat)
    requires Conserved(s, limit, heavyLimit) && ValidRun(s, es)
    ensures Conserved(After(s, es), limit, heavyLimit)
    ensures Missing(After(s, es)) == Missing(s) + Drift(s, es)
    decreases |es|
  {
    if es != [] {
      StepConserves(s, es[0], limit, heavyLimit);
      RunConserves(Apply(s, es[0]), es[1..], limit, heavyLimit);
    }
  }

  lemma {:induction false} Nobody(phases: seq<Phase>, k: Kind)
    requires forall p :: p in phases ==> !Is(p, k)
    ensures N(phases, k) == 0
  {
    if phases != [] {
      assert phases[0] in phases;
      Nobody(phases[1..], k);
    }
  }

  /** From the start, under any schedule: both limits hold, and the active count is exact if and only if losses and gains cancel. */
  lemma {:induction false} LimitsHold(requests: nat, limit: nat, heavyLimit: nat, es: seq<Event>)
    requires ValidRun(Initial(requests, limit, heavyLimit), es)
    ensures var s0 := Initial(requests, limit, heavyLimit);
      var s := After(s0, es);
      && Conserved(s, limit, heavyLimit)
      && Admitted(s) <= limit && AdmittedHeavy(s) <= heavyLimit
      && (s.counters.active == Admitted(s) <==> Drift(s0, es) == 0)
  {
    forall k: Kind ensures N(Initial(requests, limit, heavyLimit).phases, k) == 0 {
      Nobody(Initial(requests, limit, heavyLimit).phases, k);
    }
    RunConserves(Initial(requests, limit, heavyLimit), es, limit, heavyLimit);
  }

  predicate NeverCancelsHeavyWait(s: System, es: seq<Event>)
    requires ValidRun(s, es)
    decreases |es|
  {
    es != [] ==> !LosesCount(s, es[0]) && NeverCancelsHeavyWait(Apply(s, es[0]), es[1..])
  }

  lemma {:induction false} FinishingMeansAdmitted(s: System, e: Event)
    requires Enabled(s, e) && e.Finish?
    ensures Admitted(s) > 0
  {
    Moves(s.phases, e.i, Gone, if s.phases[e.i].heavy then Heavy else Light);
  }

  /** No cancellation at the heavy wait: the active count stays exact. */
  lemma {:induction false} ExactWithoutHeavyCancel(s: System, es: seq<Event>, limit: nat, heavyLimit: nat)
    requires Conserved(s, limit, heavyLimit) && s.counters.active == Admitted(s)
    requires ValidRun(s, es) && NeverCancelsHeavyWait(s, es)
    ensures After(s, es).counters.active == Admitted(After(s, es))
    decreases |es|
  {
    if es != [] {
      StepConserves(s, es[0], limit, heavyLimit);
      if es[0].Finish? {
        FinishingMeansAdmitted(s, es[0]);
      }
      ExactWithoutHeavyCancel(Apply(s, es[0]), es[1..], limit, heavyLimit);
    }
  }

  lemma {:induction false} OneMore(s: System, es: seq<Event>, e: Event)
    requires ValidRun(s, es) && Enabled(After(s, es), e)
    ensures ValidRun(s, es + [e]) && After(s, es + [e]) == Apply(After(s, es), e)
    decreases |es|
  {
    if es == [] {
      assert (es + [e])[1..] == [];
    } else {
      assert (es + [e])[1..] == es[1..] + [e];
      OneMore(Apply(s, es[0]), es[1..], e);
    }
  }

  /** Two slots and one heavy: a second heavy request gives up its wait while the first runs, and nothing reads as active. */
  lemma {:induction false} CountLostByHeavyCancel()
    ensures var s := Initial(2, 2, 1);
      var es := [Arrive(0, true), GrantSlot(0), GrantHeavy(0), Arrive(1, true), GrantSlot(1), CancelWaiting(1)];
      ValidRun(s, es) && After(s, es) == System(Counters(1, 0, 0, 1, 0), [Running(true), Gone])
  {
    var s := Initial(2, 2, 1);
    assert s.phases == [Outside, Outside];
    var first, second := [Arrive(0, true), GrantSlot(0), GrantHeavy(0)], [Arrive(1, true), GrantSlot(1), CancelWaiting(1)];
    Three(s, first[0], first[1], first[2]);
    var t := System(Counters(1, 0, 1, 1, 0), [Running(true), Outside]);
    assert After(s, first) == t;
    Three(t, second[0], second[1], second[2]);
    Joined(s, first, second);
    assert first + second == [Arrive(0, true), GrantSlot(0), GrantHeavy(0), Arrive(1, true), GrantSlot(1), CancelWaiting(1)];
  }

  lemma {:induction false} Three(s: System, a: Event, b: Event, c: Event)
    requires Enabled(s, a) && Enabled(Apply(s, a), b) && Enabled(Apply(Apply(s, a), b), c)
    ensures ValidRun(s, [a, b, c]) && After(s, [a, b, c]) == Apply(Apply(Apply(s, a), b), c)
  {
    OneMore(s, [], a);
    OneMore(s, [a], b);
    OneMore(s, [a, b], c);
    assert [a] + [b] == [a, b] && [a, b] + [c] == [a, b, c];
  }

  lemma {:induction false} Joined(s: System, first: seq<Event>, second: seq<Event>)
    requires ValidRun(s, first) && ValidRun(After(s, first), second)
    ensures ValidRun(s, first + second) && After(s, first + second) == After(After(s, first), second)
    decreases |first|
  {
    if first == [] {
      assert first + second == second;
    } else {
      assert (first + second)[1..] == first[1..] + second;
      Joined(Apply(s, first[0]), first[1..], second);
    }
  }

  predicate Present(p: Phase) {
    p.Waiting? || p.WaitingHeavy? || p.Running?
  }

  /** Two nested waits never deadlock: while anyone is inside, someone can be granted a slot or finish. */
  lemma {:induction false} SomeoneMoves(s: System, limit: nat, heavyLimit: nat, i: nat)
    requires Conserved(s, limit, heavyLimit) && limit > 0 && heavyLimit > 0
    requires i < |s.phases| && Present(s.phases[i])
    ensures exists e: Event :: Enabled(s, e) && (e.GrantSlot? || e.GrantHeavy? || e.Finish?)
  {
    if j: nat :| j < |s.phases| && s.phases[j].Running? {
      assert Enabled(s, Finish(j));
    } else {
      Nobody(s.phases, Light);
      Nobody(s.phases, Heavy);
      if j: nat :| j < |s.phases| && s.phases[j].WaitingHeavy? {
        assert Enabled(s, GrantHeavy(j));
      } else {
        Nobody(s.phases, ForHeavy);
        assert Enabled(s, GrantSlot(i));
      }
    }
  }
}
