/** The execution meter of one run, charged by interleaved model operations and tool calls. */
module ExecutionMeter {
  import opened Prelude

  datatype Limits = Limits(maxModelCalls: nat, maxToolCalls: nat, maxVerifierRounds: nat, deadline: int)

  /** The counters of the meter's state that limits and totals speak about. */
  datatype Meter = Meter(
    logical: nat,
    physical: nat,
    successes: nat,
    failures: nat,
    fallbacks: nat,
    toolAttempts: nat,
    toolSuccesses: nat,
    toolFailures: nat,
    toolTimeouts: nat,
    verifierRounds: nat)

  const ZERO := Meter(0, 0, 0, 0, 0, 0, 0, 0, 0, 0)

  datatype Excess = Deadline | ModelCalls | ToolCalls | VerifierRounds

  /** `check`: what, if anything, it raises about. */
  function Check(m: Meter, l: Limits, now: int): Option<Excess> {
    if now >= l.deadline then Some(Deadline)
    else if m.physical > l.maxModelCalls then Some(ModelCalls)
    else if m.toolAttempts > l.maxToolCalls then Some(ToolCalls)
    else if m.verifierRounds > l.maxVerifierRounds then Some(VerifierRounds)
    else None
  }

  function OnRecordLogical(m: Meter, l: Limits, now: int): Result<Meter, Excess> {
    match Check(m, l, now)
    case Some(e) => Err(e)
    case None => Ok(m.(logical := m.logical + 1))
  }

  /** `begin_model_attempt` in a scope that has made `attempts` attempts; an explicit flag overrules what that suggests. */
  function OnBeginModel(m: Meter, l: Limits, now: int, attempts: Option<nat>, fallback: Option<bool>): Result<Meter, Excess> {
    match Check(m, l, now)
    case Some(e) => Err(e)
    case None =>
      if m.physical >= l.maxModelCalls then Err(ModelCalls)
      else
        var again := if fallback.Some? then fallback.value else attempts.Some? && attempts.value > 0;
        Ok(m.(physical := m.physical + 1, fallbacks := if again then m.fallbacks + 1 else m.fallbacks))
  }

  function OnFinishModel(m: Meter, success: bool): Meter {
    if success then m.(successes := m.successes + 1) else m.(failures := m.failures + 1)
  }

  function OnBeginTool(m: Meter, l: Limits, now: int): Result<Meter, Excess> {
    match Check(m, l, now)
    case Some(e) => Err(e)
    case None =>
      if m.toolAttempts >= l.maxToolCalls then Err(ToolCalls) else Ok(m.(toolAttempts := m.toolAttempts + 1))
  }

  function OnFinishTool(m: Meter, success: bool, timedOut: bool): Meter {
    var n := if success then m.(toolSuccesses := m.toolSuccesses + 1) else m.(toolFailures := m.toolFailures + 1);
    if timedOut then n.(toolTimeouts := n.toolTimeouts + 1) else n
  }

  class ExecutionBudget {
    const limits: Limits
    var state: Meter

    constructor (limits: Limits)
      ensures this.limits == limits && state == ZERO
    {
      this.limits := limits;
      state := ZERO;
    }

    method BeginModelAttempt(now: int, attempts: Option<nat>, fallback: Option<bool>) returns (r: Result<Option<nat>, Excess>)
      modifies this
      ensures match OnBeginModel(old(state), limits, now, attempts, fallback)
              case Err(e) => r == Err(e) && state == old(state)
              case Ok(m) => state == m && r == Ok(if attempts.Some? then Some(attempts.value + 1) else None)
    {
      var excess := Check(state, limits, now);
      if excess.Some? {
        return Err(excess.value);
      }
      if state.physical >= limits.maxModelCalls {
        return Err(ModelCalls);
      }
      state := state.(physical := state.physical + 1);
      if fallback == Some(true) || (fallback.None? && attempts.Some? && attempts.value > 0) {
        state := state.(fallbacks := state.fallbacks + 1);
      }
      return Ok(if attempts.Some? then Some(attempts.value + 1) else None);
    }

    method FinishModelAttempt(success: bool)
      modifies this
      ensures state == OnFinishModel(old(state), success)
    {
      if success {
        state := state.(successes := state.successes + 1);
      } else {
        state := state.(failures := state.failures + 1);
      }
    }

    method BeginToolAttempt(now: int) returns (r: Result<(), Excess>)
      modifies this
      ensures match OnBeginTool(old(state), limits, now)
              case Err(e) => r == Err(e) && state == old(state)
              case Ok(m) => r == Ok(()) && state == m
    {
      var excess := Check(state, limits, now);
      if excess.Some? {
        return Err(excess.value);
      }
      if state.toolAttempts >= limits.maxToolCalls {
        return Err(ToolCalls);
      }
      state := state.(toolAttempts := state.toolAttempts + 1);
      return Ok(());
    }

    method FinishToolAttempt(success: bool, timedOut: bool)
      modifies this
      ensures state == OnFinishTool(old(state), success, timedOut)
    {
      if success {
        state := state.(toolSuccesses := state.toolSuccesses + 1);
      } else {
        state := state.(toolFailures := state.toolFailures + 1);
      }
      if timedOut {
        state := state.(toolTimeouts := state.toolTimeouts + 1);
      }
    }
  }

  /** The primary model, and the first configured other one that differs from it. */
  function StructuredModels(primary: string, general: string, fallback: string): (models: seq<string>)
    ensures 1 <= |models| <= 2 && models[0] == primary
    ensures |models| == 2 ==> models[1] != primary && models[1] != "" && (models[1] == general || models[1] == fallback)
    ensures |models| == 1 <==> (general == "" || general == primary) && (fallback == "" || fallback == primary)
  {
    if general != "" && general != primary then [primary, general]
    else if fallback != "" && fallback != primary then [primary, fallback]
    else [primary]
  }

  // ---- Operations and tool calls of one run, interleaved ----

  /** One logical model operation: the models it may try, how many attempts it has begun, and whether one is in flight. */
  datatype Op =
    | Unopened(models: seq<string>)
    | Refused
    | Ready(models: seq<string>, attempts: nat)
    | Flying(models: seq<string>, attempts: nat)
    | Closed(attempts: nat)

  datatype System = System(meter: Meter, ops: seq<Op>, toolsFlying: nat)

  datatype Event =
    | Open(i: nat, now: int)
    | Begin(i: nat, now: int)
    | Finish(i: nat, success: bool, usable: bool)
    | BeginTool(now: int)
    | FinishTool(success: bool, timedOut: bool)
    | VerifierRound

  predicate Enabled(s: System, e: Event) {
    match e
    case Open(i, _) => i < |s.ops| && s.ops[i].Unopened?
    case Begin(i, _) => i < |s.ops| && s.ops[i].Ready?
    case Finish(i, _, _) => i < |s.ops| && s.ops[i].Flying?
    case BeginTool(_) => true
    case FinishTool(success, timedOut) => s.toolsFlying > 0 && !(success && timedOut)
    case VerifierRound => true
  }

  /** The operation tries its next model only after an answer it could not use; any exception ends it. */
  function AfterAttempt(op: Op, success: bool, usable: bool): Op
    requires op.Flying?
  {
    if success && !usable && op.attempts < |op.models| then Ready(op.models, op.attempts) else Closed(op.attempts)
  }

  function Apply(s: System, e: Event, l: Limits): System
    requires Enabled(s, e)
  {
    match e
    case Open(i, now) =>
      (match OnRecordLogical(s.meter, l, now)
       case Err(_) => s.(ops := s.ops[i := Refused])
       case Ok(m) => s.(meter := m, ops := s.ops[i := Ready(s.ops[i].models, 0)]))
    case Begin(i, now) =>
      (match OnBeginModel(s.meter, l, now, Some(s.ops[i].attempts), None)
       case Err(_) => s.(ops := s.ops[i := Closed(s.ops[i].attempts)])
       case Ok(m) => s.(meter := m, ops := s.ops[i := Flying(s.ops[i].models, s.ops[i].attempts + 1)]))
    case Finish(i, success, usable) =>
      s.(meter := OnFinishModel(s.meter, success), ops := s.ops[i := AfterAttempt(s.ops[i], success, usable)])
    case BeginTool(now) =>
      (match OnBeginTool(s.meter, l, now)
       case Err(_) => s
       case Ok(m) => s.(meter := m, toolsFlying := s.toolsFlying + 1))
    case FinishTool(success, timedOut) =>
      s.(meter := OnFinishTool(s.meter, success, timedOut), toolsFlying := s.toolsFlying - 1)
    case VerifierRound => s.(meter := s.meter.(verifierRounds := s.meter.verifierRounds + 1))
  }

  predicate ValidRun(s: System, es: seq<Event>, l: Limits)
    decreases |es|
  {
    es != [] ==> Enabled(s, es[0]) && ValidRun(Apply(s, es[0], l), es[1..], l)
  }

  function After(s: System, es: seq<Event>, l: Limits): System
    requires ValidRun(s, es, l)
    decreases |es|
  {
    if es == [] then s else After(Apply(s, es[0], l), es[1..], l)
  }

  /** A run of operations each of which may try the models its agent is configured with. */
  function Initial(models: seq<seq<string>>): System {
    System(ZERO, seq(|models|, i requires 0 <= i < |models| => Unopened(models[i])), 0)
  }

  // ---- Totals over the operations ----

  datatype Measure = Opened | Attempts | InFlight | Extra

  function Of(op: Op, k: Measure): nat {
    match k
    case Opened => if op.Unopened? || op.Refused? then 0 else 1
    case Attempts => if op.Unopened? || op.Refused? then 0 else op.attempts
    case InFlight => if op.Flying? then 1 else 0
    case Extra => if op.Unopened? || op.Refused? || op.attempts == 0 then 0 else op.attempts - 1
  }

  function Sum(ops: seq<Op>, k: Measure): nat {
    if ops == [] then 0 else Of(ops[0], k) + Sum(ops[1..], k)
  }

  lemma {:induction false} SumMoves(ops: seq<Op>, i: nat, op: Op, k: Measure)
    requires i < |ops|
    ensures Sum(ops[i := op], k) == Sum(ops, k) - Of(ops[i], k) + Of(op, k)
    ensures Of(ops[i], k) <= Sum(ops, k)
  {
    var moved := ops[i := op];
    if i == 0 {
      assert moved[1..] == ops[1..];
    } else {
      SumMoves(ops[1..], i - 1, op, k);
      assert moved[1..] == ops[1..][i - 1 := op] && moved[0] == ops[0];
    }
  }

  /** What the agents guarantee: at most two models per operation, each attempt spends one. */
  predicate Bounded(op: Op) {
    match op
    case Unopened(models) => 1 <= |models| <= 2
    case Refused => true
    case Ready(models, attempts) => attempts < |models| <= 2
    case Flying(models, attempts) => 1 <= attempts <= |models| <= 2
    case Closed(attempts) => attempts <= 2
  }

  lemma {:induction false} AtMostTwiceOpened(ops: seq<Op>)
    requires forall op :: op in ops ==> Bounded(op)
    ensures Sum(ops, Attempts) <= 2 * Sum(ops, Opened)
  {
    if ops != [] {
      assert ops[0] in ops;
      AtMostTwiceOpened(ops[1..]);
    }
  }

  predicate AllBounded(ops: seq<Op>) {
    forall op :: op in ops ==> Bounded(op)
  }

  predicate ModelsConserved(s: System, l: Limits) {
    && s.meter.successes + s.meter.failures + Sum(s.ops, InFlight) == s.meter.physical
    && s.meter.physical == Sum(s.ops, Attempts)
    && s.meter.physical <= l.maxModelCalls
    && s.meter.fallbacks == Sum(s.ops, Extra)
    && s.meter.logical == Sum(s.ops, Opened)
  }

  predicate ToolsConserved(s: System, l: Limits) {
    && s.meter.toolSuccesses + s.meter.toolFailures + s.toolsFlying == s.meter.toolAttempts
    && s.meter.toolAttempts <= l.maxToolCalls
    && s.meter.toolTimeouts <= s.meter.toolFailures
  }

  /** How a step changes one total: by what its operation gains, nothing for tool calls and rounds. */
  lemma {:induction false} StepMoves(s: System, e: Event, l: Limits, k: Measure)
    requires Enabled(s, e)
    ensures var t := Apply(s, e, l);
      if e.Open? || e.Begin? || e.Finish?
      then Sum(t.ops, k) == Sum(s.ops, k) - Of(s.ops[e.i], k) + Of(t.ops[e.i], k)
      else t.ops == s.ops
  {
    if e.Open? || e.Begin? || e.Finish? {
      var op := Apply(s, e, l).ops[e.i];
      assert Apply(s, e, l).ops == s.ops[e.i := op];
      SumMoves(s.ops, e.i, op, k);
    }
  }

  /** The counters move with the operation: the meter charges exactly what the operation gained. */
  lemma {:induction false} StepCharges(s: System, e: Event, l: Limits)
    requires Enabled(s, e) && (e.Open? || e.Begin? || e.Finish?)
    ensures var m, n, op, op' := s.meter, Apply(s, e, l).meter, s.ops[e.i], Apply(s, e, l).ops[e.i];
      && n.logical - m.logical == Of(op', Opened) - Of(op, Opened)
      && n.physical - m.physical == Of(op', Attempts) - Of(op, Attempts)
      && n.fallbacks - m.fallbacks == Of(op', Extra) - Of(op, Extra)
      && n.successes + n.failures - m.successes - m.failures
         == n.physical - m.physical - (Of(op', InFlight) - Of(op, InFlight))
      && (n.physical <= m.physical || n.physical <= l.maxModelCalls)
  {
  }

  lemma {:induction false} StepKeepsModels(s: System, e: Event, l: Limits)
    requires ModelsConserved(s, l) && Enabled(s, e)
    ensures ModelsConserved(Apply(s, e, l), l)
  {
    StepMoves(s, e, l, Opened);
    StepMoves(s, e, l, Attempts);
    StepMoves(s, e, l, InFlight);
    StepMoves(s, e, l, Extra);
    if e.Open? || e.Begin? || e.Finish? {
      StepCharges(s, e, l);
    }
  }

  lemma {:induction false} StepKeepsTools(s: System, e: Event, l: Limits)
    requires ToolsConserved(s, l) && Enabled(s, e)
    ensures ToolsConserved(Apply(s, e, l), l)
  {
  }

  lemma {:induction false} StepKeepsBounded(s: System, e: Event, l: Limits)
    requires AllBounded(s.ops) && Enabled(s, e)
    ensures AllBounded(Apply(s, e, l).ops)
  {
    var t := Apply(s, e, l);
    forall op | op in t.ops ensures Bounded(op) {
      if op !in s.ops {
        assert s.ops[e.i] in s.ops && Bounded(s.ops[e.i]);
      }
    }
  }

  lemma {:induction false} RunKeepsAll(s: System, es: seq<Event>, l: Limits)
    requires ModelsConserved(s, l) && ToolsConserved(s, l) && AllBounded(s.ops) && ValidRun(s, es, l)
    ensures var t := After(s, es, l); ModelsConserved(t, l) && ToolsConserved(t, l) && AllBounded(t.ops)
    decreases |es|
  {
    if es != [] {
      StepKeepsModels(s, es[0], l);
      StepKeepsTools(s, es[0], l);
      StepKeepsBounded(s, es[0], l);
      RunKeepsAll(Apply(s, es[0], l), es[1..], l);
    }
  }

  lemma {:induction false} NothingOpened(ops: seq<Op>, k: Measure)
    requires forall op :: op in ops ==> op.Unopened?
    ensures Sum(ops, k) == 0
  {
    if ops != [] {
      assert ops[0] in ops;
      NothingOpened(ops[1..], k);
    }
  }

  /**
    * However operations and tool calls interleave, fail or run into a limit: attempts split into successes, failures and those
    * in flight, stay within the limits, count fallbacks per operation, and number at most two per logical operation.
    */
  lemma {:induction false} MeterConserved(models: seq<seq<string>>, es: seq<Event>, l: Limits)
    requires forall i :: 0 <= i < |models| ==> 1 <= |models[i]| <= 2
    requires ValidRun(Initial(models), es, l)
    ensures var s := After(Initial(models), es, l);
      && ModelsConserved(s, l) && ToolsConserved(s, l)
      && s.meter.physical <= 2 * s.meter.logical
  {
    var s := Initial(models);
    forall k: Measure ensures Sum(s.ops, k) == 0 {
      NothingOpened(s.ops, k);
    }
    assert AllBounded(s.ops);
    RunKeepsAll(s, es, l);
    AtMostTwiceOpened(After(s, es, l).ops);
  }

  /** So `check` never raises about calls: exactly the deadline and the verifier rounds can stop a run there. */
  lemma {:induction false} CheckNeverFiresOnCalls(models: seq<seq<string>>, es: seq<Event>, l: Limits, now: int)
    requires forall i :: 0 <= i < |models| ==> 1 <= |models[i]| <= 2
    requires ValidRun(Initial(models), es, l)
    ensures var m := After(Initial(models), es, l).meter;
      Check(m, l, now) == if now >= l.deadline then Some(Deadline)
                          else if m.verifierRounds > l.maxVerifierRounds then Some(VerifierRounds)
                          else None
  {
    MeterConserved(models, es, l);
  }
}
