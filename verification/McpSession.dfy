/** MCP session establishment: one handshake at a time, and recovery of an expired session by the callers that saw it expire. */
module McpSession {
  import opened Prelude

  /** What the server answers to `initialize`; a missing or non-string version is `None`. */
  datatype Hello = Hello(version: Option<string>, sessionId: string, serverInfo: Option<string>, capabilities: Option<string>)

  datatype Session = Session(
    initialized: bool,
    id: Option<string>,
    version: Option<string>,
    serverInfo: Option<string>,
    capabilities: Option<string>)

  const BLANK := Session(false, None, None, None, None)

  /** The manager's mutable fields; its lock belongs to the scheduler below. */
  datatype Manager = Manager(session: Session, generation: nat)

  function OnReset(m: Manager): Manager {
    Manager(BLANK, m.generation + 1)
  }

  /** The locked section of `recover_expired` up to its handshake: the flag says the session is reused. */
  function OnRecover(m: Manager, observed: nat): (Manager, bool) {
    if m.session.initialized && m.generation != observed then (m, true) else (OnReset(m), false)
  }

  predicate Acceptable(hello: Hello, supported: set<string>) {
    hello.version.Some? && hello.version.value != "" && hello.version.value in supported
  }

  /** The answer to `initialize` arrived. */
  function OnHello(m: Manager, hello: Hello, supported: set<string>): (Manager, bool) {
    if Acceptable(hello, supported) then
      var id := if hello.sessionId == "" then None else Some(hello.sessionId);
      (m.(session := Session(false, id, hello.version, hello.serverInfo, hello.capabilities)), true)
    else
      (OnReset(m), false)
  }

  /** The initialized notification was accepted. */
  function OnConfirmed(m: Manager): Manager {
    Manager(m.session.(initialized := true), m.generation + 1)
  }

  class MCPSessionManager {
    const supported: set<string>
    var state: Session
    var generation: nat

    function Value(): Manager
      reads this
    {
      Manager(state, generation)
    }

    constructor (supported: set<string>)
      ensures this.supported == supported && Value() == Manager(BLANK, 0)
    {
      this.supported := supported;
      state, generation := BLANK, 0;
    }

    method Reset()
      modifies this
      ensures Value() == OnReset(old(Value()))
    {
      state := BLANK;
      generation := generation + 1;
    }

    method BeginRecovery(observed: nat) returns (reused: bool)
      modifies this
      ensures (Value(), reused) == OnRecover(old(Value()), observed)
    {
      if state.initialized && generation != observed {
        return true;
      }
      Reset();
      return false;
    }

    method Negotiate(hello: Hello) returns (accepted: bool)
      modifies this
      ensures (Value(), accepted) == OnHello(old(Value()), hello, supported)
    {
      if hello.version == None || hello.version.value == "" || hello.version.value !in supported {
        Reset();
        return false;
      }
      state := Session(false, if hello.sessionId == "" then None else Some(hello.sessionId),
                       hello.version, hello.serverInfo, hello.capabilities);
      return true;
    }

    method Confirm()
      modifies this
      ensures Value() == OnConfirmed(old(Value()))
    {
      state := state.(initialized := true);
      generation := generation + 1;
    }
  }

  // ---- Callers of one client, interleaved at every await ----

  datatype Why = ToSend | ToRecover

  datatype Pc =
    | Fresh
    | AwaitingLock(why: Why, observed: nat)
    | Initializing(why: Why)
    | Notifying(why: Why)
    | Sending(observed: nat)
    | Retrying
    | Finished(ok: bool)

  /** What went over the wire: who sent it, its request id where it has one, and the session header. */
  datatype Wire =
    | Initialize(caller: nat, id: nat, header: Option<string>)
    | Initialized(caller: nat, header: Option<string>)
    | Call(caller: nat, id: nat, header: Option<string>)

  datatype System = System(
    manager: Manager,
    supported: set<string>,
    holder: Option<nat>,
    pcs: seq<Pc>,
    retries: seq<bool>,
    lastId: nat,
    wire: seq<Wire>,
    established: seq<nat>)

  datatype Event =
    | Start(i: nat)
    | TakeLock(i: nat)
    | Answered(i: nat, hello: Hello)
    | Notified(i: nat)
    | HandshakeFails(i: nat)
    | Replies(i: nat)
    | SendFails(i: nat, gone: bool)
    | Cancel(i: nat)

  function At(s: System, i: nat, pc: Pc): System
    requires i < |s.pcs|
  {
    s.(pcs := s.pcs[i := pc])
  }

  /** A caller's request leaves under the next request id and the session header of this instant. */
  function SendCall(s: System, i: nat, pc: Pc): System
    requires i < |s.pcs|
  {
    At(s.(lastId := s.lastId + 1, wire := s.wire + [Call(i, s.lastId + 1, s.manager.session.id)]), i, pc)
  }

  function SendInitialize(s: System, i: nat, why: Why): System
    requires i < |s.pcs|
  {
    At(s.(holder := Some(i), lastId := s.lastId + 1,
          wire := s.wire + [Initialize(i, s.lastId + 1, s.manager.session.id)]), i, Initializing(why))
  }

  /** What follows a successful `recover_expired`: replay if the operation is safe to replay, else raise. */
  function Recovered(s: System, i: nat): System
    requires i < |s.pcs| == |s.retries|
  {
    if s.retries[i] then SendCall(s, i, Retrying) else At(s, i, Finished(false))
  }

  /** What follows the lock or the handshake, the session being live. */
  function Proceed(s: System, i: nat, why: Why): System
    requires i < |s.pcs| == |s.retries|
  {
    match why
    case ToSend => SendCall(s, i, Sending(s.manager.generation))
    case ToRecover => Recovered(s, i)
  }

  predicate Enabled(s: System, e: Event) {
    && |s.pcs| == |s.retries|
    && e.i < |s.pcs|
    && var pc := s.pcs[e.i];
      match e
      case Start(_) => pc.Fresh?
      case TakeLock(_) => pc.AwaitingLock? && s.holder.None?
      case Answered(_, _) => pc.Initializing?
      case Notified(_) => pc.Notifying?
      case HandshakeFails(_) => pc.Initializing? || pc.Notifying?
      case Replies(_) => pc.Sending? || pc.Retrying?
      case SendFails(_, _) => pc.Sending? || pc.Retrying?
      case Cancel(_) => !pc.Finished?
  }

  function OnTakeLock(s: System, i: nat): System
    requires i < |s.pcs| == |s.retries| && s.pcs[i].AwaitingLock?
  {
    match s.pcs[i].why
    case ToSend =>
      if s.manager.session.initialized then Proceed(s, i, ToSend) else SendInitialize(s, i, ToSend)
    case ToRecover =>
      var (m, reused) := OnRecover(s.manager, s.pcs[i].observed);
      if reused then Recovered(s, i) else SendInitialize(s.(manager := m), i, ToRecover)
  }

  function Apply(s: System, e: Event): System
    requires Enabled(s, e)
  {
    match e
    case Start(i) =>
      if s.manager.session.initialized then Proceed(s, i, ToSend) else At(s, i, AwaitingLock(ToSend, 0))
    case TakeLock(i) => OnTakeLock(s, i)
    case Answered(i, hello) =>
      var (m, accepted) := OnHello(s.manager, hello, s.supported);
      if accepted then
        At(s.(manager := m, wire := s.wire + [Initialized(i, m.session.id)]), i, Notifying(s.pcs[i].why))
      else
        At(s.(manager := m, holder := None), i, Finished(false))
    case Notified(i) =>
      var m := OnConfirmed(s.manager);
      Proceed(s.(manager := m, holder := None, established := s.established + [m.generation]), i, s.pcs[i].why)
    case HandshakeFails(i) => At(s.(manager := OnReset(s.manager), holder := None), i, Finished(false))
    case Replies(i) => At(s, i, Finished(true))
    case SendFails(i, gone) =>
      if gone && s.pcs[i].Sending? && s.manager.session.id.Some?
      then At(s, i, AwaitingLock(ToRecover, s.pcs[i].observed))
      else At(s, i, Finished(false))
    case Cancel(i) => At(s.(holder := if s.holder == Some(i) then None else s.holder), i, Finished(false))
  }

  function Initial(retries: seq<bool>, supported: set<string>): System {
    System(Manager(BLANK, 0), supported, None, seq(|retries|, _ => Fresh), retries, 0, [], [])
  }

  predicate ValidRun(s: System, es: seq<Event>)
    decreases |es|
  {
    es != [] ==> Enabled(s, es[0]) && ValidRun(Apply(s, es[0]), es[1..])
  }

  function After(s: System, es: seq<Event>): System
    requires ValidRun(s, es)
    decreases |es|
  {
    if es == [] then s else After(Apply(s, es[0]), es[1..])
  }

  // ---- What every run keeps ----

  predicate InHandshake(pc: Pc) {
    pc.Initializing? || pc.Notifying?
  }

  predicate Observes(pc: Pc) {
    pc.Sending? || (pc.AwaitingLock? && pc.why == ToRecover)
  }

  /** The lock is held exactly by the caller in a handshake, and what a caller observed was a real session. */
  predicate CallerFits(s: System, i: nat)
    requires i < |s.pcs|
  {
    && (InHandshake(s.pcs[i]) <==> s.holder == Some(i))
    && (Observes(s.pcs[i]) ==> s.pcs[i].observed in s.established)
  }

  predicate Callers(s: System) {
    && |s.pcs| == |s.retries|
    && (s.holder.Some? ==> s.holder.value < |s.pcs|)
    && forall i :: 0 <= i < |s.pcs| ==> CallerFits(s, i)
  }

  /** Every established session has its own generation, and the live one has the current generation. */
  predicate Generations(s: System) {
    && (forall j, k :: 0 <= j < k < |s.established| ==> s.established[j] < s.established[k])
    && (s.established != [] ==> s.established[|s.established| - 1] <= s.manager.generation)
    && (s.manager.session.initialized ==> s.established != [] && s.established[|s.established| - 1] == s.manager.generation)
  }

  predicate Ids(s: System) {
    forall j :: 0 <= j < |s.wire| && !s.wire[j].Initialized? ==> s.wire[j].id <= s.lastId
  }

  predicate DistinctIds(wire: seq<Wire>) {
    forall j, k :: 0 <= j < k < |wire| && !wire[j].Initialized? && !wire[k].Initialized? ==> wire[j].id < wire[k].id
  }

  predicate Coherent(s: System) {
    && Callers(s)
    && Generations(s)
    && (s.holder.Some? ==> !s.manager.session.initialized)
    && Ids(s)
    && DistinctIds(s.wire)
  }

  lemma {:induction false} StepKeepsCallers(s: System, e: Event)
    requires Coherent(s) && Enabled(s, e)
    ensures Callers(Apply(s, e))
  {
    var t := Apply(s, e);
    forall i | 0 <= i < |t.pcs| ensures CallerFits(t, i) {
      assert CallerFits(s, i) && CallerFits(s, e.i);
    }
  }

  lemma {:induction false} StepKeepsGenerations(s: System, e: Event)
    requires Coherent(s) && Enabled(s, e)
    ensures Generations(Apply(s, e))
  {
    assert CallerFits(s, e.i);
  }

  /** A step sends at most one message; a numbered one takes the next request id. */
  lemma {:induction false} StepSends(s: System, e: Event)
    requires Enabled(s, e)
    ensures var t := Apply(s, e);
      || (t.wire == s.wire && t.lastId == s.lastId)
      || (|t.wire| == |s.wire| + 1 && t.wire[..|s.wire|] == s.wire
          && var w := t.wire[|s.wire|];
             if w.Initialized? then t.lastId == s.lastId else w.id == t.lastId == s.lastId + 1)
  {
  }

  lemma {:induction false} StepKeepsIds(s: System, e: Event)
    requires Ids(s) && DistinctIds(s.wire) && Enabled(s, e)
    ensures Ids(Apply(s, e)) && DistinctIds(Apply(s, e).wire)
  {
    StepSends(s, e);
    var t := Apply(s, e);
    assert t.wire != s.wire ==> forall j :: 0 <= j < |s.wire| ==> t.wire[j] == s.wire[j];
  }

  lemma {:induction false} StepKeepsCoherent(s: System, e: Event)
    requires Coherent(s) && Enabled(s, e)
    ensures Coherent(Apply(s, e))
  {
    StepKeepsCallers(s, e);
    StepKeepsGenerations(s, e);
    StepKeepsIds(s, e);
    assert CallerFits(s, e.i);
  }

  lemma {:induction false} RunKeepsCoherent(s: System, es: seq<Event>)
    requires Coherent(s) && ValidRun(s, es)
    ensures Coherent(After(s, es))
    decreases |es|
  {
    if es != [] {
      StepKeepsCoherent(s, es[0]);
      RunKeepsCoherent(Apply(s, es[0]), es[1..]);
    }
  }

  /** Whatever the schedule, sessions have distinct generations and requests distinct ids. */
  lemma {:induction false} SessionsAndRequestsAreDistinct(retries: seq<bool>, supported: set<string>, es: seq<Event>)
    requires ValidRun(Initial(retries, supported), es)
    ensures var s := After(Initial(retries, supported), es);
      && (forall j, k :: 0 <= j < k < |s.established| ==> s.established[j] < s.established[k])
      && DistinctIds(s.wire)
  {
    RunKeepsCoherent(Initial(retries, supported), es);
  }

  // ---- What a live session is good for ----

  /** A recorded version is a supported one, and there is one from the server's answer on. */
  predicate Negotiated(s: System) {
    var session := s.manager.session;
    && (session.version.Some? ==> session.version.value != "" && session.version.value in s.supported)
    && (session.initialized ==> session.version.Some?)
    && (s.holder.Some? && s.holder.value < |s.pcs| && s.pcs[s.holder.value].Notifying? ==> session.version.Some?)
  }

  lemma {:induction false} StepKeepsNegotiated(s: System, e: Event)
    requires Coherent(s) && Negotiated(s) && Enabled(s, e)
    ensures Negotiated(Apply(s, e)) && Apply(s, e).supported == s.supported
  {
    assert CallerFits(s, e.i);
  }

  lemma {:induction false} RunKeepsNegotiated(s: System, es: seq<Event>)
    requires Coherent(s) && Negotiated(s) && ValidRun(s, es)
    ensures Negotiated(After(s, es)) && After(s, es).supported == s.supported
    decreases |es|
  {
    if es != [] {
      StepKeepsCoherent(s, es[0]);
      StepKeepsNegotiated(s, es[0]);
      RunKeepsNegotiated(Apply(s, es[0]), es[1..]);
    }
  }

  /** Under every schedule a live session speaks a supported version, whatever the server selects. */
  lemma {:induction false} LiveSessionsAreSupported(retries: seq<bool>, supported: set<string>, es: seq<Event>)
    requires ValidRun(Initial(retries, supported), es)
    ensures var session := After(Initial(retries, supported), es).manager.session;
      session.initialized ==> session.version.Some? && session.version.value != "" && session.version.value in supported
  {
    RunKeepsNegotiated(Initial(retries, supported), es);
  }

  /** A call leaves exactly when a caller starts or resumes under a live session, and carries that session's header. */
  lemma {:induction false} CallsLeaveUnderLiveSession(s: System, e: Event)
    requires Coherent(s) && Enabled(s, e) && InFlight(Apply(s, e).pcs[e.i])
    ensures var t := Apply(s, e);
      && t.manager.session.initialized && t.wire != []
      && t.wire[|t.wire| - 1] == Call(e.i, t.lastId, t.manager.session.id)
      && (t.pcs[e.i].Sending? ==> t.pcs[e.i].observed == t.manager.generation)
  {
    assert CallerFits(s, e.i);
  }

  // ---- Who may end a live session ----

  /** A live session ends exactly when a recoverer that observed this very session gets the lock; nothing else touches it. */
  lemma {:induction false} LiveSessionEndsExactly(s: System, e: Event)
    requires Coherent(s) && Enabled(s, e) && s.manager.session.initialized
    ensures (Apply(s, e).manager != s.manager) <==> (e.TakeLock? && s.pcs[e.i] == AwaitingLock(ToRecover, s.manager.generation))
    ensures s.manager.generation <= Apply(s, e).manager.generation
  {
    assert CallerFits(s, e.i);
  }

  lemma {:induction false} GenerationNeverDecreases(s: System, es: seq<Event>)
    requires ValidRun(s, es)
    ensures s.manager.generation <= After(s, es).manager.generation
    decreases |es|
  {
    if es != [] {
      GenerationNeverDecreases(Apply(s, es[0]), es[1..]);
    }
  }

  // ---- Single flight ----

  /** In the run, only callers that observed generation g are told their session is gone. */
  predicate OnlyExpires(s: System, es: seq<Event>, g: nat)
    requires ValidRun(s, es)
    decreases |es|
  {
    es != [] ==>
      && (es[0].SendFails? && es[0].gone && s.pcs[es[0].i].Sending? ==> s.pcs[es[0].i].observed == g)
      && OnlyExpires(Apply(s, es[0]), es[1..], g)
  }

  predicate RecoversOnly(s: System, g: nat) {
    forall i :: 0 <= i < |s.pcs| && s.pcs[i].AwaitingLock? && s.pcs[i].why == ToRecover ==> s.pcs[i].observed == g
  }

  /** Once a newer session is live, observers of the old one reuse it for ever. */
  lemma {:induction false} NewSessionStays(s: System, es: seq<Event>, g: nat)
    requires Coherent(s) && ValidRun(s, es) && OnlyExpires(s, es, g) && RecoversOnly(s, g)
    requires s.manager.session.initialized && g < s.manager.generation
    ensures After(s, es).established == s.established && After(s, es).manager == s.manager
    decreases |es|
  {
    if es != [] {
      StepKeepsCoherent(s, es[0]);
      assert CallerFits(s, es[0].i);
      LiveSessionEndsExactly(s, es[0]);
      NewSessionStays(Apply(s, es[0]), es[1..], g);
    }
  }

  /** While no session is live, at most one more is established. */
  lemma {:induction false} DeadSessionReplacedOnce(s: System, es: seq<Event>, g: nat)
    requires Coherent(s) && ValidRun(s, es) && OnlyExpires(s, es, g) && RecoversOnly(s, g)
    requires !s.manager.session.initialized && g <= s.manager.generation
    ensures |After(s, es).established| <= |s.established| + 1
    decreases |es|
  {
    if es != [] {
      var t := Apply(s, es[0]);
      StepKeepsCoherent(s, es[0]);
      if t.manager.session.initialized {
        NewSessionStays(t, es[1..], g);
      } else {
        DeadSessionReplacedOnce(t, es[1..], g);
      }
    }
  }

  /** However callers of one expired session interleave, fail or are cancelled, at most one new session is established. */
  lemma {:induction false} SingleFlightRecovery(s: System, es: seq<Event>)
    requires Coherent(s) && s.manager.session.initialized && ValidRun(s, es)
    requires RecoversOnly(s, s.manager.generation) && OnlyExpires(s, es, s.manager.generation)
    ensures |After(s, es).established| <= |s.established| + 1
    decreases |es|
  {
    if es != [] {
      var t := Apply(s, es[0]);
      StepKeepsCoherent(s, es[0]);
      assert CallerFits(s, es[0].i);
      LiveSessionEndsExactly(s, es[0]);
      if t.manager == s.manager {
        SingleFlightRecovery(t, es[1..]);
      } else {
        DeadSessionReplacedOnce(t, es[1..], s.manager.generation);
      }
    }
  }

  // ---- No replay ----

  function CallsBy(wire: seq<Wire>, i: nat): nat {
    if wire == [] then 0
    else CallsBy(wire[..|wire| - 1], i) + if wire[|wire| - 1].Call? && wire[|wire| - 1].caller == i then 1 else 0
  }

  /** How often a caller's operation may already be on the wire where it stands. */
  predicate SentAsFarAs(pc: Pc, retry: bool, n: nat) {
    match pc
    case Fresh => n == 0
    case AwaitingLock(why, _) => n == if why == ToRecover then 1 else 0
    case Initializing(why) => n == if why == ToRecover then 1 else 0
    case Notifying(why) => n == if why == ToRecover then 1 else 0
    case Sending(_) => n == 1
    case Retrying => retry && n == 2
    case Finished(_) => n <= if retry then 2 else 1
  }

  predicate Sent(s: System) {
    && |s.pcs| == |s.retries|
    && forall i :: 0 <= i < |s.pcs| ==> SentAsFarAs(s.pcs[i], s.retries[i], CallsBy(s.wire, i))
  }

  lemma {:induction false} CallsByOneMore(wire: seq<Wire>, w: Wire, i: nat)
    ensures CallsBy(wire + [w], i) == CallsBy(wire, i) + if w.Call? && w.caller == i then 1 else 0
  {
    assert (wire + [w])[..|wire|] == wire;
  }

  predicate InFlight(pc: Pc) {
    pc.Sending? || pc.Retrying?
  }

  /** A step puts a call on the wire exactly when it leaves its caller waiting for the reply. */
  lemma {:induction false} StepSendsCall(s: System, e: Event)
    requires Enabled(s, e)
    ensures var t := Apply(s, e);
      if InFlight(t.pcs[e.i])
      then |t.wire| == |s.wire| + 1 && t.wire[..|s.wire|] == s.wire && t.wire[|s.wire|].Call? && t.wire[|s.wire|].caller == e.i
      else t.wire == s.wire || (|t.wire| == |s.wire| + 1 && t.wire[..|s.wire|] == s.wire && !t.wire[|s.wire|].Call?)
  {
  }

  lemma {:induction false} StepCounts(s: System, e: Event, i: nat)
    requires Enabled(s, e)
    ensures CallsBy(Apply(s, e).wire, i) == CallsBy(s.wire, i) + if i == e.i && InFlight(Apply(s, e).pcs[i]) then 1 else 0
  {
    StepSendsCall(s, e);
    var t := Apply(s, e);
    if t.wire != s.wire {
      assert t.wire == s.wire + [t.wire[|s.wire|]];
      CallsByOneMore(s.wire, t.wire[|s.wire|], i);
    }
  }

  /** The caller's own step moves it along as far as its count of sent calls. */
  lemma {:induction false} StepAdvances(s: System, e: Event, n: nat)
    requires Enabled(s, e) && SentAsFarAs(s.pcs[e.i], s.retries[e.i], n)
    ensures SentAsFarAs(Apply(s, e).pcs[e.i], s.retries[e.i], n + if InFlight(Apply(s, e).pcs[e.i]) then 1 else 0)
  {
  }

  lemma {:induction false} StepKeepsSentFor(s: System, e: Event, i: nat)
    requires Sent(s) && Enabled(s, e) && i < |s.pcs|
    ensures SentAsFarAs(Apply(s, e).pcs[i], s.retries[i], CallsBy(Apply(s, e).wire, i))
  {
    assert SentAsFarAs(s.pcs[i], s.retries[i], CallsBy(s.wire, i));
    StepCounts(s, e, i);
    if i == e.i {
      StepAdvances(s, e, CallsBy(s.wire, i));
    } else {
      assert Apply(s, e).pcs[i] == s.pcs[i];
    }
  }

  lemma {:induction false} StepKeepsSent(s: System, e: Event)
    requires Sent(s) && Enabled(s, e)
    ensures Sent(Apply(s, e))
  {
    forall i | 0 <= i < |s.pcs| ensures SentAsFarAs(Apply(s, e).pcs[i], s.retries[i], CallsBy(Apply(s, e).wire, i)) {
      StepKeepsSentFor(s, e, i);
    }
  }

  lemma {:induction false} RunKeepsSent(s: System, es: seq<Event>)
    requires Sent(s) && ValidRun(s, es)
    ensures Sent(After(s, es))
    decreases |es|
  {
    if es != [] {
      StepKeepsSent(s, es[0]);
      RunKeepsSent(Apply(s, es[0]), es[1..]);
    }
  }

  lemma {:induction false} CallersStay(s: System, es: seq<Event>)
    requires ValidRun(s, es)
    ensures After(s, es).retries == s.retries && |After(s, es).pcs| == |s.pcs|
    decreases |es|
  {
    if es != [] {
      CallersStay(Apply(s, es[0]), es[1..]);
    }
  }

  /** An operation that must not be replayed is on the wire at most once; a safe one at most twice. */
  lemma {:induction false} NeverReplayed(retries: seq<bool>, supported: set<string>, es: seq<Event>, i: nat)
    requires ValidRun(Initial(retries, supported), es) && i < |retries|
    ensures CallsBy(After(Initial(retries, supported), es).wire, i) <= if retries[i] then 2 else 1
  {
    RunKeepsSent(Initial(retries, supported), es);
    CallersStay(Initial(retries, supported), es);
    var s := After(Initial(retries, supported), es);
    assert SentAsFarAs(s.pcs[i], s.retries[i], CallsBy(s.wire, i));
  }

  // ---- A failed handshake leaves nothing behind, a cancelled one may ----

  predicate AbandonsHandshake(s: System, e: Event) {
    e.Cancel? && e.i < |s.pcs| && s.pcs[e.i].Notifying?
  }

  /** Outside the notification window the session is live or blank. */
  predicate Settled(s: System) {
    s.manager.session.initialized || s.manager.session == BLANK || (s.holder.Some? && s.holder.value < |s.pcs| && s.pcs[s.holder.value].Notifying?)
  }

  /** Only abandoning a handshake between its answer and its confirmation can leave a half-made session behind. */
  lemma {:induction false} UnsettledExactly(s: System, e: Event)
    requires Coherent(s) && Settled(s) && Enabled(s, e)
    ensures !Settled(Apply(s, e)) <==> (AbandonsHandshake(s, e) && s.manager.session != BLANK)
  {
    assert CallerFits(s, e.i);
  }

  predicate NeverAbandons(s: System, es: seq<Event>)
    requires ValidRun(s, es)
    decreases |es|
  {
    es != [] ==> !AbandonsHandshake(s, es[0]) && NeverAbandons(Apply(s, es[0]), es[1..])
  }

  /** Every `initialize` went out without a session header. */
  predicate HandshakesStartClean(wire: seq<Wire>) {
    forall j :: 0 <= j < |wire| && wire[j].Initialize? ==> wire[j].header.None?
  }

  /** Without such an abandonment every failed handshake resets fully, so no `initialize` carries an old session's header. */
  lemma {:induction false} HandshakesAreClean(s: System, es: seq<Event>)
    requires Coherent(s) && Settled(s) && HandshakesStartClean(s.wire) && ValidRun(s, es) && NeverAbandons(s, es)
    ensures Settled(After(s, es)) && HandshakesStartClean(After(s, es).wire)
    decreases |es|
  {
    if es != [] {
      assert CallerFits(s, es[0].i);
      StepKeepsCoherent(s, es[0]);
      UnsettledExactly(s, es[0]);
      HandshakesAreClean(Apply(s, es[0]), es[1..]);
    }
  }

  lemma {:induction false} OneMore(s: System, es: seq<Event>, e: Event)
    requires ValidRun(s, es) && Enabled(After(s, es), e)
    ensures ValidRun(s, es + [e]) && After(s, es + [e]) == Apply(After(s, es), e)
    decreases |es|
  {
    if es == [] {
      assert (es + [e])[1..] == [];
    } else {
      assert (es + [e])[1..] == es[1..] + [e];
      OneMore(Apply(s, es[0]), es[1..], e);
    }
  }

  /** With one, the next handshake announces itself under the abandoned session's header. */
  lemma {:induction false} AbandonedHandshakeLeaks()
    ensures var s, hello := Initial([false, false], {"2025-06-18"}), Hello(Some("2025-06-18"), "abc", None, None);
      var es := [Start(0), TakeLock(0), Answered(0, hello), Cancel(0), Start(1), TakeLock(1)];
      ValidRun(s, es) && !HandshakesStartClean(After(s, es).wire)
  {
    var s, hello := Initial([false, false], {"2025-06-18"}), Hello(Some("2025-06-18"), "abc", None, None);
    var es := [Start(0), TakeLock(0), Answered(0, hello), Cancel(0), Start(1), TakeLock(1)];
    OneMore(s, [], es[0]);
    OneMore(s, [es[0]], es[1]);
    assert [es[0]] + [es[1]] == es[..2];
    OneMore(s, es[..2], es[2]);
    assert es[..2] + [es[2]] == es[..3];
    OneMore(s, es[..3], es[3]);
    assert es[..3] + [es[3]] == es[..4];
    OneMore(s, es[..4], es[4]);
    assert es[..4] + [es[4]] == es[..5];
    OneMore(s, es[..5], es[5]);
    assert es[..5] + [es[5]] == es;
    assert After(s, es).wire[2] == Initialize(1, 2, Some("abc"));
  }
}
