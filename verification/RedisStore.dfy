/** The Redis conversation store: a list, a set of committed runs and legacy markers, with their own expiries. */
module RedisStore {
  import opened Prelude
  import Log = ConversationLog

  /** The keys of one thread; a key is gone from its expiry on. */
  datatype Keys = Keys(
    list: seq<Log.Message>,
    listExpires: int,
    turns: set<string>,
    turnsExpire: int,
    markers: set<string>)

  const EMPTY := Keys([], 0, {}, 0, {})

  /** What is left of the keys at a time. */
  function Live(k: Keys, now: int): Keys {
    k.(list := if now < k.listExpires then k.list else [],
       turns := if now < k.turnsExpire then k.turns else {})
  }

  /** RPUSH, LTRIM and EXPIRE on the list. */
  function Push(k: Keys, ms: seq<Log.Message>, ttl: nat, limit: nat, now: int): Keys {
    k.(list := LastN(k.list + ms, limit), listExpires := now + ttl)
  }

  /** SADD and EXPIRE on the set of committed runs. */
  function Mark(k: Keys, run: string, ttl: nat, now: int): Keys {
    k.(turns := k.turns + {run}, turnsExpire := now + ttl)
  }

  function OnAppend(k0: Keys, ms: seq<Log.Message>, ttl: nat, limit: nat, now: int): Keys {
    if ms == [] then k0 else Push(Live(k0, now), ms, ttl, limit, now)
  }

  /** `_APPEND_TURN_SCRIPT`. */
  function OnAppendTurn(k0: Keys, run: string, user: Log.Message, assistant: Log.Message, ttl: nat, limit: nat, now: int): (Keys, bool) {
    var k := Live(k0, now);
    if run in k.turns || run in k.markers then (Mark(k, run, ttl, now), false)
    else (Push(Mark(k, run, ttl, now), [user, assistant], ttl, limit, now), true)
  }

  function OnGet(k: Keys, limit: nat, now: int): seq<Log.Message> {
    LastN(Live(k, now).list, limit)
  }

  // ---- Refinement, between expiries ----

  /** What is live of the keys shows the end of the log and remembers its runs. */
  ghost predicate Represents(k: Keys, thread: Log.Thread, limit: nat, now: int) {
    && limit > 0
    && Live(k, now).list == Log.Visible(thread, limit)
    && Live(k, now).turns + k.markers == thread.runs
  }

  /** No key that is there at one time has expired at a later one. */
  predicate NothingExpires(k: Keys, now: int, later: int) {
    (now < k.listExpires ==> later < k.listExpires) && (now < k.turnsExpire ==> later < k.turnsExpire)
  }

  lemma {:induction false} AppendRefines(k: Keys, thread: Log.Thread, ms: seq<Log.Message>, ttl: nat, limit: nat, now: int)
    requires Represents(k, thread, limit, now) && ttl > 0
    ensures Represents(OnAppend(k, ms, ttl, limit, now), Log.Apply(thread, Log.Append(ms)), limit, now)
    ensures OnGet(k, limit, now) == Log.Visible(thread, limit)
  {
    LastNAppend(thread.log, ms, limit);
    assert ms == [] ==> thread.log + ms == thread.log;
  }

  lemma {:induction false} AppendTurnRefines(k: Keys, thread: Log.Thread, run: string, user: Log.Message, assistant: Log.Message,
                          ttl: nat, limit: nat, now: int)
    requires Represents(k, thread, limit, now) && ttl > 0
    ensures var (k', reply) := OnAppendTurn(k, run, user, assistant, ttl, limit, now);
      var op := Log.AppendTurn(run, user, assistant);
      reply == Log.Reply(thread, op) && Represents(k', Log.Apply(thread, op), limit, now)
  {
    LastNAppend(thread.log, [user, assistant], limit);
    assert (Live(k, now).turns + {run}) + k.markers == thread.runs + {run};
  }

  lemma {:induction false} LiveUnchanged(k: Keys, now: int, later: int)
    requires now <= later && NothingExpires(k, now, later)
    ensures Live(k, later) == Live(k, now)
  {
  }

  /** Time alone changes nothing until something expires. */
  lemma {:induction false} WaitingRefines(k: Keys, thread: Log.Thread, limit: nat, now: int, later: int)
    requires Represents(k, thread, limit, now) && now <= later && NothingExpires(k, now, later)
    ensures Represents(k, thread, limit, later)
  {
    LiveUnchanged(k, now, later);
    hide Live;
  }

  // ---- Runs of the store ----

  /** A run of the store by stamped operations. */
  datatype Stamped = Stamped(now: int, op: Log.Op)

  function Step(k: Keys, s: Stamped, ttl: nat, limit: nat): Keys {
    match s.op
    case Append(ms) => OnAppend(k, ms, ttl, limit, s.now)
    case AppendTurn(r, u, a) => OnAppendTurn(k, r, u, a, ttl, limit, s.now).0
    case Clear => EMPTY
  }

  function Steps(k: Keys, trace: seq<Stamped>, ttl: nat, limit: nat): Keys
    decreases |trace|
  {
    if trace == [] then k else Steps(Step(k, trace[0], ttl, limit), trace[1..], ttl, limit)
  }

  predicate Chronological(trace: seq<Stamped>, from: int) {
    trace == [] || (from <= trace[0].now && Chronological(trace[1..], trace[0].now))
  }

  /** The time of the last operation. */
  function EndOf(trace: seq<Stamped>, from: int): int {
    if trace == [] then from else EndOf(trace[1..], trace[0].now)
  }

  function Ops(trace: seq<Stamped>): seq<Log.Op> {
    if trace == [] then [] else [trace[0].op] + Ops(trace[1..])
  }

  /** No key that an operation finds has expired since the operation before. */
  predicate Unlapsed(k: Keys, trace: seq<Stamped>, ttl: nat, limit: nat, from: int)
    decreases |trace|
  {
    trace == []
    || (NothingExpires(k, from, trace[0].now) && Unlapsed(Step(k, trace[0], ttl, limit), trace[1..], ttl, limit, trace[0].now))
  }

  lemma {:induction false} StepRefines(k: Keys, thread: Log.Thread, s: Stamped, ttl: nat, limit: nat)
    requires Represents(k, thread, limit, s.now) && ttl > 0
    ensures Represents(Step(k, s, ttl, limit), Log.Apply(thread, s.op), limit, s.now)
  {
    hide OnAppend, OnAppendTurn;
    match s.op
    case Append(ms) => AppendRefines(k, thread, ms, ttl, limit, s.now);
    case AppendTurn(r, u, a) => AppendTurnRefines(k, thread, r, u, a, ttl, limit, s.now);
    case Clear =>
  }

  /** Between expiries any sequence of operations keeps keys and log together. */
  lemma {:induction false} TraceRefines(k: Keys, thread: Log.Thread, trace: seq<Stamped>, ttl: nat, limit: nat, from: int)
    requires Represents(k, thread, limit, from) && ttl > 0 && Chronological(trace, from) && Unlapsed(k, trace, ttl, limit, from)
    ensures Represents(Steps(k, trace, ttl, limit), Log.Run(thread, Ops(trace)), limit, EndOf(trace, from))
    decreases |trace|
  {
    if trace != [] {
      WaitingRefines(k, thread, limit, from, trace[0].now);
      StepRefines(k, thread, trace[0], ttl, limit);
      TraceRefines(Step(k, trace[0], ttl, limit), Log.Apply(thread, trace[0].op), trace[1..], ttl, limit, trace[0].now);
      assert Ops(trace)[1..] == Ops(trace[1..]);
    }
  }

  // ---- Whether the memory of a run outlives its messages ----

  /** While any message is visible the committed runs are still known. */
  predicate MarksOutliveMessages(k: Keys) {
    k.listExpires <= k.turnsExpire
  }

  /** `append_turn` keeps it, so a runtime that only appends turns never shows a turn it could append again. */
  lemma {:induction false} TurnsKeepMarks(k: Keys, run: string, user: Log.Message, assistant: Log.Message, ttl: nat, limit: nat, before: int, now: int)
    requires MarksOutliveMessages(k) && k.listExpires <= before + ttl && before <= now
    ensures var k' := OnAppendTurn(k, run, user, assistant, ttl, limit, now).0;
            MarksOutliveMessages(k') && k'.listExpires <= now + ttl
  {
  }

  /** Plain `append` refreshes the messages only: it keeps the property exactly when the marks are as fresh. */
  lemma {:induction false} AppendKeepsMarksExactly(k: Keys, ms: seq<Log.Message>, ttl: nat, limit: nat, now: int)
    requires ms != []
    ensures MarksOutliveMessages(OnAppend(k, ms, ttl, limit, now)) <==> now + ttl <= k.turnsExpire
  {
  }

  predicate OnlyTurns(trace: seq<Stamped>) {
    forall s :: s in trace ==> s.op.AppendTurn?
  }

  /** Once a run is committed, it stays known for as long as messages are visible, over any run of turns. */
  lemma {:induction false} CommittedWhileVisible(k: Keys, trace: seq<Stamped>, run: string, ttl: nat, limit: nat, from: int, now: int)
    requires OnlyTurns(trace) && Chronological(trace, from)
    requires MarksOutliveMessages(k) && k.listExpires <= from + ttl
    requires from < k.listExpires ==> run in k.turns
    requires trace != [] ==> trace[|trace| - 1].now <= now
    requires trace == [] ==> from <= now
    requires AlwaysVisible(k, trace, ttl, limit)
    ensures var k' := Steps(k, trace, ttl, limit);
            now < k'.listExpires ==> run in Live(k', now).turns
    decreases |trace|
  {
    if trace != [] {
      var s := trace[0];
      TurnsKeepMarks(k, s.op.runId, s.op.user, s.op.assistant, ttl, limit, from, s.now);
      CommittedWhileVisible(Step(k, s, ttl, limit), trace[1..], run, ttl, limit, s.now, now);
    }
  }

  /** The list never lapses between two operations of the trace. */
  ghost predicate AlwaysVisible(k: Keys, trace: seq<Stamped>, ttl: nat, limit: nat)
    decreases |trace|
  {
    trace == [] || (trace[0].now < k.listExpires && AlwaysVisible(Step(k, trace[0], ttl, limit), trace[1..], ttl, limit))
  }

  // ---- When a run's turn can be appended again ----

  /** One plain append later, a committed run's turn is accepted again if and only if the set of runs has expired by then. */
  lemma {:induction false} PlainAppendForgetsExactly(k: Keys, run: string, ms: seq<Log.Message>, user: Log.Message, assistant: Log.Message,
                                  ttl: nat, limit: nat, now: int, later: int)
    requires run in Live(k, now).turns && run !in k.markers && ms != [] && now <= later < now + ttl
    ensures OnAppendTurn(OnAppend(k, ms, ttl, limit, now), run, user, assistant, ttl, limit, later).1 <==> k.turnsExpire <= later
  {
  }

  /** Operations that neither clear the thread nor append the turn of this run. */
  predicate LeavesRunAlone(trace: seq<Stamped>, run: string) {
    forall s :: s in trace ==> !s.op.Clear? && (s.op.AppendTurn? ==> s.op.runId != run)
  }

  /** No `ttl` seconds pass without an `append_turn`, from the one at `last` on and up to `later`. */
  predicate TurnsKeepComing(last: int, trace: seq<Stamped>, ttl: nat, later: int)
    decreases |trace|
  {
    if trace == [] then later < last + ttl
    else if trace[0].op.AppendTurn? then trace[0].now < last + ttl && TurnsKeepComing(trace[0].now, trace[1..], ttl, later)
    else TurnsKeepComing(last, trace[1..], ttl, later)
  }

  lemma {:induction false} LateIsTooLate(last: int, trace: seq<Stamped>, ttl: nat, from: int, later: int)
    requires last + ttl <= from && Chronological(trace, from) && EndOf(trace, from) <= later
    ensures !TurnsKeepComing(last, trace, ttl, later)
  {
    if trace != [] && !trace[0].op.AppendTurn? {
      LateIsTooLate(last, trace[1..], ttl, trace[0].now, later);
    } else if trace == [] {
      assert from <= later;
    }
  }

  lemma {:induction false} StepLeavesForgotten(k: Keys, s: Stamped, run: string, ttl: nat, limit: nat, from: int)
    requires run !in Live(k, from).turns && from <= s.now && LeavesRunAlone([s], run)
    ensures run !in Live(Step(k, s, ttl, limit), s.now).turns && (Step(k, s, ttl, limit).markers == k.markers)
  {
    assert s in [s];
  }

  lemma {:induction false} StaysForgotten(k: Keys, trace: seq<Stamped>, run: string, ttl: nat, limit: nat, from: int, later: int)
    requires run !in Live(k, from).turns && LeavesRunAlone(trace, run) && Chronological(trace, from) && EndOf(trace, from) <= later
    ensures run !in Live(Steps(k, trace, ttl, limit), later).turns
    decreases |trace|
  {
    if trace != [] {
      assert trace[0] in trace;
      StepLeavesForgotten(k, trace[0], run, ttl, limit, from);
      StaysForgotten(Step(k, trace[0], ttl, limit), trace[1..], run, ttl, limit, trace[0].now, later);
    }
  }

  lemma {:induction false} StepKeepsKnown(k: Keys, s: Stamped, run: string, ttl: nat, limit: nat, last: int)
    requires run in k.turns && k.turnsExpire == last + ttl && s.now < k.turnsExpire && !s.op.Clear?
    ensures var k' := Step(k, s, ttl, limit);
      run in k'.turns && k'.turnsExpire == (if s.op.AppendTurn? then s.now else last) + ttl
  {
  }

  lemma {:induction false} KnownExactly(k: Keys, trace: seq<Stamped>, run: string, ttl: nat, limit: nat, last: int, from: int, later: int)
    requires run in k.turns && k.turnsExpire == last + ttl && last <= from
    requires LeavesRunAlone(trace, run) && Chronological(trace, from) && EndOf(trace, from) <= later
    ensures run in Live(Steps(k, trace, ttl, limit), later).turns <==> TurnsKeepComing(last, trace, ttl, later)
    decreases |trace|
  {
    if trace != [] {
      var s, k' := trace[0], Step(k, trace[0], ttl, limit);
      assert s in trace;
      if s.now < last + ttl {
        StepKeepsKnown(k, s, run, ttl, limit, last);
        KnownExactly(k', trace[1..], run, ttl, limit, if s.op.AppendTurn? then s.now else last, s.now, later);
      } else {
        StepLeavesForgotten(k, s, run, ttl, limit, s.now);
        StaysForgotten(k', trace[1..], run, ttl, limit, s.now, later);
        LateIsTooLate(last, trace[1..], ttl, s.now, later);
      }
    }
  }

  lemma {:induction false} MarkersStay(k: Keys, trace: seq<Stamped>, run: string, ttl: nat, limit: nat)
    requires LeavesRunAlone(trace, run)
    ensures Steps(k, trace, ttl, limit).markers == k.markers
    decreases |trace|
  {
    if trace != [] {
      assert trace[0] in trace;
      MarkersStay(Step(k, trace[0], ttl, limit), trace[1..], run, ttl, limit);
    }
  }

  /**
    * After any mixture of plain appends and other runs' turns, a run whose turn was appended at `last` has its turn accepted
    * again if and only if at some point the time to live passed without an `append_turn`.
    */
  lemma {:induction false} ForgottenExactly(k: Keys, trace: seq<Stamped>, run: string, user: Log.Message, assistant: Log.Message,
                         ttl: nat, limit: nat, last: int, later: int)
    requires run in k.turns && run !in k.markers && k.turnsExpire == last + ttl
    requires LeavesRunAlone(trace, run) && Chronological(trace, last) && EndOf(trace, last) <= later
    ensures OnAppendTurn(Steps(k, trace, ttl, limit), run, user, assistant, ttl, limit, later).1 <==> !TurnsKeepComing(last, trace, ttl, later)
  {
    KnownExactly(k, trace, run, ttl, limit, last, last, later);
    MarkersStay(k, trace, run, ttl, limit);
  }

  /** How many messages a trace brings at most. */
  function Brings(trace: seq<Stamped>): nat {
    if trace == [] then 0
    else (match trace[0].op case Append(ms) => |ms| case AppendTurn(_, _, _) => 2 case Clear => 0) + Brings(trace[1..])
  }

  lemma {:induction false} StepExtendsList(k: Keys, s: Stamped, ttl: nat, limit: nat)
    requires s.now < k.listExpires && !s.op.Clear? && |k.list| + Brings([s]) <= limit
    ensures k.list <= Step(k, s, ttl, limit).list && |Step(k, s, ttl, limit).list| <= |k.list| + Brings([s])
  {
    assert [s][1..] == [];
  }

  /** While the list never lapses and nothing is trimmed, what it showed stays in front. */
  lemma {:induction false} ListOnlyGrows(k: Keys, trace: seq<Stamped>, run: string, ttl: nat, limit: nat)
    requires AlwaysVisible(k, trace, ttl, limit) && LeavesRunAlone(trace, run) && |k.list| + Brings(trace) <= limit
    ensures k.list <= Steps(k, trace, ttl, limit).list
    ensures |Steps(k, trace, ttl, limit).list| <= |k.list| + Brings(trace)
    decreases |trace|
  {
    if trace != [] {
      assert trace[0] in trace && [trace[0]][1..] == [];
      StepExtendsList(k, trace[0], ttl, limit);
      ListOnlyGrows(Step(k, trace[0], ttl, limit), trace[1..], run, ttl, limit);
    }
  }

  /** What a reader sees right after an `append_turn` on an unexpired, untrimmed list. */
  lemma {:induction false} TurnShown(k: Keys, run: string, user: Log.Message, assistant: Log.Message, ttl: nat, limit: nat, now: int)
    requires now < k.listExpires && |k.list| + 2 <= limit && ttl > 0
    ensures var (k', reply) := OnAppendTurn(k, run, user, assistant, ttl, limit, now);
      OnGet(k', limit, now) == if reply then k.list + [user, assistant] else k.list
  {
  }

  /**
    * So a turn is shown twice, the first one still visible, exactly on the runs that keep the list alive without an
    * `append_turn` for the time to live: everything the list showed when the turn was in it is still in front.
    */
  lemma {:induction false} DuplicateShownExactly(k: Keys, trace: seq<Stamped>, run: string, user: Log.Message, assistant: Log.Message,
                              ttl: nat, limit: nat, last: int, later: int)
    requires run in k.turns && run !in k.markers && k.turnsExpire == last + ttl
    requires LeavesRunAlone(trace, run) && Chronological(trace, last) && EndOf(trace, last) <= later
    requires AlwaysVisible(k, trace, ttl, limit) && later < Steps(k, trace, ttl, limit).listExpires
    requires |k.list| + Brings(trace) + 2 <= limit && ttl > 0
    ensures var (k', reply) := OnAppendTurn(Steps(k, trace, ttl, limit), run, user, assistant, ttl, limit, later);
      var shown := OnGet(k', limit, later);
      && k.list <= shown
      && (reply <==> !TurnsKeepComing(last, trace, ttl, later))
      && (reply ==> |shown| >= |k.list| + 2 && shown[|shown| - 2..] == [user, assistant])
  {
    ForgottenExactly(k, trace, run, user, assistant, ttl, limit, last, later);
    ListOnlyGrows(k, trace, run, ttl, limit);
    TurnShown(Steps(k, trace, ttl, limit), run, user, assistant, ttl, limit, later);
    hide OnAppendTurn, OnGet, Steps;
  }

  /** With a plain append in between, a run's turn can appear twice in the visible history. */
  lemma {:induction false} DuplicateTurnAfterPlainAppend(user: Log.Message, assistant: Log.Message, note: Log.Message)
    ensures var k1 := OnAppendTurn(EMPTY, "r", user, assistant, 10, 30, 1).0;
      var k2 := OnAppend(k1, [note], 10, 30, 10);
      var (k3, reply) := OnAppendTurn(k2, "r", user, assistant, 10, 30, 11);
      reply && OnGet(k3, 30, 11) == [user, assistant, note, user, assistant]
  {
  }

  class RedisConversationStore {
    const ttl: nat
    const maxMessages: nat
    var keys: Keys

    constructor (ttl: nat, maxMessages: nat)
      ensures this.ttl == ttl && this.maxMessages == maxMessages && keys == EMPTY
    {
      this.ttl, this.maxMessages := ttl, maxMessages;
      keys := EMPTY;
    }

    method Append(messages: seq<Log.Message>, now: int)
      modifies this
      ensures keys == OnAppend(old(keys), messages, ttl, maxMessages, now)
    {
      if messages == [] {
        return;
      }
      keys := Live(keys, now);
      keys := keys.(list := keys.list + messages);
      keys := keys.(list := LastN(keys.list, maxMessages));
      keys := keys.(listExpires := now + ttl);
    }

    method AppendTurn(runId: string, user: Log.Message, assistant: Log.Message, now: int) returns (appended: bool)
      modifies this
      ensures (keys, appended) == OnAppendTurn(old(keys), runId, user, assistant, ttl, maxMessages, now)
    {
      keys := Live(keys, now);
      if runId in keys.turns || runId in keys.markers {
        keys := keys.(turns := keys.turns + {runId}, turnsExpire := now + ttl);
        return false;
      }
      keys := keys.(turns := keys.turns + {runId});
      keys := keys.(turnsExpire := now + ttl);
      keys := keys.(list := keys.list + [user, assistant]);
      keys := keys.(list := LastN(keys.list, maxMessages));
      keys := keys.(listExpires := now + ttl);
      return true;
    }

    method Clear()
      modifies this
      ensures keys == EMPTY
    {
      keys := EMPTY;
    }
  }
}
