/** The SQL conversation store: `app_conversation_messages` and `app_conversation_turn_commits`, one thread at a time. */
module PostgresStore {
  import opened Prelude
  import Log = ConversationLog

  datatype Kind = UserKind | AssistantKind

  datatype Row = Row(no: int, message: Log.Message, turn: Option<(string, Kind)>)

  /** The rows and commits of one thread, rows in insertion order. */
  datatype Table = Table(rows: seq<Row>, commits: set<string>)

  const EMPTY := Table([], {})

  /** `COALESCE(MAX(sequence_no), 0)`. */
  function MaxNo(rows: seq<Row>): int {
    if rows == [] then 0
    else if |rows| == 1 then rows[0].no
    else
      var m := MaxNo(rows[..|rows| - 1]);
      if m < rows[|rows| - 1].no then rows[|rows| - 1].no else m
  }

  /** How many rows have a larger sequence number. */
  function Rank(rows: seq<Row>, no: int): nat {
    if rows == [] then 0 else Rank(rows[..|rows| - 1], no) + if rows[|rows| - 1].no > no then 1 else 0
  }

  /** The rows of `rows` that are among the `limit` newest of `all`. */
  function Newest(rows: seq<Row>, all: seq<Row>, limit: nat): seq<Row> {
    if rows == [] then []
    else
      var before := Newest(rows[..|rows| - 1], all, limit);
      if Rank(all, rows[|rows| - 1].no) < limit then before + [rows[|rows| - 1]] else before
  }

  /** `DELETE ... WHERE sequence_no NOT IN (SELECT ... ORDER BY sequence_no DESC LIMIT n)`. */
  function Trim(rows: seq<Row>, limit: nat): seq<Row> {
    Newest(rows, rows, limit)
  }

  /** The unique constraints a new row may violate. */
  predicate Conflicts(rows: seq<Row>, r: Row) {
    exists k :: 0 <= k < |rows| && (rows[k].no == r.no || (r.turn.Some? && rows[k].turn == r.turn))
  }

  /** `INSERT ... ON CONFLICT DO NOTHING`. */
  function Insert(rows: seq<Row>, r: Row): seq<Row> {
    if Conflicts(rows, r) then rows else rows + [r]
  }

  function Numbered(ms: seq<Log.Message>, first: int): seq<Row> {
    seq(|ms|, i requires 0 <= i < |ms| => Row(first + i, ms[i], None))
  }

  function OnAppend(t: Table, ms: seq<Log.Message>, limit: nat): Table {
    if ms == [] then t else t.(rows := Trim(t.rows + Numbered(ms, MaxNo(t.rows) + 1), limit))
  }

  function OnAppendTurn(t: Table, run: string, user: Log.Message, assistant: Log.Message, limit: nat): (Table, bool) {
    if run in t.commits then (t, false)
    else
      var n := MaxNo(t.rows) + 1;
      var one := Insert(t.rows, Row(n, user, Some((run, UserKind))));
      var two := Insert(one, Row(n + 1, assistant, Some((run, AssistantKind))));
      (Table(Trim(two, limit), t.commits + {run}), true)
  }

  function Messages(rows: seq<Row>): seq<Log.Message> {
    seq(|rows|, i requires 0 <= i < |rows| => rows[i].message)
  }

  function OnGet(t: Table, limit: nat): seq<Log.Message> {
    Messages(Newest(t.rows, t.rows, limit))
  }

  // ---- Refinement: a row's number is its message's position in the whole log ----

  predicate Consecutive(rows: seq<Row>, first: int) {
    forall i :: 0 <= i < |rows| ==> rows[i].no == first + i
  }

  ghost predicate Represents(t: Table, thread: Log.Thread, limit: nat) {
    && limit > 0
    && Messages(t.rows) == Log.Visible(thread, limit)
    && Consecutive(t.rows, |thread.log| - |t.rows| + 1)
    && t.commits == thread.runs
    && (forall r :: r in t.rows && r.turn.Some? ==> r.turn.value.0 in t.commits)
  }

  lemma {:induction false} MaxOfConsecutive(rows: seq<Row>, first: int)
    requires Consecutive(rows, first) && rows != []
    ensures MaxNo(rows) == first + |rows| - 1
  {
    if |rows| > 1 {
      MaxOfConsecutive(rows[..|rows| - 1], first);
    }
  }

  lemma {:induction false} RankInConsecutive(rows: seq<Row>, first: int, no: int)
    requires Consecutive(rows, first) && first <= no
    ensures Rank(rows, no) == if no < first + |rows| then first + |rows| - 1 - no else 0
  {
    if rows != [] {
      RankInConsecutive(rows[..|rows| - 1], first, no);
    }
  }

  lemma {:induction false} NewestPrefix(all: seq<Row>, first: int, k: nat, limit: nat)
    requires Consecutive(all, first) && k <= |all|
    ensures Newest(all[..k], all, limit) == if k + limit <= |all| then [] else all[if |all| <= limit then 0 else |all| - limit..k]
  {
    if k > 0 {
      assert all[..k][..k - 1] == all[..k - 1];
      NewestPrefix(all, first, k - 1, limit);
      RankInConsecutive(all, first, all[k - 1].no);
    }
  }

  /** Trimming consecutive rows keeps exactly the last ones. */
  lemma {:induction false} TrimIsLast(rows: seq<Row>, first: int, limit: nat)
    requires Consecutive(rows, first) && limit > 0
    ensures Trim(rows, limit) == LastN(rows, limit)
  {
    NewestPrefix(rows, first, |rows|, limit);
    assert rows[..|rows|] == rows;
  }

  lemma {:induction false} NumbersMatchLog(t: Table, thread: Log.Thread, limit: nat)
    requires Represents(t, thread, limit)
    ensures MaxNo(t.rows) == |thread.log|
  {
    if t.rows != [] {
      MaxOfConsecutive(t.rows, |thread.log| - |t.rows| + 1);
    }
  }

  lemma {:induction false} MessagesOfAppend(a: seq<Row>, b: seq<Row>)
    ensures Messages(a + b) == Messages(a) + Messages(b)
  {
  }

  lemma {:induction false} MessagesOfLast(rows: seq<Row>, n: nat)
    ensures Messages(LastN(rows, n)) == LastN(Messages(rows), n)
  {
  }

  lemma {:induction false} LastStaysConsecutive(rows: seq<Row>, first: int, n: nat)
    requires Consecutive(rows, first)
    ensures Consecutive(LastN(rows, n), first + |rows| - |LastN(rows, n)|)
  {
  }

  /** Rows extended at the end, then trimmed, represent the extended log under the same numbering. */
  lemma {:induction false} ExtendedRowsRepresent(t: Table, thread: Log.Thread, added: seq<Row>, runs: set<string>, limit: nat)
    requires Represents(t, thread, limit)
    requires Consecutive(added, MaxNo(t.rows) + 1)
    requires thread.runs <= runs && forall r :: r in added && r.turn.Some? ==> r.turn.value.0 in runs
    ensures Represents(Table(Trim(t.rows + added, limit), runs), Log.Thread(thread.log + Messages(added), runs), limit)
  {
    var first := |thread.log| - |t.rows| + 1;
    var all, kept := t.rows + added, LastN(t.rows + added, limit);
    NumbersMatchLog(t, thread, limit);
    assert Consecutive(all, first);
    TrimIsLast(all, first, limit);
    MessagesOfAppend(t.rows, added);
    MessagesOfLast(all, limit);
    LastNAppend(thread.log, Messages(added), limit);
    LastStaysConsecutive(all, first, limit);
    forall r | r in kept && r.turn.Some? ensures r.turn.value.0 in runs {
      assert r in all;
    }
  }

  lemma {:induction false} AppendRefines(t: Table, thread: Log.Thread, ms: seq<Log.Message>, limit: nat)
    requires Represents(t, thread, limit)
    ensures Represents(OnAppend(t, ms, limit), Log.Apply(thread, Log.Append(ms)), limit)
  {
    if ms == [] {
      assert thread.log + ms == thread.log;
    } else {
      var added := Numbered(ms, MaxNo(t.rows) + 1);
      ExtendedRowsRepresent(t, thread, added, thread.runs, limit);
      assert Messages(added) == ms;
    }
  }

  function TurnRows(t: Table, run: string, user: Log.Message, assistant: Log.Message): seq<Row> {
    var n := MaxNo(t.rows) + 1;
    [Row(n, user, Some((run, UserKind))), Row(n + 1, assistant, Some((run, AssistantKind)))]
  }

  lemma {:induction false} NewRowInserted(rows: seq<Row>, r: Row)
    requires forall x :: x in rows ==> x.no < r.no && x.turn != r.turn
    ensures Insert(rows, r) == rows + [r]
  {
  }

  lemma {:induction false} NumbersBelow(rows: seq<Row>, first: int)
    requires Consecutive(rows, first)
    ensures forall x :: x in rows ==> x.no <= MaxNo(rows)
  {
    if rows != [] {
      MaxOfConsecutive(rows, first);
    }
  }

  /** The two inserts of a turn never conflict: their numbers are new and their run was not committed. */
  lemma {:induction false} TurnInsertsBoth(t: Table, thread: Log.Thread, run: string, user: Log.Message, assistant: Log.Message, limit: nat)
    requires Represents(t, thread, limit) && run !in t.commits
    ensures OnAppendTurn(t, run, user, assistant, limit)
         == (Table(Trim(t.rows + TurnRows(t, run, user, assistant), limit), t.commits + {run}), true)
  {
    var rows := TurnRows(t, run, user, assistant);
    NumbersBelow(t.rows, |thread.log| - |t.rows| + 1);
    NewRowInserted(t.rows, rows[0]);
    NewRowInserted(t.rows + [rows[0]], rows[1]);
    assert t.rows + [rows[0]] + [rows[1]] == t.rows + rows;
  }

  /** `append_turn` on the tables is `append_turn` on the log, with numbers that only grow. */
  lemma {:induction false} AppendTurnRefines(t: Table, thread: Log.Thread, run: string, user: Log.Message, assistant: Log.Message, limit: nat)
    requires Represents(t, thread, limit)
    ensures var (t', reply) := OnAppendTurn(t, run, user, assistant, limit);
      var op := Log.AppendTurn(run, user, assistant);
      reply == Log.Reply(thread, op) && Represents(t', Log.Apply(thread, op), limit)
  {
    if run !in t.commits {
      NewTurnRefines(t, thread, run, user, assistant, limit);
      TurnInsertsBoth(t, thread, run, user, assistant, limit);
    }
  }

  lemma {:induction false} NewTurnRefines(t: Table, thread: Log.Thread, run: string, user: Log.Message, assistant: Log.Message, limit: nat)
    requires Represents(t, thread, limit)
    ensures Represents(Table(Trim(t.rows + TurnRows(t, run, user, assistant), limit), thread.runs + {run}),
                       Log.Thread(thread.log + [user, assistant], thread.runs + {run}), limit)
  {
    var rows := TurnRows(t, run, user, assistant);
    assert Consecutive(rows, MaxNo(t.rows) + 1);
    forall r | r in rows ensures r.turn.Some? && r.turn.value.0 == run {}
    ExtendedRowsRepresent(t, thread, rows, thread.runs + {run}, limit);
    assert Messages(rows) == [user, assistant];
  }

  lemma {:induction false} GetRefines(t: Table, thread: Log.Thread, limit: nat)
    requires Represents(t, thread, limit)
    ensures OnGet(t, limit) == Log.Visible(thread, limit)
  {
    TrimIsLast(t.rows, |thread.log| - |t.rows| + 1, limit);
  }

  /** Any sequence of operations keeps the table and the log together. */
  function Steps(t: Table, ops: seq<Log.Op>, limit: nat): Table
    decreases |ops|
  {
    if ops == [] then t
    else match ops[0]
      case Append(ms) => Steps(OnAppend(t, ms, limit), ops[1..], limit)
      case AppendTurn(r, u, a) => Steps(OnAppendTurn(t, r, u, a, limit).0, ops[1..], limit)
      case Clear => Steps(EMPTY, ops[1..], limit)
  }

  lemma {:induction false} HistoryRefines(t: Table, thread: Log.Thread, ops: seq<Log.Op>, limit: nat)
    requires Represents(t, thread, limit)
    ensures Represents(Steps(t, ops, limit), Log.Run(thread, ops), limit)
    decreases |ops|
  {
    if ops != [] {
      match ops[0]
      case Append(ms) =>
        AppendRefines(t, thread, ms, limit);
        HistoryRefines(OnAppend(t, ms, limit), Log.Apply(thread, ops[0]), ops[1..], limit);
      case AppendTurn(r, u, a) =>
        AppendTurnRefines(t, thread, r, u, a, limit);
        HistoryRefines(OnAppendTurn(t, r, u, a, limit).0, Log.Apply(thread, ops[0]), ops[1..], limit);
      case Clear =>
        HistoryRefines(EMPTY, Log.EMPTY_THREAD, ops[1..], limit);
    }
  }

  class PostgresConversationStore {
    const maxMessages: nat
    var rows: seq<Row>
    var commits: set<string>

    ghost function Value(): Table
      reads this
    {
      Table(rows, commits)
    }

    constructor (maxMessages: nat)
      ensures this.maxMessages == maxMessages && Value() == EMPTY
    {
      this.maxMessages := maxMessages;
      rows, commits := [], {};
    }

    method Append(messages: seq<Log.Message>)
      modifies this`rows
      ensures Value() == OnAppend(old(Value()), messages, maxMessages)
    {
      if messages == [] {
        return;
      }
      var next := MaxNo(rows) + 1;
      var records: seq<Row> := [];
      for offset := 0 to |messages|
        invariant records == Numbered(messages, next)[..offset]
      {
        records := records + [Row(next + offset, messages[offset], None)];
      }
      assert Numbered(messages, next)[..|messages|] == Numbered(messages, next);
      rows := Trim(rows + records, maxMessages);
    }

    method AppendTurn(runId: string, user: Log.Message, assistant: Log.Message) returns (appended: bool)
      modifies this
      ensures (Value(), appended) == OnAppendTurn(old(Value()), runId, user, assistant, maxMessages)
    {
      if runId in commits {
        return false;
      }
      commits := commits + {runId};
      var next := MaxNo(rows) + 1;
      var one := Insert(rows, Row(next, user, Some((runId, UserKind))));
      var two := Insert(one, Row(next + 1, assistant, Some((runId, AssistantKind))));
      rows := Trim(two, maxMessages);
      return true;
    }

    method Get() returns (messages: seq<Log.Message>)
      ensures messages == OnGet(Value(), maxMessages)
    {
      var newest := Newest(rows, rows, maxMessages);
      messages := [];
      for i := 0 to |newest|
        invariant messages == OnGet(Value(), maxMessages)[..i]
      {
        messages := messages + [newest[i].message];
      }
    }

    method Clear()
      modifies this
      ensures Value() == EMPTY
    {
      rows, commits := [], {};
    }
  }
}
