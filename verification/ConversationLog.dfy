/** The plain log every conversation store implements: messages forever, and each run's turn once. */
module ConversationLog {
  import opened Prelude

  datatype Message = Message(role: string, content: string)

  /** One conversation: everything ever appended, and the runs whose turn was appended. */
  datatype Thread = Thread(log: seq<Message>, runs: set<string>)

  const EMPTY_THREAD := Thread([], {})

  datatype Op =
    | Append(messages: seq<Message>)
    | AppendTurn(runId: string, user: Message, assistant: Message)
    | Clear

  function Apply(t: Thread, op: Op): Thread {
    match op
    case Append(ms) => t.(log := t.log + ms)
    case AppendTurn(r, u, a) => if r in t.runs then t else Thread(t.log + [u, a], t.runs + {r})
    case Clear => EMPTY_THREAD
  }

  /** What `append_turn` returns; the other operations return nothing. */
  function Reply(t: Thread, op: Op): bool {
    op.AppendTurn? ==> op.runId !in t.runs
  }

  /** What a reader sees: the last messages only. */
  function Visible(t: Thread, limit: nat): seq<Message> {
    LastN(t.log, limit)
  }

  function Run(t: Thread, ops: seq<Op>): Thread
    decreases |ops|
  {
    if ops == [] then t else Run(Apply(t, ops[0]), ops[1..])
  }

  predicate NeverCleared(ops: seq<Op>) {
    forall i :: 0 <= i < |ops| ==> !ops[i].Clear?
  }

  /** Some `append_turn` of the run was not followed by a `clear`. */
  predicate Appended(ops: seq<Op>, r: string) {
    exists i :: 0 <= i < |ops| && ops[i].AppendTurn? && ops[i].runId == r && NeverCleared(ops[i + 1..])
  }

  lemma {:induction false} AppendedCons(ops: seq<Op>, r: string)
    requires ops != []
    ensures Appended(ops, r) <==> Appended(ops[1..], r) || (ops[0].AppendTurn? && ops[0].runId == r && NeverCleared(ops[1..]))
  {
    var rest := ops[1..];
    if Appended(rest, r) {
      var i :| 0 <= i < |rest| && rest[i].AppendTurn? && rest[i].runId == r && NeverCleared(rest[i + 1..]);
      assert ops[i + 1] == rest[i] && ops[i + 1 + 1..] == rest[i + 1..];
    }
    if Appended(ops, r) {
      var i :| 0 <= i < |ops| && ops[i].AppendTurn? && ops[i].runId == r && NeverCleared(ops[i + 1..]);
      assert i > 0 ==> rest[i - 1] == ops[i] && rest[i - 1 + 1..] == ops[i + 1..];
    }
  }

  lemma {:induction false} NeverClearedCons(ops: seq<Op>)
    requires ops != []
    ensures NeverCleared(ops) <==> !ops[0].Clear? && NeverCleared(ops[1..])
  {
    if NeverCleared(ops[1..]) && !ops[0].Clear? {
      assert forall i :: 0 < i < |ops| ==> ops[i] == ops[1..][i - 1];
    }
  }

  /** A run is remembered exactly while some `append_turn` of it lies after the last `clear`. */
  lemma {:induction false} RememberedExactly(t: Thread, ops: seq<Op>, r: string)
    ensures r in Run(t, ops).runs <==> Appended(ops, r) || (r in t.runs && NeverCleared(ops))
    decreases |ops|
  {
    if ops != [] {
      AppendedCons(ops, r);
      NeverClearedCons(ops);
      RememberedExactly(Apply(t, ops[0]), ops[1..], r);
    }
  }

  lemma {:induction false} RunAppend(t: Thread, first: seq<Op>, second: seq<Op>)
    ensures Run(t, first + second) == Run(Run(t, first), second)
    decreases |first|
  {
    if first == [] {
      assert first + second == second;
    } else {
      assert (first + second)[1..] == first[1..] + second;
      RunAppend(Apply(t, first[0]), first[1..], second);
    }
  }

  /** A run contributes one turn between clears: after its `append_turn` a later one changes nothing, however much came between. */
  lemma {:induction false} TurnOnce(t: Thread, ops: seq<Op>, i: nat, j: nat)
    requires i < j < |ops| && ops[i].AppendTurn? && ops[j].AppendTurn? && ops[i].runId == ops[j].runId
    requires NeverCleared(ops[i + 1..j])
    ensures !Reply(Run(t, ops[..j]), ops[j]) && Run(t, ops[..j + 1]) == Run(t, ops[..j])
  {
    var before := ops[..j];
    assert before[i] == ops[i] && before[i + 1..] == ops[i + 1..j];
    RememberedExactly(t, before, ops[j].runId);
    assert ops[..j + 1] == before + [ops[j]];
    RunAppend(t, before, [ops[j]]);
    assert [ops[j]][1..] == [];
  }
}
