/**
 Outcome, history and replay agree over every run of the chat runtime, across crashes,
 as long as no cancellation arrives after `mark_terminal` returned.
 */
module RuntimeAgreement {
  import opened Prelude
  import opened RunModel
  import opened PostgresRuns
  import opened RunPreflight
  import opened ChatRuntime

  // ---- The invariant ----

  /** Run r's outcome is durable and its stored text is `text`. */
  predicate Settled(s: System, c: string, r: string, text: string) {
    && r in s.repo.runs
    && s.repo.runs[r].conversationId == c
    && SqlTerminal(s.repo.runs[r].status)
    && s.repo.runs[r].payload.Some?
    && Stored(s.repo.runs[r]) == text
  }

  predicate Unsettled(s: System, c: string, r: string) {
    && r in s.repo.runs
    && s.repo.runs[r].conversationId == c
    && !TerminalStatus(s.repo.runs[r].status)
  }

  predicate RecordOk(s: System, r: string) {
    r in s.repo.runs ==>
      var record := s.repo.runs[r];
      && (SqlTerminal(record.status) || record.status.Pending? || record.status.Running? || record.status.Interrupted?)
      && (SqlTerminal(record.status) ==> record.payload.Some?)
      && (record.historyCommittedAt.Some? ==>
            SqlTerminal(record.status) && InHistory(s.history, record.conversationId, r))
  }

  /** The request is inside the gate and owns its conversation there. */
  predicate GateOk(s: System, w: nat) {
    w in s.workers && Inside(s.workers[w]) ==>
      Conv(s.workers[w]) in s.gate && s.gate[Conv(s.workers[w])] == RunOf(s.workers[w])
  }

  predicate AloneInConversation(s: System, w: nat, v: nat) {
    w in s.workers && v in s.workers && w != v && Inside(s.workers[w]) && Inside(s.workers[v])
    ==> Conv(s.workers[w]) != Conv(s.workers[v])
  }

  /** The copy of the record a request read before acquiring is still the stored record. */
  predicate ReadsCurrent(s: System, wk: Worker) {
    && wk.record.Some?
    && RunOf(wk) in s.repo.runs
    && s.repo.runs[RunOf(wk)] == wk.record.value
    && s.repo.runs[RunOf(wk)].conversationId == Conv(wk)
  }

  predicate LeaseOk(wk: Worker) {
    wk.lease.Some? && wk.lease.value.runId == RunOf(wk) && wk.lease.value.conversationId == Conv(wk)
  }

  /** A response exists only where it is about to be returned. */
  predicate ResponseOk(wk: Worker) {
    wk.response.Some? ==>
      wk.pc == AtReplayAppend || wk.pc == AtReplayReconcile || wk.pc == AtRelease || wk.pc == Done
  }

  predicate WorkerOk(s: System, wk: Worker) {
    ResponseOk(wk) && WorkerFacts(s, wk)
  }

  /** What a suspended request may rely on, suspension point by suspension point. */
  predicate WorkerFacts(s: System, wk: Worker) {
    var c, r := Conv(wk), RunOf(wk);
    match wk.pc
    case AtGate => true
    case Done => true
    case AtLookup => true
    case AtMigrate => true
    case AtPreflight => ReadsCurrent(s, wk)
    case AtReplayAppend => ReadsCurrent(s, wk) && wk.response.Some? && Settled(s, c, r, TextOf(wk.response.value))
    case AtReplayReconcile =>
      ReadsCurrent(s, wk) && wk.response.Some? && Settled(s, c, r, TextOf(wk.response.value)) && InHistory(s.history, c, r)
    case AtCheckpoint => Unsettled(s, c, r)
    case AtAcquire => Unsettled(s, c, r)
    case Executing => LeaseOk(wk) && Unsettled(s, c, r)
    case AtMark => LeaseOk(wk) && Unsettled(s, c, r) && wk.execution.Some?
    case AtAppend => LeaseOk(wk) && wk.execution.Some? && Settled(s, c, r, TextOf(wk.execution.value.payload))
    case AtCommit =>
      LeaseOk(wk) && wk.execution.Some? && Settled(s, c, r, TextOf(wk.execution.value.payload)) && InHistory(s.history, c, r)
    case AtInterrupt => LeaseOk(wk) && Unsettled(s, c, r)
    case AtRelease => LeaseOk(wk) && (wk.response.Some? ==> Settled(s, c, r, TextOf(wk.response.value)))
  }

  predicate WorkerAtOk(s: System, w: nat) {
    w in s.workers ==> WorkerOk(s, s.workers[w])
  }

  predicate TurnOk(s: System, i: nat) {
    i < |s.history| ==>
      Settled(s, s.history[i].conversationId, s.history[i].runId, s.history[i].assistant)
  }

  predicate TurnsDistinct(s: System, i: nat, j: nat) {
    i < j < |s.history| ==> s.history[i].runId != s.history[j].runId
  }

  /** An answer a client received is the stored text of its run. */
  predicate AnswerOk(s: System, k: nat) {
    k < |s.answers| ==>
      && s.answers[k].runId in s.repo.runs
      && SqlTerminal(s.repo.runs[s.answers[k].runId].status)
      && Stored(s.repo.runs[s.answers[k].runId]) == s.answers[k].text
  }

  ghost predicate Agreement(s: System) {
    && (forall r :: RecordOk(s, r))
    && (forall w :: GateOk(s, w))
    && (forall w, v :: AloneInConversation(s, w, v))
    && (forall w :: WorkerAtOk(s, w))
    && (forall i :: TurnOk(s, i))
    && (forall i, j :: TurnsDistinct(s, i, j))
    && (forall k :: AnswerOk(s, k))
  }

  // ---- What a step may touch ----

  /** A record settled before is settled after with the same text, in the same conversation. */
  predicate KeepsRecord(s: System, s': System, r: string) {
    r in s.repo.runs ==>
      && r in s'.repo.runs
      && s'.repo.runs[r].conversationId == s.repo.runs[r].conversationId
      && (SqlTerminal(s.repo.runs[r].status) ==>
            && SqlTerminal(s'.repo.runs[r].status)
            && (s.repo.runs[r].payload.Some? ==> s'.repo.runs[r].payload.Some?)
            && Stored(s'.repo.runs[r]) == Stored(s.repo.runs[r]))
  }

  ghost predicate HistoryStep(s: System, s': System, c: string, r: string) {
    || s'.history == s.history
    || (exists t :: s'.history == s.history + [t] && t.runId == r && t.conversationId == c
                    && !InHistory(s.history, c, r) && Settled(s', c, r, t.assistant))
  }

  ghost predicate AnswerStep(s: System, s': System, c: string, r: string) {
    || s'.answers == s.answers
    || (exists text :: s'.answers == s.answers + [Answer(r, text)] && Settled(s', c, r, text))
  }

  /** The step belongs to request w: what belongs to others is as it was, and what is new is in order. */
  ghost predicate OwnStep(s: System, s': System, w: nat) {
    && w in s.workers && w in s'.workers
    && var wk := s.workers[w];
    && s'.workers - {w} == s.workers - {w}
    && s'.workers[w].request == wk.request
    && s'.gate - {Conv(wk)} == s.gate - {Conv(wk)}
    && s'.repo.runs - {RunOf(wk)} == s.repo.runs - {RunOf(wk)}
    && (|| s'.repo.runs == s.repo.runs
        || RunOf(wk) !in s.repo.runs
        || s.repo.runs[RunOf(wk)].conversationId == Conv(wk))
    && KeepsRecord(s, s', RunOf(wk))
    && HistoryStep(s, s', Conv(wk), RunOf(wk))
    && AnswerStep(s, s', Conv(wk), RunOf(wk))
  }

  lemma {:induction false} HistoryGrows(s: System, s': System, c': string, r': string, c: string, r: string)
    requires HistoryStep(s, s', c', r') && InHistory(s.history, c, r)
    ensures InHistory(s'.history, c, r)
  {
    var i :| 0 <= i < |s.history| && s.history[i].conversationId == c && s.history[i].runId == r;
    assert s'.history[i] == s.history[i];
  }

  lemma {:induction false} OthersKeepRecords(s: System, s': System, w: nat, r: string)
    requires OwnStep(s, s', w)
    ensures KeepsRecord(s, s', r)
  {
    if r != RunOf(s.workers[w]) {
      SameElsewhere(s.repo.runs, s'.repo.runs, RunOf(s.workers[w]), r);
    }
  }

  /** Another request's facts survive w's step: it holds another conversation, so another run. */
  lemma {:induction false} OtherWorkersOk(s: System, s': System, w: nat, v: nat)
    requires Agreement(s) && OwnStep(s, s', w) && v != w && Inside(s.workers[w])
    ensures WorkerAtOk(s', v)
  {
    SameElsewhere(s.workers, s'.workers, w, v);
    if v in s.workers {
      var wk, r := s.workers[v], RunOf(s.workers[w]);
      assert WorkerAtOk(s, v) && AloneInConversation(s, w, v);
      if RunOf(wk) != r {
        SameElsewhere(s.repo.runs, s'.repo.runs, r, RunOf(wk));
      }
      if InHistory(s.history, Conv(wk), RunOf(wk)) {
        HistoryGrows(s, s', Conv(s.workers[w]), r, Conv(wk), RunOf(wk));
      }
    }
  }

  lemma {:induction false} OtherRecordsOk(s: System, s': System, w: nat, r: string)
    requires Agreement(s) && OwnStep(s, s', w) && r != RunOf(s.workers[w])
    ensures RecordOk(s', r)
  {
    assert RecordOk(s, r);
    SameElsewhere(s.repo.runs, s'.repo.runs, RunOf(s.workers[w]), r);
    if r in s.repo.runs && InHistory(s.history, s.repo.runs[r].conversationId, r) {
      HistoryGrows(s, s', Conv(s.workers[w]), RunOf(s.workers[w]), s.repo.runs[r].conversationId, r);
    }
  }

  lemma {:induction false} TurnsOk(s: System, s': System, w: nat, i: nat)
    requires Agreement(s) && OwnStep(s, s', w)
    ensures TurnOk(s', i)
  {
    if i < |s.history| {
      assert TurnOk(s, i) && s'.history[i] == s.history[i];
      OthersKeepRecords(s, s', w, s.history[i].runId);
    }
  }

  /** A new turn's run is not that of an earlier turn: the earlier one would be in the same conversation. */
  lemma {:induction false} TurnsStayDistinct(s: System, s': System, w: nat, i: nat, j: nat)
    requires Agreement(s) && OwnStep(s, s', w)
    ensures TurnsDistinct(s', i, j)
  {
    assert TurnsDistinct(s, i, j);
    if i < j < |s'.history| {
      assert TurnOk(s, i) && s'.history[i] == s.history[i];
      if j == |s.history| {
        OthersKeepRecords(s, s', w, s.history[i].runId);
      }
    }
  }

  lemma {:induction false} AnswersOk(s: System, s': System, w: nat, k: nat)
    requires Agreement(s) && OwnStep(s, s', w)
    ensures AnswerOk(s', k)
  {
    if k < |s.answers| {
      assert AnswerOk(s, k) && s'.answers[k] == s.answers[k];
      OthersKeepRecords(s, s', w, s.answers[k].runId);
      assert RecordOk(s, s.answers[k].runId);
    }
  }

  lemma {:induction false} OtherGatesOk(s: System, s': System, w: nat, v: nat)
    requires Agreement(s) && OwnStep(s, s', w) && v != w && Inside(s.workers[w])
    ensures GateOk(s', v)
  {
    SameElsewhere(s.workers, s'.workers, w, v);
    assert GateOk(s, v) && AloneInConversation(s, w, v);
    if v in s.workers && Inside(s.workers[v]) {
      SameElsewhere(s.gate, s'.gate, Conv(s.workers[w]), Conv(s.workers[v]));
    }
  }

  /** A step of request w inside the gate keeps the agreement if it keeps it locally. */
  lemma {:induction false} OwnStepKeepsAgreement(s: System, s': System, w: nat)
    requires Agreement(s) && OwnStep(s, s', w) && Inside(s.workers[w])
    requires RecordOk(s', RunOf(s.workers[w])) && WorkerAtOk(s', w) && GateOk(s', w)
    ensures Agreement(s')
  {
    forall r ensures RecordOk(s', r) {
      if r != RunOf(s.workers[w]) { OtherRecordsOk(s, s', w, r); }
    }
    forall v ensures GateOk(s', v) {
      if v != w { OtherGatesOk(s, s', w, v); }
    }
    forall v ensures WorkerAtOk(s', v) {
      if v != w { OtherWorkersOk(s, s', w, v); }
    }
    forall u, v ensures AloneInConversation(s', u, v) {
      assert AloneInConversation(s, u, v);
      if u != w { SameElsewhere(s.workers, s'.workers, w, u); }
      if v != w { SameElsewhere(s.workers, s'.workers, w, v); }
    }
    forall i ensures TurnOk(s', i) { TurnsOk(s, s', w, i); }
    forall i, j ensures TurnsDistinct(s', i, j) { TurnsStayDistinct(s, s', w, i, j); }
    forall k ensures AnswerOk(s', k) { AnswersOk(s, s', w, k); }
  }

  // ---- One lemma per event ----

  lemma {:induction false} MovesKeepAgreement(s: System, w: nat, wk: Worker)
    requires Agreement(s) && w in s.workers && Inside(s.workers[w]) && Inside(wk)
    requires wk.request == s.workers[w].request && WorkerOk(s, wk)
    ensures Agreement(Put(s, w, wk))
  {
    var s' := Put(s, w, wk);
    assert RecordOk(s, RunOf(wk)) && GateOk(s, w);
    assert s'.repo == s.repo && s'.history == s.history;
    assert WorkerOk(s', wk);
    OwnStepKeepsAgreement(s, s', w);
  }

  lemma {:induction false} LeavingKeepsAgreement(s: System, w: nat)
    requires Agreement(s) && w in s.workers && Inside(s.workers[w])
    ensures Agreement(Leave(s, w))
  {
    assert RecordOk(s, RunOf(s.workers[w])) && GateOk(s, w);
    OwnStepKeepsAgreement(s, Leave(s, w), w);
  }

  lemma {:induction false} ReturningKeepsAgreement(s: System, w: nat, p: Payload)
    requires Agreement(s) && w in s.workers && Inside(s.workers[w])
    requires Settled(s, Conv(s.workers[w]), RunOf(s.workers[w]), TextOf(p))
    ensures Agreement(Return(s, w, p))
  {
    assert RecordOk(s, RunOf(s.workers[w])) && GateOk(s, w);
    var s' := Return(s, w, p);
    assert Settled(s', Conv(s.workers[w]), RunOf(s.workers[w]), TextOf(p));
    OwnStepKeepsAgreement(s, s', w);
  }

  lemma {:induction false} EnvironmentKeepsAgreement(s: System, e: Event)
    requires Agreement(s) && Enabled(s, e) && (e.Tick? || e.Crash? || e.Arrive?)
    ensures Agreement(Apply(s, e))
  {
    var s' := Apply(s, e);
    forall r ensures RecordOk(s', r) { assert RecordOk(s, r); }
    forall w ensures GateOk(s', w) { assert GateOk(s, w); }
    forall w, v ensures AloneInConversation(s', w, v) { assert AloneInConversation(s, w, v); }
    forall w ensures WorkerAtOk(s', w) { assert WorkerAtOk(s, w); }
    forall i ensures TurnOk(s', i) { assert TurnOk(s, i); }
    forall i, j ensures TurnsDistinct(s', i, j) { assert TurnsDistinct(s, i, j); }
    forall k ensures AnswerOk(s', k) { assert AnswerOk(s, k); }
  }

  lemma {:induction false} TurnedAwayKeepsAgreement(s: System, w: nat)
    requires Agreement(s) && HasWorker(s, w, AtGate)
    ensures Agreement(Goto(s, w, Done))
  {
    var s' := Goto(s, w, Done);
    forall r ensures RecordOk(s', r) { assert RecordOk(s, r); }
    forall v ensures GateOk(s', v) { assert GateOk(s, v); }
    forall u, v ensures AloneInConversation(s', u, v) { assert AloneInConversation(s, u, v); }
    forall v ensures WorkerAtOk(s', v) { assert WorkerAtOk(s, v); }
    forall i ensures TurnOk(s', i) { assert TurnOk(s, i); }
    forall i, j ensures TurnsDistinct(s', i, j) { assert TurnsDistinct(s, i, j); }
    forall k ensures AnswerOk(s', k) { assert AnswerOk(s, k); }
  }

  /** Entering a free conversation: nobody else is inside with it, since everyone inside holds the gate. */
  lemma {:induction false} EnterKeepsAgreement(s: System, w: nat)
    requires Agreement(s) && Enabled(s, Enter(w))
    ensures Agreement(OnEnter(s, w))
  {
    if Conv(s.workers[w]) in s.gate {
      TurnedAwayKeepsAgreement(s, w);
    } else {
      var s' := Goto(s, w, AtLookup).(gate := s.gate[Conv(s.workers[w]) := RunOf(s.workers[w])]);
      forall r ensures RecordOk(s', r) { assert RecordOk(s, r); }
      forall v ensures GateOk(s', v) { assert GateOk(s, v); }
      forall u, v ensures AloneInConversation(s', u, v) {
        assert AloneInConversation(s, u, v) && GateOk(s, u) && GateOk(s, v);
      }
      forall v ensures WorkerAtOk(s', v) { assert WorkerAtOk(s, v); }
      forall i ensures TurnOk(s', i) { assert TurnOk(s, i); }
      forall i, j ensures TurnsDistinct(s', i, j) { assert TurnsDistinct(s, i, j); }
      forall k ensures AnswerOk(s', k) { assert AnswerOk(s, k); }
    }
  }

  /** `create_or_get`, when it succeeds, leaves a matching record in the store. */
  lemma {:induction false} CreatingKeepsAgreement(s: System, w: nat, migrated: bool)
    requires Agreement(s) && (HasWorker(s, w, AtLookup) || HasWorker(s, w, AtMigrate))
    requires OnCreateOrGet(s.repo, s.workers[w].request.identity, s.now).1.Created?
    ensures var (repo, reply) := OnCreateOrGet(s.repo, s.workers[w].request.identity, s.now);
            Agreement(WithRecord(s.(repo := repo), w, reply.record, reply.created, migrated))
  {
    var (repo, reply) := OnCreateOrGet(s.repo, s.workers[w].request.identity, s.now);
    assert WorkerAtOk(s, w) && RecordOk(s, RunOf(s.workers[w])) && GateOk(s, w);
    OwnStepKeepsAgreement(s, WithRecord(s.(repo := repo), w, reply.record, reply.created, migrated), w);
  }

  lemma {:induction false} LookupKeepsAgreement(s: System, w: nat)
    requires Agreement(s) && Enabled(s, Lookup(w))
    ensures Agreement(OnLookup(s, w))
  {
    var wk := s.workers[w];
    var id := wk.request.identity;
    assert WorkerAtOk(s, w);
    if wk.request.resumed {
      if id.runId !in s.repo.runs {
        MovesKeepAgreement(s, w, wk.(pc := AtMigrate));
      } else if !MatchesIdentity(s.repo.runs[id.runId], id) {
        LeavingKeepsAgreement(s, w);
      } else {
        MovesKeepAgreement(s, w, wk.(pc := AtPreflight, record := Some(s.repo.runs[id.runId]), created := false, migrated := false));
      }
    } else if OnCreateOrGet(s.repo, id, s.now).1.Created? {
      CreatingKeepsAgreement(s, w, false);
    } else {
      LeavingKeepsAgreement(s, w);
    }
  }

  lemma {:induction false} MigrateKeepsAgreement(s: System, w: nat, checkpoint: Checkpoint)
    requires Agreement(s) && Enabled(s, Migrate(w, checkpoint))
    ensures Agreement(OnMigrate(s, w, checkpoint))
  {
    if checkpoint == Exists && OnCreateOrGet(s.repo, s.workers[w].request.identity, s.now).1.Created? {
      CreatingKeepsAgreement(s, w, true);
    } else {
      LeavingKeepsAgreement(s, w);
    }
  }

  /** Preflight lets only unsettled runs through, and replays only settled ones. */
  lemma {:induction false} CheckKeepsAgreement(s: System, w: nat)
    requires Agreement(s) && Enabled(s, Check(w))
    ensures Agreement(OnCheck(s, w))
  {
    var wk := s.workers[w];
    var record := wk.record.value;
    assert WorkerAtOk(s, w) && RecordOk(s, RunOf(wk));
    match Preflight(wk.request.resumed, wk.request.identity, record, wk.created, wk.migrated, s.now)
    case Reject(_) => LeavingKeepsAgreement(s, w);
    case Proceed => MovesKeepAgreement(s, w, wk.(pc := AtCheckpoint));
    case Replay(p) =>
      if record.historyCommittedAt.Some? {
        ReturningKeepsAgreement(s, w, p);
      } else {
        MovesKeepAgreement(s, w, wk.(pc := AtReplayAppend, response := Some(p)));
      }
  }

  /** Appending the turn of a settled run, with its stored text, keeps the agreement. */
  lemma {:induction false} AppendingKeepsAgreement(s: System, w: nat, wk': Worker, p: Payload)
    requires Agreement(s) && w in s.workers && Inside(s.workers[w]) && Inside(wk')
    requires wk'.request == s.workers[w].request
    requires Settled(s, Conv(wk'), RunOf(wk'), TextOf(p))
    requires var h := AppendTurn(s.history, TurnOf(s.workers[w], p));
             InHistory(h, Conv(wk'), RunOf(wk')) ==> WorkerOk(s.(history := h), wk')
    ensures Agreement(Put(s.(history := AppendTurn(s.history, TurnOf(s.workers[w], p))), w, wk'))
  {
    var t := TurnOf(s.workers[w], p);
    var h := AppendTurn(s.history, t);
    if h != s.history {
      assert h == s.history + [t];
      assert h[|s.history|] == t;
    }
    assert InHistory(h, Conv(wk'), RunOf(wk'));
    var s' := Put(s.(history := h), w, wk');
    assert HistoryStep(s, s', Conv(wk'), RunOf(wk')) by {
      if h != s.history {
        assert s'.history == s.history + [t] && Settled(s', Conv(wk'), RunOf(wk'), t.assistant);
      }
    }
    assert RecordOk(s, RunOf(wk')) && GateOk(s, w);
    assert WorkerOk(s.(history := h), wk') ==> WorkerOk(s', wk');
    assert RecordOk(s', RunOf(wk')) by {
      if InHistory(s.history, Conv(wk'), RunOf(wk')) {
        HistoryGrows(s, s', Conv(wk'), RunOf(wk'), Conv(wk'), RunOf(wk'));
      }
    }
    OwnStepKeepsAgreement(s, s', w);
  }

  lemma {:induction false} ReplayAppendKeepsAgreement(s: System, w: nat, stored: bool)
    requires Agreement(s) && Enabled(s, ReplayAppend(w, stored))
    ensures Agreement(OnReplayAppend(s, w, stored))
  {
    var wk := s.workers[w];
    var p := WithPersistence(wk.response.value, stored);
    assert WorkerAtOk(s, w);
    if stored {
      AppendingKeepsAgreement(s, w, wk.(pc := AtReplayReconcile, response := Some(p)), p);
    } else {
      ReturningKeepsAgreement(s, w, p);
    }
  }

  lemma {:induction false} ReplayReconcileKeepsAgreement(s: System, w: nat)
    requires Agreement(s) && Enabled(s, ReplayReconcile(w))
    ensures Agreement(OnReplayReconcile(s, w))
  {
    var wk := s.workers[w];
    assert WorkerAtOk(s, w) && RecordOk(s, RunOf(wk)) && GateOk(s, w);
    var s' := OnReplayReconcile(s, w);
    assert Settled(s', Conv(wk), RunOf(wk), TextOf(wk.response.value));
    OwnStepKeepsAgreement(s, s', w);
  }

  lemma {:induction false} InspectKeepsAgreement(s: System, w: nat, checkpoint: Checkpoint)
    requires Agreement(s) && Enabled(s, Inspect(w, checkpoint))
    ensures Agreement(OnInspect(s, w, checkpoint))
  {
    assert WorkerAtOk(s, w);
    MovesKeepAgreement(s, w, s.workers[w].(pc := AtAcquire));
    LeavingKeepsAgreement(s, w);
  }

  lemma {:induction false} TakeLeaseKeepsAgreement(s: System, w: nat, owner: string, ttl: nat)
    requires Agreement(s) && Enabled(s, TakeLease(w, owner, ttl))
    ensures Agreement(OnTakeLease(s, w, owner, ttl))
  {
    assert WorkerAtOk(s, w) && RecordOk(s, RunOf(s.workers[w])) && GateOk(s, w);
    if OnAcquire(s.repo, s.workers[w].request.identity, owner, ttl, s.now).1.Granted? {
      OwnStepKeepsAgreement(s, OnTakeLease(s, w, owner, ttl), w);
    } else {
      LeavingKeepsAgreement(s, w);
    }
  }

  /** An inside request rewriting its own record, without unsettling it, keeps the agreement. */
  lemma {:induction false} RewritingKeepsAgreement(s: System, w: nat, wk': Worker, record': RunRecord, leases': map<string, LeaseRow>)
    requires Agreement(s) && w in s.workers && Inside(s.workers[w]) && Inside(wk')
    requires wk'.request == s.workers[w].request && RunOf(wk') in s.repo.runs
    requires s.repo.runs[RunOf(wk')].conversationId == Conv(wk') == record'.conversationId
    requires var s' := Put(s.(repo := SqlRepo(s.repo.runs[RunOf(wk') := record'], leases')), w, wk');
             KeepsRecord(s, s', RunOf(wk')) && RecordOk(s', RunOf(wk')) && WorkerOk(s', wk')
    ensures Agreement(Put(s.(repo := SqlRepo(s.repo.runs[RunOf(wk') := record'], leases')), w, wk'))
  {
    assert GateOk(s, w);
    OwnStepKeepsAgreement(s, Put(s.(repo := SqlRepo(s.repo.runs[RunOf(wk') := record'], leases')), w, wk'), w);
  }

  lemma {:induction false} HeartbeatKeepsAgreement(s: System, w: nat, ttl: nat)
    requires Agreement(s) && Enabled(s, Heartbeat(w, ttl))
    ensures Agreement(OnHeartbeat(s, w, ttl))
  {
    var wk := s.workers[w];
    var r := RunOf(wk);
    assert WorkerAtOk(s, w) && RecordOk(s, r);
    var (repo, reply) := OnRenew(s.repo, wk.lease.value, ttl, s.now);
    if reply.Granted? {
      assert s.workers[w := wk] == s.workers && repo.runs == s.repo.runs[r := repo.runs[r]];
      RewritingKeepsAgreement(s, w, wk, repo.runs[r], repo.leases);
    } else {
      MovesKeepAgreement(s, w, wk.(pc := AtRelease));
    }
  }

  /** The outcome of a run becomes durable before anything else happens to it. */
  lemma {:induction false} PersistKeepsAgreement(s: System, w: nat)
    requires Agreement(s) && Enabled(s, Persist(w))
    ensures Agreement(OnPersist(s, w))
  {
    var wk := s.workers[w];
    var r := RunOf(wk);
    assert WorkerAtOk(s, w) && RecordOk(s, r);
    var (repo, reply) := OnMarkTerminal(s.repo, wk.lease.value, OutcomeOf(wk.execution.value), s.now);
    if reply.Recorded? {
      RewritingKeepsAgreement(s, w, wk.(pc := AtAppend), repo.runs[r], repo.leases);
    } else {
      MovesKeepAgreement(s, w, wk.(pc := AtRelease));
    }
  }

  lemma {:induction false} InterruptKeepsAgreement(s: System, w: nat, written: bool)
    requires Agreement(s) && Enabled(s, Interrupt(w, written))
    ensures Agreement(OnInterrupt(s, w, written))
  {
    var wk := s.workers[w];
    var r := RunOf(wk);
    assert WorkerAtOk(s, w) && RecordOk(s, r);
    if written && OutcomeMatches(s.repo, wk.lease.value, s.now) {
      var repo := OnMarkTerminal(s.repo, wk.lease.value, INTERRUPTED, s.now).0;
      RewritingKeepsAgreement(s, w, wk.(pc := AtRelease), repo.runs[r], repo.leases);
    } else {
      MovesKeepAgreement(s, w, wk.(pc := AtRelease));
    }
  }

  lemma {:induction false} CommitKeepsAgreement(s: System, w: nat)
    requires Agreement(s) && Enabled(s, Commit(w))
    ensures Agreement(OnCommit(s, w))
  {
    var wk := s.workers[w];
    var r := RunOf(wk);
    assert WorkerAtOk(s, w) && RecordOk(s, r);
    var p := WithPersistence(wk.execution.value.payload, true);
    var (repo, reply) := OnMarkHistory(s.repo, wk.lease.value, Some(p), s.now);
    if reply.Recorded? {
      RewritingKeepsAgreement(s, w, wk.(pc := AtRelease, response := Some(p)), repo.runs[r], repo.leases);
    } else {
      MovesKeepAgreement(s, w, wk.(pc := AtRelease));
    }
  }

  lemma {:induction false} AppendKeepsAgreement(s: System, w: nat, stored: bool)
    requires Agreement(s) && Enabled(s, Append(w, stored))
    ensures Agreement(OnAppend(s, w, stored))
  {
    var wk := s.workers[w];
    var p := WithPersistence(wk.execution.value.payload, stored);
    assert WorkerAtOk(s, w);
    if stored {
      AppendingKeepsAgreement(s, w, wk.(pc := AtCommit), p);
    } else {
      MovesKeepAgreement(s, w, wk.(pc := AtRelease, response := Some(p)));
    }
  }

  lemma {:induction false} RelinquishKeepsAgreement(s: System, w: nat, written: bool)
    requires Agreement(s) && Enabled(s, Relinquish(w, written))
    ensures Agreement(OnRelinquish(s, w, written))
  {
    var wk := s.workers[w];
    assert WorkerAtOk(s, w) && RecordOk(s, RunOf(wk)) && GateOk(s, w);
    if wk.response.Some? {
      assert Settled(OnRelinquish(s, w, written), Conv(wk), RunOf(wk), TextOf(wk.response.value));
    }
    OwnStepKeepsAgreement(s, OnRelinquish(s, w, written), w);
  }

  lemma {:induction false} FinishKeepsAgreement(s: System, w: nat, x: Execution)
    requires Agreement(s) && Enabled(s, Finish(w, x))
    ensures Agreement(Apply(s, Finish(w, x)))
  {
    assert WorkerAtOk(s, w);
    MovesKeepAgreement(s, w, s.workers[w].(pc := AtMark, execution := Some(x)));
  }

  /** Exceptions and early cancellations unwind to the interruption handler or out of the gate. */
  lemma {:induction false} UnwindingKeepsAgreement(s: System, e: Event)
    requires Agreement(s) && Enabled(s, e) && !LateCancel(s, e) && (e.Fail? || e.Cancel?)
    ensures Agreement(Apply(s, e))
  {
    var wk := s.workers[e.w];
    assert WorkerAtOk(s, e.w);
    if wk.pc == Executing || wk.pc == AtMark {
      MovesKeepAgreement(s, e.w, wk.(pc := AtInterrupt));
    } else if wk.pc == AtCommit {
      MovesKeepAgreement(s, e.w, wk.(pc := AtRelease));
    } else {
      LeavingKeepsAgreement(s, e.w);
    }
  }

  /** Every event but a late cancellation keeps the agreement. */
  lemma {:induction false} StepKeepsAgreement(s: System, e: Event)
    requires Agreement(s) && Enabled(s, e) && !LateCancel(s, e)
    ensures Agreement(Apply(s, e))
  {
    match e
    case Enter(w) => EnterKeepsAgreement(s, w);
    case Lookup(w) => LookupKeepsAgreement(s, w);
    case Migrate(w, checkpoint) => MigrateKeepsAgreement(s, w, checkpoint);
    case Check(w) => CheckKeepsAgreement(s, w);
    case ReplayAppend(w, stored) => ReplayAppendKeepsAgreement(s, w, stored);
    case ReplayReconcile(w) => ReplayReconcileKeepsAgreement(s, w);
    case Inspect(w, checkpoint) => InspectKeepsAgreement(s, w, checkpoint);
    case TakeLease(w, owner, ttl) => TakeLeaseKeepsAgreement(s, w, owner, ttl);
    case Append(w, stored) => AppendKeepsAgreement(s, w, stored);
    case Commit(w) => CommitKeepsAgreement(s, w);
    case Relinquish(w, written) => RelinquishKeepsAgreement(s, w, written);
    case Finish(w, x) => FinishKeepsAgreement(s, w, x);
    case Fail(_) => UnwindingKeepsAgreement(s, e);
    case Cancel(_) => UnwindingKeepsAgreement(s, e);
    case Tick(_) => EnvironmentKeepsAgreement(s, e);
    case Crash => EnvironmentKeepsAgreement(s, e);
    case Arrive(_, _) => EnvironmentKeepsAgreement(s, e);
    case Heartbeat(w, ttl) => HeartbeatKeepsAgreement(s, w, ttl);
    case Persist(w) => PersistKeepsAgreement(s, w);
    case Interrupt(w, written) => InterruptKeepsAgreement(s, w, written);
  }

  // ---- Whole runs ----

  lemma {:induction false} RunKeepsAgreement(s: System, events: seq<Event>)
    requires Agreement(s) && ValidRun(s, events) && NoLateCancel(s, events)
    ensures Agreement(After(s, events))
    decreases |events|
  {
    if events != [] {
      StepKeepsAgreement(s, events[0]);
      RunKeepsAgreement(Apply(s, events[0]), events[1..]);
    }
  }

  predicate WritesRecords(e: Event) {
    e.Lookup? || e.Migrate? || e.ReplayReconcile? || e.TakeLease? || e.Heartbeat? || e.Persist? || e.Commit? || e.Interrupt?
  }

  lemma {:induction false} OtherEventsKeepRecords(s: System, e: Event)
    requires Enabled(s, e) && !WritesRecords(e)
    ensures Apply(s, e).repo.runs == s.repo.runs
  {
  }

  lemma {:induction false} CreationKeepsRecords(s: System, e: Event, r: string)
    requires Enabled(s, e) && (e.Lookup? || e.Migrate?)
    ensures KeepsRecord(s, Apply(s, e), r)
  {
  }

  /** Leasing and outcome writes reach unsettled records only. */
  lemma {:induction false} OutcomeWritesKeepRecords(s: System, e: Event, r: string)
    requires Agreement(s) && Enabled(s, e) && (e.TakeLease? || e.Persist? || e.Interrupt?)
    ensures KeepsRecord(s, Apply(s, e), r)
  {
    assert WorkerAtOk(s, e.w) && Unsettled(s, Conv(s.workers[e.w]), RunOf(s.workers[e.w]));
  }

  lemma {:induction false} RenewalKeepsRecords(s: System, w: nat, ttl: nat, r: string)
    requires Enabled(s, Heartbeat(w, ttl))
    ensures KeepsRecord(s, OnHeartbeat(s, w, ttl), r)
  {
  }

  /** History commits rewrite a settled record with its own text. */
  lemma {:induction false} CommitsKeepRecords(s: System, e: Event, r: string)
    requires Agreement(s) && Enabled(s, e) && (e.ReplayReconcile? || e.Commit?)
    ensures KeepsRecord(s, Apply(s, e), r)
  {
    assert WorkerAtOk(s, e.w);
  }

  /** A settled record survives every event of an agreeing system, text and all. */
  lemma {:induction false} StepKeepsRecords(s: System, e: Event, r: string)
    requires Agreement(s) && Enabled(s, e)
    ensures KeepsRecord(s, Apply(s, e), r)
  {
    if e.Lookup? || e.Migrate? {
      CreationKeepsRecords(s, e, r);
    } else if e.TakeLease? || e.Persist? || e.Interrupt? {
      OutcomeWritesKeepRecords(s, e, r);
    } else if e.Heartbeat? {
      RenewalKeepsRecords(s, e.w, e.ttl, r);
    } else if e.ReplayReconcile? || e.Commit? {
      CommitsKeepRecords(s, e, r);
    } else {
      OtherEventsKeepRecords(s, e);
    }
  }

  /** Once a run's outcome is durable it is never overwritten, whatever crashes and retries follow. */
  lemma {:induction false} SettledForever(s: System, events: seq<Event>, r: string)
    requires Agreement(s) && ValidRun(s, events) && NoLateCancel(s, events)
    ensures KeepsRecord(s, After(s, events), r)
    decreases |events|
  {
    if events != [] {
      StepKeepsRecords(s, events[0], r);
      StepKeepsAgreement(s, events[0]);
      assert RecordOk(s, r);
      SettledForever(Apply(s, events[0]), events[1..], r);
    }
  }

  /**
   The main result, for every run of the system from the empty store: each run has at most one turn
   in the history, written only once its outcome was durable and with the stored text; no settled run
   is being executed; and all responses ever returned for one run are the same stored text.
   */
  lemma {:induction false} OutcomeHistoryReplayAgree(now: int, events: seq<Event>)
    requires ValidRun(Init(now), events) && NoLateCancel(Init(now), events)
    ensures var f := After(Init(now), events);
      && (forall i, j :: 0 <= i < j < |f.history| ==> f.history[i].runId != f.history[j].runId)
      && (forall i :: 0 <= i < |f.history| ==>
            f.history[i].runId in f.repo.runs
            && SqlTerminal(f.repo.runs[f.history[i].runId].status)
            && Stored(f.repo.runs[f.history[i].runId]) == f.history[i].assistant)
      && (forall r :: r in f.repo.runs && f.repo.runs[r].historyCommittedAt.Some? ==>
            InHistory(f.history, f.repo.runs[r].conversationId, r))
      && (forall w :: w in f.workers && f.workers[w].pc in {AtAcquire, Executing, AtMark} ==>
            RunOf(f.workers[w]) in f.repo.runs && !TerminalStatus(f.repo.runs[RunOf(f.workers[w])].status))
      && (forall k :: 0 <= k < |f.answers| ==>
            f.answers[k].runId in f.repo.runs && Stored(f.repo.runs[f.answers[k].runId]) == f.answers[k].text)
      && (forall k, l :: 0 <= k < l < |f.answers| && f.answers[k].runId == f.answers[l].runId ==>
            f.answers[k].text == f.answers[l].text)
  {
    assert Agreement(Init(now));
    RunKeepsAgreement(Init(now), events);
    var f := After(Init(now), events);
    forall i, j | 0 <= i < j < |f.history| ensures f.history[i].runId != f.history[j].runId {
      assert TurnsDistinct(f, i, j);
    }
    forall i | 0 <= i < |f.history|
      ensures f.history[i].runId in f.repo.runs
              && SqlTerminal(f.repo.runs[f.history[i].runId].status)
              && Stored(f.repo.runs[f.history[i].runId]) == f.history[i].assistant
    {
      assert TurnOk(f, i);
    }
    forall r | r in f.repo.runs && f.repo.runs[r].historyCommittedAt.Some?
      ensures InHistory(f.history, f.repo.runs[r].conversationId, r)
    {
      assert RecordOk(f, r);
    }
    forall w | w in f.workers && f.workers[w].pc in {AtAcquire, Executing, AtMark}
      ensures RunOf(f.workers[w]) in f.repo.runs && !TerminalStatus(f.repo.runs[RunOf(f.workers[w])].status)
    {
      assert WorkerAtOk(f, w);
    }
    forall k | 0 <= k < |f.answers|
      ensures f.answers[k].runId in f.repo.runs && Stored(f.repo.runs[f.answers[k].runId]) == f.answers[k].text
    {
      assert AnswerOk(f, k);
    }
  }
}
