# Verified model of the chat service's run protocol, agent graph and stateful services

The service answers chat requests with a bounded agent graph. A request is one *run* of a *conversation*: it is recorded
in a run repository, executed under an expiring lease with a fencing token, its outcome is stored, its turn is appended
to the conversation history, and every retry replays the stored answer. The graph itself plans, researches, works,
verifies, revises and finalizes under counters. Around it stand conversation stores, a two-level inventory cache, an
MCP session manager, an admission controller for the model server, an execution meter, resume tokens, prompt compaction
and server-sent events.

The modules follow those parts:

| files | what they are about |
|---|---|
| RunModel, MemoryRunRepository, PostgresRunRepository, RepositorySimulation, LeaseFencing, Preflight | the two run repositories, that they answer alike, fencing and takeover |
| ChatRuntime, RuntimeAgreement, LateCancellation | the runtime as a transition system with crashes, and what every run of it keeps |
| ClaimGrounding, AgentGraph, GraphTermination, GraphBoundAttained, GraphSoundness, EvidenceFiling | the eleven-node graph, its exact bound, completion soundness and routing, and where evidence is filed |
| ConversationLog, MemoryStore, RedisStore, PostgresStore | three conversation stores refining one plain log |
| McpSession, Admission, InventoryCache, ExecutionMeter | services used by concurrent callers |
| Text, Base64Url, ResumeToken, PayloadCompaction, Sse, SseFrames | the functional cores |

State that the program changes in place is a class whose methods are proved equal to specification functions (`On...`);
interleavings, whole runs and refinements are proved about those functions. Code between two suspension points is one
atomic step at one reading of a clock that never decreases; each SQL statement group, transaction or Lua script is one
step. Every lemma carries `{:induction false}`: each induction is written out in its proof, none is left to the verifier.

What the proofs found to be false of the code, with the exact condition under which it holds:

- A cancellation that arrives after `mark_terminal` returned overwrites the stored outcome whenever the lease is still
  valid (LateCancellation).
- `acquire` ignores the record's status, so two live processes can execute a finished run again (RunPreflight).
- Evidence researched for a task is filed under the key that verification looks up exactly when the task has an id; a run
  completes with an unnamed task only if that task's result claims nothing (AgentGraph, EvidenceFiling).
- The two repositories store different records for an outcome whose payload is the empty object (RepositorySimulation).
- Plain appends keep the Redis list alive but not the set of committed runs: a run's turn is appended again, its first copy
  still visible, exactly when the time to live passed without an `append_turn` (RedisStore).
- A handshake cancelled between its answer and its confirmation leaves a half-made session, whose header the next
  `initialize` carries (McpSession).
- A request cancelled while it waits for the heavy slot lowers the active count of somebody else (Admission).
- The reported age of a cached list is too low exactly when its last stamp was put on a list the client below had fetched
  earlier; by up to one time to live (InventoryCache).
- A resume token is refused by the very service that issued it when its namespace is configured with surrounding white
  space, and old tokens are refused when their key id is reused for a new secret (ResumeToken).
- A streamed frame whose JSON text contains U+0085, U+2028 or U+2029 does not read back (SseFrames).

The run protocol's documentation calls the two repositories "the same contract" (app/state/run_repository.py:141-142);
that is proved for callers that follow the protocol, and the exception above is stated exactly.

## Model

| member | source | states |
|---|---|---|
| RunModel.ThreadIdDeterminesRun | app/orchestration/run_identity.py:185-207 | two normalised identities with one execution thread id are the same run of the same conversation, so the unique column never rejects a new run |
| MemoryRuns.MemoryRunRepository.CreateOrGet | app/state/run_repository.py:166-186 | new state and reply of the in-process `create_or_get`, including the identity conflict |
| MemoryRuns.MemoryRunRepository.Acquire | app/state/run_repository.py:192-229 | new state and reply of the in-process `acquire`: conflict, busy, or a lease with the next fencing token |
| MemoryRuns.MemoryRunRepository.AssertLease | app/state/run_repository.py:338-354 | true exactly when the handle is the stored, unexpired lease of its conversation |
| MemoryRuns.MemoryRunRepository.Renew | app/state/run_repository.py:231-245 | renewal of a current lease and of its record's expiry, stale otherwise |
| MemoryRuns.MemoryRunRepository.Release | app/state/run_repository.py:247-251 | only the owner's lease goes, and its fencing counter stays |
| MemoryRuns.MemoryRunRepository.MarkTerminal | app/state/run_repository.py:253-278 | the outcome replaces status, payload and reasons under a current lease only |
| MemoryRuns.MemoryRunRepository.MarkHistoryCommitted | app/state/run_repository.py:280-300 | the history mark and a new payload, under a current lease only |
| PostgresRuns.PostgresRunRepository.CreateOrGet | app/state/run_repository.py:431-461 | the insert, the unique thread id and the identity check on the two tables |
| PostgresRuns.PostgresRunRepository.Acquire | app/state/run_repository.py:470-534 | the conditional upsert of the lease row and the update of the run row, rolled back together |
| PostgresRuns.PostgresRunRepository.Renew | app/state/run_repository.py:536-571 | the lease row's renewal, and the run row's where the token still matches |
| PostgresRuns.PostgresRunRepository.Release | app/state/run_repository.py:573-588 | the row stays with its token and expires now |
| PostgresRuns.PostgresRunRepository.MarkTerminal | app/state/run_repository.py:590-638 | the joined update, stale when no row matches |
| PostgresRuns.PostgresRunRepository.MarkHistoryCommitted | app/state/run_repository.py:640-673 | the first commit time is kept, the payload is replaced when given |
| PostgresRuns.PostgresRunRepository.ReconcileHistoryCommitted | app/state/run_repository.py:675-696 | the same without a lease, for terminal records only |
| RepositorySimulation.StepSimulates | app/state/run_repository.py:141-351 | one protocol call gets agreeing replies from both repositories and keeps them related, released fencing counters included |
| RepositorySimulation.TraceSimulates | app/state/run_repository.py:141-712 | so does every chronological trace of protocol calls |
| RepositorySimulation.SameContract | app/state/run_repository.py:357-712 | starting empty, a trace of calls with coherent handles gets agreeing replies from both repositories |
| RepositorySimulation.CallersCannotTell | app/state/run_repository.py:141-712 | so does every trace whose callers use only handles they were granted and acquire only runs they created or found, which says nothing about the stores |
| RepositorySimulation.EmptyPayloadSplitsTheContract | app/state/run_repository.py:267-271 | an outcome gives agreeing records if and only if its payload is not the empty object |
| RepositorySimulation.GrantedHandlesCoherent | app/state/run_repository.py:216-229 | one call grants coherent handles and keeps coherent ones so |
| RepositorySimulation.CallerTracesAreProtocol | app/state/run_repository.py:192-278 | along every trace whose callers use only what earlier replies gave them, all handles and identities are coherent |
| LeaseFencing.AtMostOneLive | app/state/run_repository.py:536-552 | two handles of a conversation valid at one instant are the same grant |
| LeaseFencing.DiesExactly | app/state/run_repository.py:536-588 | a valid handle stops being valid in one call exactly by expiry, its own release or its own renewal for zero seconds |
| LeaseFencing.StaleForever | app/state/run_repository.py:536-673 | once an issued handle is not valid, no renew, mark_terminal or mark_history_committed with it succeeds, in any later trace |
| LeaseFencing.TokensStrictlyIncrease | app/state/run_repository.py:483-507 | tokens of successive acquires of a conversation strictly increase along any trace |
| LeaseFencing.ExpiryIsLatestGrant | app/state/run_repository.py:509-571 | the expiry on a record is always that of the run's latest grant or renewal |
| LeaseFencing.RunningHasExpiryStep | app/state/run_repository.py:509-526 | one call keeps it that a running record has an expiry |
| LeaseFencing.ReachedStore | app/state/run_repository.py:470-673 | in every store reached from the empty one, lease rows are on their run's record and every running record has an expiry |
| LeaseFencing.GrantsAreIssued | app/state/run_repository.py:483-571 | every handle granted along a trace is known to the store the trace leads to |
| RunPreflight.TakeoverExactly | app/orchestration/chat_runtime.py:260-286 | in every reached store, whatever others do between the two steps, a resume passes preflight and acquire on a running run if and only if its recorded expiry passed by the first and the conversation is free at the second |
| RunPreflight.NeverDoublyOwned | app/orchestration/chat_runtime.py:215-286 | in every reached store, while a handle of a running run is valid, preflight rejects everybody |
| RunPreflight.OvertakenForEver | app/state/run_repository.py:483-507 | after a granted acquire every handle granted on the conversation before has a smaller token and gets stale replies for ever |
| RunPreflight.NeverStuck | app/orchestration/chat_runtime.py:260-286 | after expiry, whatever others did in between, a current token takes over a free conversation at once, and every handle granted before is smaller and stale for ever |
| RunPreflight.AcquireReopensExactly | app/state/run_repository.py:509-518 | a terminal record stays terminal under `acquire` if and only if the conversation is leased |
| RunPreflight.TwoProcessesReopen | app/orchestration/chat_runtime.py:151-173 | from every pending record, two live processes that both passed preflight execute the run twice |
| RuntimeAgreement.StepKeepsAgreement | app/orchestration/chat_runtime.py:80-213 | every step of any request, crash or restart keeps the invariant tying requests, records, history and gate together |
| RuntimeAgreement.SettledForever | app/orchestration/chat_runtime.py:151-213 | a run with a durable outcome keeps status and text for ever |
| RuntimeAgreement.OutcomeHistoryReplayAgree | app/orchestration/chat_runtime.py:80-286 | over every run without late cancellation: one turn per run, only after its durable outcome and with its text; no settled run is executed; all answers for a run are the same stored text |
| LateCancellation.LateCancelDestroysOutcomeExactly | app/orchestration/chat_runtime.py:192-199 | a cancellation after `mark_terminal` destroys the outcome if and only if the lease is still valid when the handler writes, whatever other requests do until then, and the run can then be executed again |
| LateCancellation.LateCancelIsReachable | app/orchestration/chat_runtime.py:171-199 | every ordinary first request, for any well-formed identity, message, lease and graph result, gets to where that happens |
| ClaimGrounding.StatusMeaning | app/services/claim_grounding.py:36-69 | supported, partially supported and stale, each as an if-and-only-if about the referenced evidence |
| ClaimGrounding.GroundClaims | app/services/claim_grounding.py:27-78 | the loop over claims yields exactly the specified gradings |
| AgentGraph.GatherEvidence | app/graph.py:809-942 | the nested loops over queries and candidate tools yield the specified findings; a budget stop or an escaping exception discards them all |
| AgentGraph.DeduplicateEvidence | app/services/evidence.py:324-333 | the loop with its seen-set keeps the first record of each content |
| AgentGraph.KeysAgreeExactly | app/graph.py:690-700 | research and verification file evidence under the same task key if and only if the task has an id |
| GraphTermination.StepLowersCost | app/graph.py:185-244 | every node lowers the number of nodes left, although research, replan and advance reset their counters |
| EvidenceFiling.UnnamedTasksClaimNothing | app/graph.py:826-860 | in every run ending by a complete edge, results of tasks without an id have no claims, since nothing is ever filed where verification looks for them |
| GraphTermination.GraphTerminates | app/graph.py:679-690 | after 4V + max(5, 2R + 4) nodes (4V + 5 for V below two) no node is left, whatever is answered |
| GraphBoundAttained.BoundIsAttained | app/graph.py:1029-1040 | for all settings with every stage on, some run needs exactly that many nodes |
| GraphSoundness.DedupeKeepsContents | app/services/evidence.py:324-333 | deduplication loses no content |
| GraphSoundness.StepKeepsInvariant | app/graph.py:528-1199 | every node keeps the invariant over plan, results, evidence and reports |
| GraphSoundness.CompletionSound | app/graph.py:679-766 | a run ending by a complete edge has one passed, complete result per task in plan order, every claim backed by evidence tools returned in this run for that task, and a required final check passed on the very response returned |
| GraphSoundness.NeverStuck | app/graphs/routes.py:6-45 | no node reads a task, result or report that is not there, no label lacks an edge, and the task index equals the number of results |
| GraphSoundness.ReasonLeadsOut | app/graph.py:1021-1040 | a termination reason is never cleared and only verify_final can still run before terminate |
| GraphSoundness.ReasonlessTermination | app/graphs/routes.py:20-32 | terminate is entered without a reason exactly from a verifier verdict `terminate` |
| ConversationLog.TurnOnce | app/state/postgres.py:204-230 | in the plain log a run contributes one turn between clears, whatever else comes between |
| ConversationLog.RememberedExactly | app/state/postgres.py:204-274 | a run is remembered exactly while an `append_turn` of it lies after the last clear |
| MemoryStore.PurgeDropsExpiredPrefix | app/state/in_memory.py:143-152 | dictionary order is age order: a purge removes exactly the expired prefix |
| MemoryStore.EvictsLeastRecent | app/state/in_memory.py:92-116 | evicted sessions were touched no later than any that stays, and the written one stays |
| MemoryStore.GetKeepsValid | app/state/in_memory.py:38-53 | `get` keeps order, uniqueness, size bounds and committed-run keys |
| MemoryStore.AppendKeepsValid | app/state/in_memory.py:55-64 | so does `append` |
| MemoryStore.AppendTurnKeepsValid | app/state/in_memory.py:66-90 | so does `append_turn` |
| MemoryStore.ClearKeepsValid | app/state/in_memory.py:118-128 | so does `clear` |
| MemoryStore.GetRefines | app/state/in_memory.py:38-53 | `get` shows the last messages of a live session's log, nothing of an expired one |
| MemoryStore.AppendRefines | app/state/in_memory.py:55-64 | `append` advances one log; expiry and eviction forget whole sessions and nothing else |
| MemoryStore.AppendTurnRefines | app/state/in_memory.py:66-90 | `append_turn` replies and advances as the plain log does, also when the run's messages were trimmed away |
| MemoryStore.TraceRefines | app/state/in_memory.py:38-152 | over any calls, `clear` included, the store stays valid and shows its logs, advancing one and forgetting exactly what it dropped |
| MemoryStore.WholeLogShown | app/state/in_memory.py:38-152 | a session never forgotten along a run shows the end of the plain log of everything it was ever asked |
| MemoryStore.BoundedInMemoryStore.Purge | app/state/in_memory.py:143-152 | the two loops compute the purge |
| MemoryStore.BoundedInMemoryStore.Evict | app/state/in_memory.py:108-116 | the eviction loop computes the eviction |
| MemoryStore.BoundedInMemoryStore.Get | app/state/in_memory.py:38-53 | new state and result of `get` |
| MemoryStore.BoundedInMemoryStore.Append | app/state/in_memory.py:55-64 | new state of `append`, empty keys refused |
| MemoryStore.BoundedInMemoryStore.AppendTurn | app/state/in_memory.py:66-90 | new state and reply of `append_turn`, empty keys refused |
| MemoryStore.BoundedInMemoryStore.Clear | app/state/in_memory.py:118-128 | new state of `clear` |
| RedisStore.AppendRefines | app/state/redis.py:90-100 | `append` advances the log between expiries |
| RedisStore.AppendTurnRefines | app/state/redis.py:10-23 | the script replies and advances as the plain log does between expiries |
| RedisStore.WaitingRefines | app/state/redis.py:79-88 | time alone changes nothing visible until a key expires |
| RedisStore.AppendKeepsMarksExactly | app/state/redis.py:90-100 | a plain append keeps committed runs known as long as messages are visible if and only if the set of runs expires no sooner than the refreshed list |
| RedisStore.TraceRefines | app/state/redis.py:79-132 | any operations between which nothing expires, `clear` included, keep keys and log together |
| RedisStore.CommittedWhileVisible | app/state/redis.py:10-23 | over every run of turns between which the list never lapses, a committed run stays known while any message is visible |
| RedisStore.PlainAppendForgetsExactly | app/state/redis.py:90-122 | after one plain append a committed run's turn is accepted again if and only if the set of runs has expired by then |
| RedisStore.ForgottenExactly | app/state/redis.py:90-122 | after any mixture of plain appends and other runs' turns it is accepted again if and only if the time to live passed somewhere without an `append_turn` |
| RedisStore.DuplicateShownExactly | app/state/redis.py:79-122 | while the list never lapses and nothing is trimmed, that is exactly when the turn is shown a second time with everything shown before still in front |
| RedisStore.DuplicateTurnAfterPlainAppend | app/state/redis.py:90-100 | a plain append in between makes one run's turn visible twice |
| RedisStore.RedisConversationStore.AppendTurn | app/state/redis.py:102-122 | new keys and reply of the script |
| PostgresStore.TrimIsLast | app/state/postgres.py:289-304 | deleting what is not among the newest numbers keeps exactly the last rows |
| PostgresStore.AppendRefines | app/state/postgres.py:173-202 | `append` advances the log, and a row's number is its position in the whole log, so numbering stays strictly increasing under trimming |
| PostgresStore.TurnInsertsBoth | app/state/postgres.py:231-256 | the two conflict-tolerant inserts of a new turn both insert |
| PostgresStore.AppendTurnRefines | app/state/postgres.py:204-258 | `append_turn` replies and advances as the plain log does |
| PostgresStore.HistoryRefines | app/state/postgres.py:146-304 | any sequence of operations, `clear` included, keeps tables and log together |
| PostgresStore.PostgresConversationStore.Append | app/state/postgres.py:173-202 | the loop numbers the records from the maximum on |
| McpSession.MCPSessionManager.BeginRecovery | app/mcp/session.py:62-79 | a newer live session is reused untouched, else everything is reset |
| McpSession.MCPSessionManager.Negotiate | app/mcp/session.py:95-123 | an acceptable answer is recorded as not yet initialized, any other resets |
| McpSession.SessionsAndRequestsAreDistinct | app/mcp/client.py:365-368 | under every schedule sessions have distinct generations and requests distinct ids |
| McpSession.LiveSessionsAreSupported | app/mcp/session.py:95-123 | under every schedule a live session speaks a supported version, whatever the server selects |
| McpSession.CallsLeaveUnderLiveSession | app/mcp/client.py:202-231 | every call leaves while a session is live, under that session's header and observed generation |
| McpSession.LiveSessionEndsExactly | app/mcp/session.py:75-79 | a live session ends if and only if a caller that observed this very session enters recovery |
| McpSession.GenerationNeverDecreases | app/mcp/session.py:138-140 | along every run |
| McpSession.SingleFlightRecovery | app/mcp/session.py:62-133 | however the callers of one expired session interleave, fail or are cancelled, at most one new session is established |
| McpSession.NeverReplayed | app/mcp/client.py:202-246 | an operation not safe to retry is on the wire at most once, a safe one at most twice |
| McpSession.UnsettledExactly | app/mcp/session.py:109-133 | after a handshake ends the session is live or fully reset, except exactly when it was abandoned between answer and confirmation |
| McpSession.HandshakesAreClean | app/mcp/session.py:81-133 | without such an abandonment no `initialize` carries a session header |
| McpSession.AbandonedHandshakeLeaks | app/mcp/session.py:127-133 | with one, the next `initialize` carries the abandoned header |
| Admission.LimitsHold | app/llm/resource_manager.py:37-84 | under every schedule with cancellation at any wait: slots and holders conserved, limits kept, queue and heavy count exact, active count exact if and only if losses and gains cancel |
| Admission.ExactWithoutHeavyCancel | app/llm/resource_manager.py:54-84 | the active count is exact on runs without a cancellation that loses count |
| Admission.CountLostByHeavyCancel | app/llm/resource_manager.py:75-84 | one such cancellation makes a running request read as none |
| Admission.SomeoneMoves | app/llm/resource_manager.py:47-52 | the two nested waits never deadlock |
| Admission.OllamaResourceManager.Leave | app/llm/resource_manager.py:67-84 | the handler and the final block, by what was acquired |
| InventoryCache.CachingClient.List | app/llm/ollama.py:183-245 | a hit, a refresh stamped when answered, or a stale value after an error, with the cache as it should be in each case |
| InventoryCache.InventoryService.Snapshot | app/services/inventory.py:132-141 | served from cache exactly when both sources are fresh, with the larger age |
| InventoryCache.InventoryService.LoadModels | app/services/inventory.py:150-173 | one source's new cache and outcome |
| InventoryCache.InventoryService.LoadTools | app/services/inventory.py:175-198 | likewise for tools |
| InventoryCache.StalenessBound | app/services/inventory.py:80-198 | over every run, a served list was fetched at most ttl + max(ttl, stale_if_error) before it was selected, at most ttl after a refresh without error |
| InventoryCache.StalenessBoundAttained | app/services/inventory.py:150-173 | for all settings with both sources on, ages 2 ttl and ttl + stale_if_error occur, and the snapshot with the first reports ttl |
| InventoryCache.StampReportsTrueAgeExactly | app/services/inventory.py:150-215 | a stamp makes the reported age true from then on if and only if it is not put on a list the client below had fetched earlier |
| InventoryCache.ReportedAgeTrueExactly | app/services/inventory.py:200-215 | over every run, a list served from cache is as old as reported if and only if its last stamp was not of that kind |
| InventoryCache.ReportedAgeUnderstates | app/services/inventory.py:200-215 | the list is as old as reported or up to one ttl older |
| ExecutionMeter.ExecutionBudget.BeginModelAttempt | app/orchestration/execution_meter.py:152-165 | what is raised, or the charged counters and the scope's attempt count |
| ExecutionMeter.StructuredModels | app/agents/base.py:250-259 | the primary and at most one different configured model |
| ExecutionMeter.MeterConserved | app/orchestration/execution_meter.py:138-206 | under every interleaving: successes, failures and in-flight make up attempts, limits hold, fallbacks are counted per operation, and attempts are at most twice the operations |
| ExecutionMeter.CheckNeverFiresOnCalls | app/orchestration/execution_meter.py:138-146 | `check` raises exactly for the deadline and the verifier rounds |
| Base64Url.DecodeEncode | app/orchestration/run_identity.py:391-398 | decoding inverts encoding for every byte string |
| Base64Url.EncodeAvoidsSeparator | app/orchestration/run_identity.py:391-393 | neither the separator nor padding occurs in encoded text |
| Base64Url.ScanSkips | app/orchestration/run_identity.py:395-398 | the lenient decoder ignores foreign characters anywhere |
| Text.StripIsPlain | app/orchestration/run_identity.py:270-274 | stripping gives text without outer white space and changes exactly the other texts |
| ResumeToken.AcceptedTokenBindsRequest | app/orchestration/run_identity.py:242-326 | any accepted token names this request's run under this service, unexpired and signed by a key of the ring |
| ResumeToken.OpenIssued | app/orchestration/run_identity.py:328-357 | an issued token opens to exactly its claims if a tried key signs its payload alike, and is invalid otherwise |
| ResumeToken.RoundTripExactly | app/orchestration/run_identity.py:209-326 | for a reader still holding the key, the token gives the issued run back if and only if it is unexpired, configuration and request are the same and no field changes under stripping |
| ResumeToken.ResumeContinuesRun | app/orchestration/run_identity.py:185-240 | the same request before expiry, also after key rotation |
| ResumeToken.ReusedKeyIdRejects | app/orchestration/run_identity.py:343-357 | a reused key id cuts old tokens off |
| PayloadCompaction.TruncationKeepsPaths | app/agents/base.py:329-360 | what is found at any path of the truncated payload is the truncation of what was there, and it is found exactly when no list on the way dropped it |
| PayloadCompaction.TruncateIdempotent | app/agents/base.py:329-360 | truncating twice is truncating once |
| PayloadCompaction.CompactPayload | app/agents/base.py:289-327 | unchanged if and only if it fits, else the loosest level that fits, and only the last resort may overflow |
| PayloadCompaction.CompactionKeepsFields | app/agents/base.py:300-316 | no key is lost and only the history is shortened beforehand |
| PayloadCompaction.RetryBudgetIsSmaller | app/agents/base.py:71-82 | the second attempt's budget is below the first, for all settings and however the product with 0.40 is rounded below the first |
| Sse.ParseSse | app/mcp/sse.py:17-63 | the line loop computes the fold over lines |
| Sse.ParseAppend | app/mcp/sse.py:25-43 | texts cut after a blank line parse independently, even between carriage return and line feed |
| SseFrames.FrameExactly | app/graph.py:73-74 | a frame reads back as its event if and only if name and JSON text have no line break |
| SseFrames.StreamExactly | app/graph.py:73-74 | so does a stream of frames |

## Left out

- RuntimeAgreement.OutcomeHistoryReplayAgree: for one live process at a time with crashes and restarts, since `acquire` does not look at the status (RunPreflight.TwoProcessesReopen), and without cancellations after `mark_terminal` returned (LateCancellation).
- RepositorySimulation.SameContract: callers pass non-empty payloads and reconcile terminal runs only; the instant of the history commit is compared by presence, because the in-process repository stamps it anew.
- RedisStore.AppendTurnRefines: between expiries; list and set of runs expire apart, and what that breaks is stated by ForgottenExactly. Markers left by older versions never expire here.
- InventoryCache.StalenessBound: counted up to the moment a list is selected; a load that still waits for its other source returns it later by that wait. A list counts as fetched when the client finished the exchange.
- McpSession.SingleFlightRecovery: the client is not closed meanwhile; closing resets the session without a lock. Sessions are enabled; with sessions disabled there is no handshake and no recovery.
- ExecutionMeter.MeterConserved: covers counts; token, time and queue totals are plain sums and are left out, and so is a meter restored from a checkpoint.
- ResumeToken.RoundTripExactly: JSON, HMAC and UUID syntax are functions of their own, JSON only assumed to read back what it printed; nothing is said about forging signatures.
- PayloadCompaction.CompactPayload: the measure of a payload is any function; the length of its JSON text is one. Object keys are text.
- GraphTermination.GraphTerminates: nodes of one fresh invocation; a graph resumed from a checkpoint starts with the counters saved there.
- The runtime is modelled on values as a transition system, because what matters there is every interleaving of its awaits; its objects' identities are not captured.
- Content of prompts, model and tool answers, keyword routing scores, deterministic output checks and partial responses: arbitrary values of their types.
- Checkpoint storage and its own recursion limit; a checkpoint lookup answers anything.
- Ambiguous commits, where a statement fails after taking effect; repository and history writes either happen or fail.
- RedisStore.DuplicateShownExactly: for lists that are not trimmed meanwhile; trimming only removes the first copy from view.
- A second cancellation inside an exception handler or final block.
- Semaphore fairness and the order in which waiters wake.
- Request hashing and metadata canonicalisation; a request carries its two hashes.
- Equivalent spellings of one UUID; ids are compared as text, as the code does.
- Token revocation beyond the version number, the deprecated run registry, health payloads, start and stop, routes, metrics, logging.
