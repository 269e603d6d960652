# A verified model of the tool-execution engine

This project models the parts of the repository in which correctness spans many functions and whole runs, and proves
what they promise.

The largest part is the agent's tool-execution engine in `packages/agent/src`:

- **Claims and paths** (`Paths.dfy`, `StableSort.dfy`, `Claims.dfy`, `ClaimResolvers.dfy`): lexical paths, their overlap,
  resource claims, their canonical order, and the resolvers that give every call its claims and fail closed.
- **The dag-v2 scheduler** (`Levelling.dfy`, `DagScheduler.dfy`, `DagPlan.dfy`, `PlanKey.dfy`): the levels, which are
  computed from per-level summaries in mutable records, refine the simple pairwise conflict relation; the width cap; the
  printed plan key and a parser for it.
- **waves-v1** (`Waves.dfy`): the greedy contiguous partition.
- **One call** (`Runs.dfy`, `ToolTimeout.dfy`, `Envelopes.dfy`, `ToolBoundary.dfy`): the timeout race as a protocol over
  every interleaving of settlement, timer, abort, updates and publication; the disposition of its result.
- **Transcripts** (`Transcript.dfy`, `Repair.dfy`, `Turns.dfy`): the inspector, the grammar that it accepts, repair, and
  failure termination.
- **The loop** (`Queues.dfy`, `Events.dfy`, `ToolBatches.dfy`, `AgentLoop.dfy`, `AgentStream.dfy`, `Agent.dfy`): `runLoop`
  and its four executors as a program whose provider, hooks, tools, arriving messages and abort signal choose freely; the
  two message queues that feed it, with the origin of every message; the grammar of the event stream, which also says
  under which claims a call may start; the public streams; the agent's state reduction.
- **A whole dag-v2 run** (`DagRun.dfy`): a step machine that runs the scheduler's plans around the race of every call.

Three smaller parts stand on their own: the terminal input buffer (`Cutting.dfy`, `StdinTokens.dfy`, `StdinBuffer.dfy`,
`StdinLaws.dfy`), the prompt envelope renderer with a parser that undoes it (`PromptGuard.dfy`), and the retry backoff
(`Backoff.dfy`).

Where the source updates state step by step the model does too: level records, the loop, the agent and the input buffer
are classes, loops are loops, and each such method is proved against a function or a predicate about which the lemmas
speak. An environment's choice is a havocked value. What a theorem assumes of the environment is an input: `Promises` says
whether queued messages are tool-free and whether the `prepareNextTurn` hook supplies clean contexts, and the model's
environment keeps exactly the promises made.

## What the proofs found

- The scheduler's comment calls the summary check equivalent to the pairwise check. It is not for a `claims` resolution
  that holds an exclusive claim next to a call without claims; `DagScheduler.ClashIsConflict` gives the exact exception,
  and `ClaimResolvers.ResolutionsNormal` shows that no resolver produces it.
- The order of claims within a call leaves levels alone always, and leaves the plan key alone exactly when no two
  different claims compare equal, which an absent and an empty identity key do (`PlanKey.KeyIgnoresOrder`).
- Lexical canonicalization is not idempotent on an unrooted result that looks like a drive: `./C:x` becomes `C:x`, which
  is refused. `Paths.CanonicalizeIdempotent` says for which inputs it is. The drive pattern also excludes line terminators.
- The late-settlement audit event follows the attempt to publish the call's result, but when the event sink throws it can
  come without that result's `message_end` (`ToolTimeout.AuditWithoutPublish`); it comes after the `message_end` exactly
  when no sink throws on that result (`ToolTimeout.AuditAfterMessageEnd`).
- The backoff delay is NaN exactly for a zero base from retry 1024 on (`Backoff.DelayExact`).
- Chunked terminal input differs from unchunked input exactly where ESC ESC ends one chunk and an introducer starts the
  next (`StdinLaws.IncrementalIsBatch`).

## Model

| member | source | states |
|---|---|---|
| Paths.SegmentsOfJoin | packages/agent/src/path-segments.ts:9-11 | splitting a joined list of proper segments gives the list back |
| Paths.CollapsePathSegments | packages/agent/src/path-segments.ts:30-42 | the loop computes the collapse function, null on escape |
| Paths.CollapseConcat | packages/agent/src/path-segments.ts:30-42 | collapsing a concatenation is null when the first part escapes, and otherwise collapses the collapsed first part with the second |
| Paths.CollapseOfClean | packages/agent/src/path-segments.ts:30-42 | segments without dots are unchanged by both collapse and the drive clamp |
| Paths.CanonicalizeLexicalPath | packages/agent/src/path-segments.ts:51-79 | the loops compute the canonical form in all four shapes: double slash, drive, drive-relative, plain |
| Paths.CanonicalShape | packages/agent/src/path-segments.ts:51-79 | a canonical path is its prefix and joined dot-free proper segments, all of whose characters come from the input |
| Paths.CanonicalizeIdempotent | packages/agent/src/path-segments.ts:51-79 | canonicalizing again changes nothing, if and only if the input is rooted, drive-absolute, or has no stray drive at the start of its collapsed segments |
| Paths.PathSegmentsOverlap | packages/agent/src/path-segments.ts:107-129 | the loop decides the overlap relation, fail closed on paths without a canonical form |
| Paths.RootedOverlapIffComparable | packages/agent/src/path-segments.ts:107-129 | rooted non-escaping paths overlap if and only if one lower-cased segment list is a prefix of the other |
| Paths.NoOverlapBelow | packages/agent/src/path-segments.ts:107-129 | "no overlap" stays true for every path below either side |
| StableSort.SortSorts | packages/agent/src/tool-resource-claims.ts:129-144 | sorting sorts and permutes |
| StableSort.SortClass | packages/agent/src/tool-resource-claims.ts:129-144 | sorting is stable: elements that compare equal keep their order |
| StableSort.SortPermutation | packages/agent/src/tool-resource-claims.ts:129-144 | the sorted order is the same for every order of the input, if and only if no different elements compare equal |
| Claims.ClaimsConflictSymmetric | packages/agent/src/tool-resource-claims.ts:146-155 | claim conflict is symmetric |
| Claims.ResolutionsConflictSymmetric | packages/agent/src/tool-resource-claims.ts:157-165 | resolution conflict is symmetric |
| Claims.CompareClaimsOrdering | packages/agent/src/tool-resource-claims.ts:116-127 | the comparison is antisymmetric and transitive |
| Claims.CanonicalClaimsSame | packages/agent/src/tool-resource-claims.ts:129-144 | canonical order keeps exactly the claims |
| Claims.CanonicalClaimsPermutation | packages/agent/src/tool-resource-claims.ts:116-144 | all orders of the claims have one canonical order, if and only if no two different claims tie |
| Claims.TieWitness | packages/agent/src/tool-resource-claims.ts:116-127 | an absent and an empty identity key tie |
| ClaimResolvers.PathKeyCanonical | packages/agent/src/builtin-tool-resource-claims.ts:59-83 | a path key is the canonical form of itself |
| ClaimResolvers.NormalizeCustomClaims | packages/agent/src/tool-resource-claims.ts:48-74 | the loop gives all candidates' claims, and one malformed or exclusive candidate makes the call run alone |
| ClaimResolvers.RunsAloneIff | packages/agent/src/tool-resource-claims.ts:48-114 | a call runs alone if and only if it is forbidden to run beside others or its claims are not known; otherwise a tool's own list gives one claim a candidate in order, a built-in path tool has one path claim with its own access, and any other tool none |
| ClaimResolvers.ResolutionsNormal | packages/agent/src/tool-resource-claims.ts:48-114 | whatever the resolvers answer, a claims resolution holds no exclusive claim and no empty identity key |
| Levelling.LevelUnique | packages/agent/src/tool-dag-scheduler.ts:141-170 | the level is the least one above every earlier conflict |
| Levelling.LevelIsLongestChain | packages/agent/src/tool-dag-scheduler.ts:141-170 | a call's level is n if and only if its longest conflict chain in source order has n + 1 calls |
| Levelling.LevelLeast | packages/agent/src/tool-dag-scheduler.ts:141-170 | any assignment that separates conflicts in order puts no call on a lower level |
| Levelling.FewestLevels | packages/agent/src/tool-dag-scheduler.ts:141-170 | no such assignment uses fewer levels |
| Levelling.LevelsSeparate | packages/agent/src/tool-dag-scheduler.ts:141-170 | a later conflicting call is on a later level |
| Levelling.LevelsPartition | packages/agent/src/tool-dag-scheduler.ts:141-170 | every call is on exactly one level |
| DagScheduler.ClashIsConflict | packages/agent/src/tool-dag-scheduler.ts:94-133 | the level check on one call is the pairwise conflict, except exactly for an unnormalised exclusive claim against no claims |
| DagScheduler.SummaryExact | packages/agent/src/tool-dag-scheduler.ts:110-133 | consulting only the read, write and exclusive summaries decides a clash with some call of the level |
| DagScheduler.DagLevel.Place | packages/agent/src/tool-dag-scheduler.ts:151-167 | placing a call extends indices and both summaries in place |
| DagScheduler.ConflictsLevel | packages/agent/src/tool-dag-scheduler.ts:110-133 | true if and only if an earlier call on that level clashes |
| DagScheduler.TargetLevel | packages/agent/src/tool-dag-scheduler.ts:145-150 | the scan over all levels finds the call's level |
| DagScheduler.AssignDagLevels | packages/agent/src/tool-dag-scheduler.ts:141-170 | growing the mutable level records yields exactly the levels of the clash relation |
| DagPlan.ApplyConcurrencyCap | packages/agent/src/tool-dag-scheduler.ts:176-192 | the loops cut each level into chunks of at most max(1, floor(cap)) calls, and leave levels whole without a positive finite cap |
| DagPlan.ChunkedShape | packages/agent/src/tool-dag-scheduler.ts:176-192 | chunks flatten to the levels; each is non-empty, ascending, within the cap and within one level, in level order |
| DagPlan.PlanPartition | packages/agent/src/tool-dag-scheduler.ts:141-192 | the plan holds every source index exactly once, in non-empty ascending chunks within the cap |
| DagPlan.PlanSeparates | packages/agent/src/tool-dag-scheduler.ts:141-192 | if i < j clash then i's chunk strictly precedes j's |
| DagPlan.ChunkConflictFree | packages/agent/src/tool-dag-scheduler.ts:141-192 | two different calls of one chunk do not conflict |
| DagPlan.ResolveBatchClaims | packages/agent/src/tool-dag-scheduler.ts:71-92 | one entry a call, in source order, with its resolution and canonical claims |
| DagPlan.ScheduledLevelsExact | packages/agent/src/tool-dag-scheduler.ts:219-227 | for the resolvers' claims a call's level is the longest chain of pairwise `resolutionsConflict` edges that ends at it |
| PlanKey.ComputePlanKey | packages/agent/src/tool-dag-scheduler.ts:201-211 | the loop prints the key |
| PlanKey.KeyReadsBack | packages/agent/src/tool-dag-scheduler.ts:201-211 | a parser reads the canonical claims of every call back from the printed key (JSON strings as in section 7 of RFC 8259) |
| PlanKey.KeyFaithful | packages/agent/src/tool-dag-scheduler.ts:201-211 | keys are equal if and only if all canonical claim sequences are |
| PlanKey.SameKeySameLevels | packages/agent/src/tool-dag-scheduler.ts:141-211 | equal keys imply equal levels |
| PlanKey.KeyIgnoresOrder | packages/agent/src/tool-dag-scheduler.ts:201-211 | the key is the same for every order of each call's claims, if and only if no claims tie |
| PlanKey.ScheduledOrderIrrelevant | packages/agent/src/tool-dag-scheduler.ts:219-227 | reordering resolved claims changes neither levels nor key |
| PlanKey.ScheduleDagLevels | packages/agent/src/tool-dag-scheduler.ts:219-227 | the plan and the key of a batch of calls |
| Waves.PartitionToolBatchWaves | packages/agent/src/parallel-tool-batch.ts:128-168 | the loop computes the greedy waves of the classified calls |
| Waves.WaveEndMaximal | packages/agent/src/parallel-tool-batch.ts:139-166 | a wave is extended as far as any valid wave from its start reaches |
| Waves.GreedyWavesFewest | packages/agent/src/parallel-tool-batch.ts:128-168 | waves are the calls in source order, solo calls alone, scoped paths in a wave disjoint; no contiguous partition like that has fewer |
| Runs.KeptAlong | packages/agent/src/tool-timeout.ts:141-261 | what each allowed action keeps holds at the end of every interleaving |
| ToolTimeout.PlayRemembers | packages/agent/src/tool-timeout.ts:141-261 | what the race's flags say about everything that happened so far |
| ToolTimeout.CommitIsFinal | packages/agent/src/tool-timeout.ts:216-260 | a committed outcome is never replaced |
| ToolTimeout.OneCommit | packages/agent/src/tool-timeout.ts:216-260 | at most one outcome is committed |
| ToolTimeout.CommitCaused | packages/agent/src/tool-timeout.ts:174-226 | the committed outcome's trigger happened; between timer and abort the first to fire decides; a timeout had a positive timer |
| ToolTimeout.ResultIffCommit | packages/agent/src/tool-timeout.ts:141-156 | a race has an outcome if and only if it committed one or its parent was aborted before it started |
| ToolTimeout.LateUpdateDropped | packages/agent/src/tool-timeout.ts:203-229 | an update made after the commit is never delivered |
| ToolTimeout.OneAudit | packages/agent/src/tool-timeout.ts:240-256 | the audit event occurs at most once, because one commit registers one observer and the event uses it up |
| ToolTimeout.AuditAfterPublish | packages/agent/src/agent-loop.ts:1196-1207 | only under "audit", only when a cause won and the tool settled, and only after the attempt to publish the result |
| ToolTimeout.OnePublish | packages/agent/src/agent-loop.ts:779-788 | a call's result is published at most once |
| ToolTimeout.AuditAfterMessageEnd | packages/agent/src/agent-loop.ts:1196-1207 | the audit event comes after the result's `message_end`, if and only if no sink throws on that result |
| ToolTimeout.AuditWithoutPublish | packages/agent/src/agent-loop.ts:779-788 | when the sink throws, the audit event can come without any `message_end` |
| ToolBoundary.ResolveToolTimeoutMs | packages/agent/src/tool-timeout.ts:72-89 | the timer is enabled with exactly the value of the first level present, when that is finite and positive |
| ToolBoundary.FinalizeExecutedToolCall | packages/agent/src/tool-execution-boundary.ts:129-223 | the whole disposition table, error flag and synthetic flag; the envelope constructor throws only for a timeout without a positive timer |
| ToolBoundary.RaceFinalizes | packages/agent/src/tool-timeout.ts:141-261 | no interleaving hands such a timeout to finalization |
| ToolBoundary.OutcomesExact | packages/agent/src/tool-timeout.ts:141-261 | an outcome is possible if and only if some interleaving commits it |
| Transcript.InspectTranscriptIntegrity | packages/agent/src/tool-transcript-integrity.ts:77-171 | the counting pass and the early-breaking scan over mutable maps report exactly the specified issues |
| Transcript.CleanIffClosed | packages/agent/src/tool-transcript-integrity.ts:77-171 | ok if and only if the messages are tool-free ones and blocks "assistant with calls, then at once a permutation of exactly their results", with all call ids distinct |
| Transcript.OnlyMissingIffRepairable | packages/agent/src/tool-transcript-integrity.ts:77-171 | no issue but missing results, if and only if call ids are distinct and the scan is never interrupted |
| Transcript.CleanIffNothingOpen | packages/agent/src/tool-transcript-integrity.ts:120-167 | clean if and only if call ids are distinct and the scan ends with nothing open |
| Transcript.IdsConserved | packages/agent/src/tool-transcript-integrity.ts:120-167 | along an uninterrupted scan, results and open ids together are the calls |
| Repair.RepairTranscriptIntegrity | packages/agent/src/tool-transcript-integrity.ts:210-274 | throws if and only if some issue is not a missing result, always as ambiguous; otherwise appends one synthetic result for each missing call in call order |
| Repair.RepairedClean | packages/agent/src/tool-transcript-integrity.ts:210-274 | a repaired transcript inspects clean |
| Repair.RepairFixedPoint | packages/agent/src/tool-transcript-integrity.ts:210-274 | repairing again changes nothing |
| Repair.PlanFailureTermination | packages/agent/src/agent-loop.ts:83-121 | a failure message is planned if and only if at most results are missing; the plan is the closed transcript and that message, or the input unchanged |
| Repair.FailurePlanClean | packages/agent/src/agent-loop.ts:83-121 | the whole planned transcript inspects clean |
| Turns.ReplyAmbiguity | packages/agent/src/agent-loop.ts:372-379 | after a clean context a reply is ambiguous if and only if a call id repeats |
| Turns.TurnCloses | packages/agent/src/agent-loop.ts:381-426 | a reply with distinct ids and one result a call in source order leaves the context clean |
| Turns.PlainMessagesAppend | packages/agent/src/agent-loop.ts:357-366 | tool-free messages keep a context clean |
| Queues.PendingMessageQueue.Drain | packages/agent/src/agent.ts:134-147 | what is drained and what stays are together the queue, in order; one mode leaves nothing, the other takes at most one message, and a drain is empty only when the queue was |
| Queues.FromInjected | packages/agent/src/agent-loop.ts:357-366 | injecting what left a queue keeps the account of that queue: all that left it is among the new messages of its origin |
| Events.AcceptedEnds | packages/agent/src/agent-loop.ts:247-291 | an accepted stream is agent_start, turns, and one final agent_end that carries exactly the ended messages |
| Events.AcceptedTurns | packages/agent/src/agent-loop.ts:381-430 | each turn_end carries one result for each call of its assistant message, in source order, and these were the messages ended last |
| Events.AcceptedTools | packages/agent/src/agent-loop.ts:1212-1229 | each tool start is followed by exactly one end of that call before its turn ends |
| Events.AcceptedStarts | packages/agent/src/agent-loop.ts:872-890 | a result that says its tool was started comes in the turn of that tool's start and end events |
| Events.AcceptedExclusion | packages/agent/src/agent-loop.ts:870-902 | when dag-v2 starts a call, each call it started before has settled its promise, unless both are in one execution level, where the earlier one has not ended and the resolved claims of their final arguments do not conflict |
| ToolBatches.CollectResults | packages/agent/src/agent-loop.ts:758-780 | one result for each call in source order: its own, else aborted, else skipped |
| AgentLoop.AgentRun.AuthorizeToolCall | packages/agent/src/agent-loop.ts:1089-1163 | failed, blocked and aborted each exactly for their decisions, where an earlier abort prevents the hook and a later one may win over its failure; otherwise ready with the resolved timeout; a refused call is an error that never started |
| AgentLoop.AgentRun.FinalizeCall | packages/agent/src/agent-loop.ts:876-889 | a terminal cause stays the disposition; a late abort means the run is aborted |
| AgentLoop.AgentRun.ExecutePreparedToolCall | packages/agent/src/agent-loop.ts:1165-1210 | any outcome that some interleaving has; never started exactly when the parent was aborted at its start |
| AgentLoop.AgentRun.RunConcurrently | packages/agent/src/agent-loop.ts:991-1014 | executions that end in any order, each begun before or after an abort, give their results in source order and leave nothing running; only tools that ran report that they started; only timeouts and aborts leave promises pending |
| AgentLoop.AgentRun.ExecuteToolCallsSequential | packages/agent/src/agent-loop.ts:911-965 | results of the first calls in source order, added to the context and published; fewer than the calls only after an abort |
| AgentLoop.AgentRun.ExecuteToolCallsParallel | packages/agent/src/agent-loop.ts:967-1031 | the same for the parallel executor |
| AgentLoop.AgentRun.ExecuteToolCallsInWaves | packages/agent/src/agent-loop.ts:651-676 | the same for waves; the batch terminates if and only if all its results ask for it |
| AgentLoop.AgentRun.RunDagLevelCalls | packages/agent/src/agent-loop.ts:800-903 | every call of the level has an outcome unless the run was aborted or stopped by an unsettled timeout, and unless so no promise is left pending |
| AgentLoop.AgentRun.RunExecutionLevel | packages/agent/src/agent-loop.ts:869-902 | the calls of a level start on the plan of their final arguments, which keeps conflicting claims apart, and a level that neither stops nor aborts the run leaves no promise pending |
| AgentLoop.AgentRun.ExecuteToolCallsDagLevels | packages/agent/src/agent-loop.ts:686-795 | exactly one result for each call in source order, under any abort, block, timeout, terminate or skip |
| AgentLoop.AgentRun.CloseAbortedToolBatch | packages/agent/src/agent-loop.ts:1249-1272 | one aborted result for each unanswered call, in source order |
| AgentLoop.AgentRun.ExecuteToolCalls | packages/agent/src/agent-loop.ts:602-643 | whichever executor is chosen, results answer the first calls in order, and all of them unless aborted |
| AgentLoop.AgentRun.StreamAssistantResponse | packages/agent/src/agent-loop.ts:487-597 | refused if and only if the context is not clean; a reply replaces its partial messages and is published once |
| AgentLoop.AgentRun.ProviderTerminated | packages/agent/src/agent-loop.ts:382-401 | calls of a failed or aborted reply are answered without being started |
| AgentLoop.AgentRun.AnswerReply | packages/agent/src/agent-loop.ts:381-430 | after every reply that passes the check, the context is the old one, the reply and one result for each call in source order, and it is clean |
| AgentLoop.AgentRun.Turn | packages/agent/src/agent-loop.ts:351-430 | a turn keeps published, new and context messages in step and accounts for what left the queues; each way out explains itself |
| AgentLoop.AgentRun.RunLoop | packages/agent/src/agent-loop.ts:331-481 | every end of a run explains itself; every message that left a queue is among the new messages, in order and with its origin; a run that ends by its polls leaves both queues empty; the refusal of a provider request needs a caller, queue or hook that breaks the transcript |
| AgentStream.RunAgentLoop | packages/agent/src/agent-loop.ts:247-268 | from a clean context with tool-free prompts and queues, and hooks that keep it clean, the provider-request refusal is unreachable; nothing queued is lost or reordered, and a skipped first poll means that the reply comes right after the prompts |
| AgentStream.RunAgentLoopContinue | packages/agent/src/agent-loop.ts:270-326 | starts if and only if the context is not empty and inspects clean; then the same holds as for a run with prompts |
| AgentStream.EndStreamWithFailure | packages/agent/src/agent-loop.ts:134-156 | a rejected run's stream ends with one agent_end that carries exactly the ended messages, which inspect clean when they could be closed |
| AgentStream.RunStream | packages/agent/src/agent-loop.ts:162-194 | in a run that ends normally the ended messages are the returned ones, agent_end's, and what the context grew by when no hook is configured that replaces it; under dag-v2 every two tool starts of the whole run keep apart as in `Events.AcceptedExclusion` |
| Agents.ReducedMessages | packages/agent/src/agent.ts:556-595 | the state's messages grow by exactly the ended messages |
| Agents.ReducedView | packages/agent/src/agent.ts:556-595 | pending calls are exactly the started ones that have not ended; a message shows exactly while one streams |
| Agents.Agent.ProcessEvents | packages/agent/src/agent.ts:556-595 | each event updates the state as the reduction says |
| Agents.Agent.HandleRunFailure | packages/agent/src/agent.ts:525-545 | the transcript becomes exactly the failure plan for it |
| Agents.TerminatedClean | packages/agent/src/agent.ts:525-545 | that plan keeps the transcript as a prefix and is clean if and only if at most results were missing |
| Agents.Agent.Absorb | packages/agent/src/agent.ts:499-554 | after a run nothing of it is left over; under the promises and without a hook the transcript is clean unless the provider's output was ambiguous |
| Agents.Agent.RunPromptMessages | packages/agent/src/agent.ts:426-440 | the transcript after a prompt is the old one and the run's messages, closed when the run failed; what was queued was taken by the run in order or is still queued |
| Agents.Agent.RunContinuation | packages/agent/src/agent.ts:442-452 | a transcript that does not inspect clean is not continued but terminated, and the queues stay as they are |
| Agents.Agent.Continue | packages/agent/src/agent.ts:360-406 | steering before follow-ups before an empty prompt, as the queues were at the call; what was behind them was taken by the run in order or is still queued; pending calls are refused without touching the transcript or the queues |
| DagRun.StepKeeps | packages/agent/src/agent-loop.ts:800-903 | every action of a run keeps the safety invariant |
| DagRun.MutualExclusion | packages/agent/src/agent-loop.ts:837-902 | in every reachable state two unsettled tool promises belong to the current execution level, and their final resolutions do not conflict |
| DagRun.LevelStartsAlone | packages/agent/src/agent-loop.ts:870-902 | whenever an execution level starts, every tool promise started before has settled |
| DagRun.UnsettledTimeoutStops | packages/agent/src/agent-loop.ts:891-902 | a level that finishes with an unsettled promise stops the run |
| DagRun.StoppedForGood | packages/agent/src/agent-loop.ts:732-756 | after a stop or an abort no level of this or a later batch is entered or started |
| StdinTokens.MousePartsExact | packages/tui/src/stdin-buffer.ts:106-118 | the check by splitting accepts exactly what the mouse pattern accepts |
| StdinTokens.ExtractCompleteSequences | packages/tui/src/stdin-buffer.ts:192-255 | the nested loops compute the tokens and the remainder |
| StdinTokens.TokensConserve | packages/tui/src/stdin-buffer.ts:192-255 | sequences and remainder concatenate to the buffer |
| StdinTokens.TokensProper | packages/tui/src/stdin-buffer.ts:192-255 | each emitted escape sequence is the shortest complete prefix or a lone ESC (CSI final bytes as in section 5.4 of ECMA-48), and the remainder is unfinished |
| StdinTokens.FirstToken | packages/tui/src/stdin-buffer.ts:207-241 | a lone ESC comes only from ESC ESC before an introducer |
| StdinTokens.TokenizeTwice | packages/tui/src/stdin-buffer.ts:192-255 | tokenizing in two parts is tokenizing at once, outside the excepted case |
| StdinTokens.SplitDiffers | packages/tui/src/stdin-buffer.ts:212-233 | in the excepted case the two ways differ right at the pair |
| StdinBuffers.IndexOfFirst | packages/tui/src/stdin-buffer.ts:318-336 | the index is the first occurrence |
| StdinBuffers.StdinBuffer.EmitDataSequence | packages/tui/src/stdin-buffer.ts:389-398 | a raw character that repeats the code point just reported is dropped |
| StdinBuffers.StdinBuffer.Process | packages/tui/src/stdin-buffer.ts:287-387 | one call changes state and output as the feed function says; it terminates |
| StdinBuffers.StdinBuffer.TimerFires | packages/tui/src/stdin-buffer.ts:378-414 | an unfinished sequence is emitted as it is when the timer fires |
| StdinLaws.IncrementalIsBatch | packages/tui/src/stdin-buffer.ts:287-387 | feeding a then b gives the events and the state of feeding a + b, if and only if it is not the excepted case |
| StdinLaws.FeedKeepsValid | packages/tui/src/stdin-buffer.ts:287-387 | between calls the buffer is unfinished, the timer runs exactly while it is not empty, and a paste in progress holds no end marker |
| StdinLaws.PasteSurvivesChunking | packages/tui/src/stdin-buffer.ts:318-369 | any split of a bracketed paste emits exactly one paste event with the content, no data, and returns to idle |
| PromptGuard.UnescapeExact | packages/promptguard/escape.go:11-32 | unescaping succeeds on exactly the escaped texts and inverts escaping, for text and for attributes |
| PromptGuard.EscapeHides | packages/promptguard/escape.go:11-32 | escaped text holds none of the other metacharacters |
| PromptGuard.RenderContext | packages/promptguard/envelope.go:24-59 | the loops render parents then projects, and the parser recovers both from the output |
| PromptGuard.RenderReadsBack | packages/promptguard/envelope.go:24-59 | parsing the rendering gives the parent sources and then the project sources, each in input order with original path and content |
| PromptGuard.RenderInjective | packages/promptguard/envelope.go:24-59 | two inputs render alike if and only if their stable partitions are equal |
| Backoff.Fnv1a32 | packages/adaptorch-wpl/src/retry-backoff.ts:35-41 | the loop computes the hash modulo 2^32 |
| Backoff.StepInjective | packages/adaptorch-wpl/src/retry-backoff.ts:35-41 | each hash step is injective in the hash so far and in the code unit |
| Backoff.OneUnitApart | packages/adaptorch-wpl/src/retry-backoff.ts:35-41 | ids of equal length that differ in exactly one code unit never share a hash |
| Backoff.BackoffDelayMs | packages/adaptorch-wpl/src/retry-backoff.ts:65-79 | defaults, clamping, overflow of the power and the capped base |
| Backoff.DelayExact | packages/adaptorch-wpl/src/retry-backoff.ts:65-79 | the delay is exactly base times (2^31 + h) / 2^32 rounded half up; NaN exactly for a zero base from retry 1024 on |
| Backoff.DelayMonotone | packages/adaptorch-wpl/src/retry-backoff.ts:65-79 | the delay never falls as retries grow, if and only if the settings are not negative |
| Backoff.DelayCapped | packages/adaptorch-wpl/src/retry-backoff.ts:65-79 | once the base is capped the delay is constant |
| Backoff.DelayBounds | packages/adaptorch-wpl/src/retry-backoff.ts:46-64 | the delay is within rounding of half to three halves of the base |
| Backoff.ProductFits | packages/adaptorch-wpl/src/retry-backoff.ts:75-78 | for bases up to 1398101 ms every product is below 2^53 |

## Left out

- AgentLoop.AgentRun.RunLoop: bounded by a number of provider requests, because a run need not end; every statement holds
  at every bound.
- AgentLoop.AgentRun.ExecutePreparedToolCall: the race is one step here; its interleavings are in ToolTimeout and DagRun.
- AgentLoop.AgentRun.PlanLevels: arguments before and after the hook, and the options of the resolvers at each planning, are
  chosen by the environment.
- AgentLoop.AgentRun.Arrive: queues are not cleared and do not change their mode during a run.
- AgentLoop.AgentRun.Emit: event sinks and listeners do not throw in the loop model; the race model covers a throwing
  sink.
- AgentStream.RunAgentLoopContinue: the source hands the caller's own message array to the loop, so continuing changes it in
  place, while `runAgentLoop` copies; in the model the context is a value of the run.
- AgentLoop.AgentRun.PrepareNextTurn: hooks replace the context only where the source lets them; a hook that mutates the
  shared message array in place is not modelled.
- DagRun.MutualExclusion: stated for dag-v2 only; waves-v1 does not stop on an unsettled timeout.
- Backoff.DelayExact: exact arithmetic for whole settings; above the base of ProductFits doubles round the product first.
- ToolBoundary.FinalizeExecutedToolCall: a result's details are not modelled, only content, terminate and error flag.
- Tool updates and late-settlement events are actions of the race and not events of the loop's trace, where a settled
  promise is only marked.
- Provider streaming internals, convertToLlm, API keys, model and thinking-level changes between turns.
- Schema validation, immutable snapshots and plain-data conversion: messages are immutable values.
- Timestamps, usage, and error texts beyond the fixed ones.
- The node resource resolver and its file-system calls: a resolver is any function that answers keys, nonsense or failure.
- Unpaired UTF-16 surrogates and non-ASCII case folding in paths and claims; `$` patterns in the home directory when `~`
  is expanded.
- Raw byte conversion of terminal input, and an unfinished escape sequence before a paste start, which the source drops
  and so does `StdinBuffers.StdinBuffer.StartPaste`.
- Subscription, images, and configuration fields of the agent.
- The rest of `adaptorch-wpl`, `promptguard/scan.go`, the user interface, the CLI and the scripts.
