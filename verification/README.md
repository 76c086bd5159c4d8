# Kaggen runtime: verified model

Kaggen runs agents: a coordinator dispatches background tasks to specialist
agents, some tasks form pipelines of stages, some tool calls wait for a human
decision, and conversations are pruned to fit a model's context. This project
models the in-memory parts of that runtime in Dafny and proves what they keep
over whole runs.

Check everything with `dafny verify dfyconfig.toml`.

## How it is laid out

| file | what it holds |
|---|---|
| `options.dfy`, `text.dfy` | shared vocabulary |
| `task_ledger.dfy` | the task table as a value, one operation per locked method, and its life-cycle invariants over all runs |
| `pipelines.dfy` | stage progress, start times, and the index from agents to stages |
| `inflight_store.dfy` | the mutable store and its task records, each method proved against the task table |
| `event_loop.dfy` | the loop over an agent's event stream, and which streams reach the end |
| `dispatch_protocol.dfy` | dispatch calls and background runs as small programs whose shared accesses interleave freely |
| `pipeline_safety.dfy`, `run_safety.dfy`, `run_records.dfy`, `cancel_runs.dfy`, `pipeline_reach.dfy` | what every reachable world of that protocol keeps, what the records of its runs carry, which cancels are honoured, which pipelines can complete |
| `dispatcher.dfy` | the dispatch call against the mutable store |
| `skill_graph.dfy` | the guarded skill graph, its pause at the approval gate and its resumption |
| `approval_protocol.dfy` | gate, waiter, decision channel, reaper and dashboard as interleaved steps |
| `checkpoints.dfy` | the checkpoint saver, its lineage index and the parent chains the index stands for |
| `context_manager.dfy` | token estimates and the three levels of pruning |
| `rate_limiter.dfy` | the sliding-window limiter and the outbound spacing per chat |
| `world_model.dfy` | error streak, transition log and the pivot and progress judgements |
| `chunk_text.dfy`, `log_streamer.dfy`, `session_store.dfy` | message chunking, the log ring buffer, pinned session histories |

Code that updates state in place is a class here as well, with each method
proved against a function of the old state; the theorems are about those
functions. Concurrency is interleaving: one step per access made under a lock,
a channel operation or a store call, in any order, with any clock advance between.

## What the code does that its documentation or its callers may not expect

Each of these is a theorem, with the exact condition where there is one.

- A cancel that found its task running is overwritten by the run's success exactly
  when the run was past its check, or had not reached it and the cancel could
  not touch its context (`CancelIsOverwrittenIff`; `CancelIsOverwritten` is such a
  run). A cancelled run that asks reports the cancellation exactly if its task is
  still stored then: a queue-policy task may have been collected, and the run
  reports a timeout (`CancelReportedIff`, `CancelGoesUnreported`). Once cancelled,
  the task of a dispatched run never becomes failed (`CancelledRunsNeverFail`). An
  external task can: two callbacks that checked its status before the cancel may
  write after it (`CancelledCanEndFailed`), and a cancelled task ends failed exactly
  when a completion is followed by a failure and no further completion
  (`CancelledEndsFailedIff`).
- The pipeline clock is never reset: two hours after its first stage-1 dispatch a
  session's pipeline is closed for good (`ExpiredPipelineStaysClosed`).
- An agent named by two slots counts only for the first, so a pipeline that uses
  it later cannot get past that stage (`PipelineCompletable`).
- A stage counts as completed, and a run as successful, whether or not its backlog
  item could be marked: it is marked exactly if it was linked and existed at that
  step (`ItemMarkedIffFound`).
- The documentation promises approval per guarded call
  (`docs/guarded_skills.md:3-7`). The code approves per execution: calls made
  after the approved batch run unasked (`LaterCallsRunUnasked`). The promise is
  kept exactly when the paused message makes one guarded call and the model's
  later answers lead to no other (`PerCallApprovalIff`).
- `SignalDecision` may accept a decision that has no effect: it can still count
  exactly if the waiter is waiting at that moment (`AcceptedDecisionMayCountIff`),
  and even then it can lose against the timeout (`ApprovalLostToTimeout`). A
  dashboard request can overrule a settled decision (`StaleApprovalOverrules`). An
  outcome that agrees with its decision does so in every continuation exactly when
  no request that found the task pending has yet to write (`DecisionStandsIff`), and
  a request that overrules had checked before the settlement and was about to write
  ever since (`OverruledOnlyByAStaleCheck`). The gate of an approved execution
  completes the task again at every later guarded call, so an overruling rejection
  may itself be undone (`StaleRejectionIsUndone`).
- Saving a checkpoint under an ID that is already filed breaks the lineage index,
  and nothing else does (`SaveKeepsIndexIff`). The gate resumes from the saver's one
  last checkpoint, which is its own execution's exactly if nobody else has saved
  since (`LastCheckpointIsOwnIff`, `LastCheckpointCanBeForeign`).
- Truncating a tool output lengthens it when it is over the limit by less than the
  marker (`TruncationShrinksIff`). Consolidation also drops every system message
  after the first, which its marker does not count (`MarkerCountsEverythingIff`).
  Consolidation and emergency pruning can separate a tool call from its results,
  exactly when a result stands first behind one of their cuts
  (`PairingSurvivesIff`).
- `ShouldPivot` and `IsProgressingWell` agree with each other only from the fifth
  call on (`PivotExcludesProgressIff`).
- `chunkText` documents its limit in characters and counts bytes. It cuts a
  character in two exactly when the window has no newline to break at and the byte
  behind it continues a character (`BoundaryCutsIff`), which some text brings about
  for every limit (`CanSplitACharacter`).
- A session that does not start with a system message still gets one pinned, once
  the first one has become the oldest message kept (`PinnedIff`).

## Model

| member | source | states |
|---|---|---|
| TaskLedger.RunSound | internal/agent/async.go:210-262 | over any run of store operations a task has a completion time exactly when it is neither running nor pending, only external tasks are pending, and the reaper has reported each ID at most once |
| TaskLedger.NeverLiveAgain | internal/agent/async.go:237-262 | a task that left running and pending approval, or was collected, never returns to either |
| TaskLedger.CancelledUntilCompleted | internal/agent/async.go:237-262 | a stored cancelled task is still cancelled at the end of any run iff nobody completed it meanwhile |
| TaskLedger.CancelledEndsFailedIff | internal/agent/async.go:237-262 | a stored cancelled task ends failed iff a completion is followed by a failure and no later completion |
| TaskLedger.SettledEndsFailedIff | internal/agent/async.go:237-262 | a completed or failed task ends failed iff the last of its completions and failures is a failure |
| TaskLedger.NeverCancelledAfterCompletion | internal/agent/async.go:368-383 | a completed or failed task is never cancelled afterwards |
| TaskLedger.StaysCollected | internal/agent/async.go:301-312 | a task that was handed out as a queued result does not come back |
| TaskLedger.CancelledCanEndFailed | internal/gateway/callbacks.go:71-114 | a concrete run of an external task that ends failed after a cancel, by two callbacks that each found it running before |
| TaskLedger.StepSound | internal/agent/async.go:455-475 | each single operation, the reaper pass included, keeps those invariants and keeps finished tasks finished |
| TaskLedger.RegisteredAs | internal/agent/async.go:210-436 | the status, deadline, policy, agent and pipeline each of the three registrations gives its task |
| TaskLedger.RunKeepsTask | internal/agent/async.go:210-475 | no run of operations changes who a stored task is of, its policy or its deadline |
| TaskLedger.SettleInFields | internal/agent/async.go:237-383 | completing, failing and cancelling in the fields of the record, with the statuses that refuse them |
| TaskLedger.ReapInFields | internal/agent/async.go:455-475 | a pass fails and reports a task iff it is external, running or pending, and had a deadline d with now > d; any other is untouched |
| TaskLedger.ReaperKeepsDeadline | internal/agent/async.go:387-475 | a task registered at t0 with timeout T is, after any run, left alone by a pass up to t0 + T, and by a later one failed and reported iff it is still running or pending |
| TaskLedger.CollectInFields | internal/agent/async.go:301-312 | a collection removes exactly the completed, failed or cancelled queue-policy tasks and leaves the others as they are |
| TaskLedger.ResultIsHandedOut | internal/agent/async.go:237-312 | the result of a completion is still in the record after any run without another completion or failure, and the next collection removes it iff its policy is to queue |
| InFlight.TaskState.TimeOut | internal/agent/async.go:458-468 | fails exactly an external task, running or pending, with a deadline strictly before now; any other record is untouched |
| InFlight.InFlightStore.Register | internal/agent/async.go:210-225 | adds a running task without completion time and changes nothing else |
| InFlight.InFlightStore.RegisterExternal | internal/agent/async.go:420-436 | adds a running external task with its deadline |
| InFlight.InFlightStore.RegisterApproval | internal/agent/async.go:387-417 | adds a pending task with its deadline and the auto policy |
| InFlight.InFlightStore.SetCancelFunc | internal/agent/async.go:359-365 | makes the context of a stored task reachable for cancels |
| InFlight.InFlightStore.Complete | internal/agent/async.go:237-246 | completes a stored task whatever its status was |
| InFlight.InFlightStore.Fail | internal/agent/async.go:249-262 | fails a stored task unless it is cancelled |
| InFlight.InFlightStore.Cancel | internal/agent/async.go:368-383 | cancels a running task and its context if reachable; answers whether it was running |
| InFlight.InFlightStore.ReapExpiredExternal | internal/agent/async.go:455-475 | whatever the order of the map, fails exactly the external tasks, running or pending, whose deadline is before now, reports each of them once and touches no other |
| InFlight.InFlightStore.QueuedResults | internal/agent/async.go:301-312 | hands out exactly the completed, failed or cancelled queue-policy records, each once, and removes them |
| InFlight.InFlightStore.RecordPipelineStage | internal/agent/async.go:315-325 | records one stage, creating the tables on first use |
| InFlight.InFlightStore.IsPipelineStageCompleted | internal/agent/async.go:328-338 | answers membership, false for unknown sessions and pipelines |
| InFlight.InFlightStore.RecordPipelineStart | internal/agent/async.go:478-499 | sets a start time only if there is none |
| InFlight.InFlightStore.PipelineElapsed | internal/agent/async.go:512-523 | time since the start, zero if there is none |
| Pipelines.RecordedAddsOneStage | internal/agent/async.go:315-338 | recording adds one stage to one pipeline of one session and changes no other answer |
| Pipelines.WithStartKeepsFirst | internal/agent/async.go:478-523 | a start time once set is never changed, of this or any other pipeline |
| Pipelines.OverTimeIff | internal/agent/async.go:512-523 | the time since the start exceeds a limit iff the pipeline has started and now is past the start by more than it |
| Pipelines.PrefixFromClosure | internal/agent/async.go:635-646 | stages recorded in order are exactly 1 to their number |
| Pipelines.AgentSet | internal/pipeline/pipeline.go:121-131 | the index maps exactly the named agents, each to the first slot that names it |
| Pipelines.IndexIsUnique | internal/pipeline/pipeline.go:121-131 | that description determines the index, and indexed stages start at 1 |
| EventLoop.Consume | internal/agent/async.go:783-1008 | the loop with its three counters ends as the fold over its events says, stopping at the first event that aborts |
| EventLoop.ReachesEndIffClean | internal/agent/async.go:804-1008 | the loop reaches the end iff responses stay below the turn limit, none is a call-limit or overflow error, none is vetoed, and no three errors come without an answer between; the result is then the last non-empty text |
| EventLoop.AbortReasonIff | internal/agent/async.go:811-1008 | a stream ends for a reason iff some response behind a clean prefix is grounds for it: the turn limit, else by its message a call limit, else an overflow, else the third error without an answer, or a veto of an answer |
| EventLoop.MessagesAreToldApart | internal/agent/context_manager.go:459-478 | a message is a call limit or an overflow iff it is some text, one of the phrases and some text, overflows in lower case |
| EventLoop.AbortIsFinal | internal/agent/async.go:809-1008 | events after the aborting one change nothing |
| PipelineSafety.CompletedStagesFormAPrefix | internal/agent/async.go:635-646 | in every reachable world the completed stages of a session's pipeline are exactly 1 to k |
| PipelineSafety.InFlightStagesHavePredecessors | internal/agent/async.go:635-646 | every run whose request names a pipeline with its agent indexed there at stage j has, from admission to its end, stages 1 to j-1 completed |
| PipelineSafety.AdmissionsRespectTheClock | internal/agent/async.go:648-659 | every admitted pipeline run has a recorded start at most two hours before its admission, and no later step changes it |
| PipelineSafety.ExpiredPipelineStaysClosed | internal/agent/async.go:478-499 | once two hours have passed since the start no further dispatch of any of its indexed stages is admitted, ever |
| DispatchProtocol.GatedIff | internal/agent/async.go:635-673 | a dispatch is subject to stage k iff it names a pipeline in which the index has its agent at stage k; nothing else of the request matters |
| PipelineSafety.GateDecides | internal/agent/async.go:635-660 | a dispatch at the gate is refused iff the next earlier stage is not complete, or the start is more than two hours past; else it goes on to register |
| PipelineSafety.UngatedGoesThrough | internal/agent/async.go:661-673 | a dispatch that names no pipeline, or one in which the index does not have its agent, registers at once and starts no clock |
| PipelineReach.CompletableIffIndexed | internal/agent/async.go:635-673 | a stage is completable in some run iff the pipeline has a name and the stage and all before it have a dispatchable agent indexed at just that stage |
| PipelineReach.PipelineCompletable | internal/pipeline/pipeline.go:118-131 | for any definitions, equal names included: iff up to the stage some definition of that name has its own agent indexed at that very stage |
| PipelineReach.CompleteOne | internal/agent/async.go:635-1070 | a dispatch left alone passes the gate, runs and records its stage |
| RunSafety.CompletionIsCalledOnce | internal/agent/async.go:764-1070 | for every stream and interleaving a run has called the completion function once if it is finished and not before |
| RunSafety.FinishedRunsAreAllOrNothing | internal/agent/async.go:1015-1070 | a nil error, the completed task if still stored, the backlog item marked completed if it was linked and existed at the marking step, and the stage in the progress table hold together or none does; the effects come in that order and there are no others |
| RunSafety.ItemMarkedIffFound | internal/agent/async.go:1040-1070 | a run past its mark marked its item at one of its own steps iff the item was linked and in the backlog then, as completed for a success and failed otherwise |
| RunSafety.ProgressIsTheStageLog | internal/agent/async.go:1063-1068 | the progress table holds exactly the stages some run has logged as recorded |
| RunSafety.SuccessMeansCleanStream | internal/agent/async.go:783-1008 | a successful run had a clean stream and returns its last non-empty text |
| RunSafety.ErrorsAreJustified | internal/agent/async.go:764-1038 | an error a run reports was in its stream, its start, or its context |
| RunSafety.CancelBeforeTheCheckSticks | internal/agent/async.go:1015-1031 | a cancel between publication of the cancel function and the check is final |
| RunSafety.CancelIsOverwrittenIff | internal/agent/async.go:1015-1040 | after a cancel that found the task running, some continuation still succeeds iff the run did not get to see it |
| RunSafety.CancelledRunsNeverFail | internal/agent/async.go:237-262 | a cancelled task of a dispatched run is, in every continuation and while stored, still cancelled or completed by a run that won; never failed |
| RunRecords.RecordsFollowTheirRuns | internal/agent/async.go:611-721 | in every reachable world the stored task of a run carries the run's agent, policy and session, the pipeline and stage the index gives it if it has its agent in the named pipeline, else none, and once completed the run's result |
| RunRecords.SuccessIsCollected | internal/agent/async.go:301-312 | the stored task of a successful run carries its result, and the next collection removes it iff its policy is to queue |
| CancelRuns.CancelReportedIff | internal/agent/async.go:1015-1038 | a cancelled run that asks about its task reports the cancellation at its end iff the task is still stored when it asks, and a timeout otherwise |
| CancelRuns.BlameIsReported | internal/agent/async.go:764-1038 | the reason a run first has for losing is the one it reports |
| CancelRuns.CancelGoesUnreported | internal/agent/async.go:301-312 | a concrete run from the start that the user cancels and that fails for a timeout |
| CancelRuns.CancelIsOverwritten | internal/agent/async.go:237-246 | a concrete run from the start whose task is cancelled and then completed |
| Dispatcher.AsyncDispatcher.CheckPipeline | internal/agent/async.go:635-660 | refuses for the first missing earlier stage, else for an expired clock, which only stage 1 starts |
| Dispatcher.AsyncDispatcher.Dispatch | internal/agent/async.go:611-673 | with the agent indexed at stage k of the named pipeline, accepted iff stages 1 to k-1 are complete and no more than two hours have passed; else any dispatchable request is accepted; the order of refusals, what each changes, and the record an accepted one registers |
| SkillGraph.NoGuardedCallWithoutApproval | internal/agent/guarded_graph.go:483-872 | an execution without a decision runs no guarded call on any path, the loop back from llm_continue included, and pauses with one request, for the first guarded call of its last message |
| SkillGraph.RejectionRunsNothing | internal/agent/guarded_graph.go:553-620 | a rejected execution runs no tool at all |
| SkillGraph.ApprovalRunsThePausedBatch | internal/agent/guarded_graph.go:1194-1206 | an approved execution first runs exactly the batch it paused on and never asks again |
| SkillGraph.EachBatchRunsOnce | internal/agent/guarded_graph.go:737-1206 | over a whole invocation every batch that runs is all the calls of one message, in the order of the conversation, and no message's calls run twice; the resumed execution extends the paused conversation |
| SkillGraph.GuardedCallsRunIffApproved | internal/agent/guarded_graph.go:483-872 | over a whole invocation a guarded call runs iff the first execution paused, the decision was approve and the resumed one passed gate and tools; the user is asked at most once |
| SkillGraph.LaterCallsRunUnasked | internal/agent/guarded_graph.go:553-603 | a concrete resumption that runs a guarded call of a later message without a further prompt |
| SkillGraph.PerCallApprovalIff | docs/guarded_skills.md:3-24 | every guarded call that ran stands at a place the user was shown iff nothing ran, or the paused message made one guarded call and the inputs lead to no later answer whose guarded calls run; equal calls are told apart by place |
| SkillGraph.LaterBatches | internal/agent/guarded_graph.go:858-872 | from the model node on, an approved execution runs another guarded batch iff the inputs, read by themselves, lead to one |
| ApprovalProtocol.FirstAcceptedDecisionCounts | internal/agent/guarded_graph.go:89-142 | a waiter with a decision took the value at position 0 of those accepted and acts on it; later signals change nothing and at most one more is accepted |
| ApprovalProtocol.NothingIsLost | internal/agent/guarded_graph.go:89-142 | in every reachable world each accepted value was received or is still in the channel, the newest last |
| ApprovalProtocol.SignalAcceptedIff | internal/agent/guarded_graph.go:89-142 | a signal that found its execution is accepted iff no value was accepted before, or one was and the waiter received it; if not, nothing changes |
| ApprovalProtocol.TimeoutTakesHalfAnHour | internal/agent/guarded_graph.go:1334-1379 | a waiter that gave up did so at least thirty minutes after the step that began its waiting |
| ApprovalProtocol.MayGiveUpIff | internal/agent/guarded_graph.go:1373-1382 | and a waiting one can give up at a step iff thirty minutes have passed since then |
| ApprovalProtocol.DeadlineIsHalfAnHour | internal/agent/guarded_graph.go:618 | the reaper's deadline for an approval's task is thirty minutes after the step that registered it |
| ApprovalProtocol.SettledApprovals | internal/agent/guarded_graph.go:563-603 | once the gate settled or the waiter timed out, the execution is gone, the task no longer live, and until a dashboard request overrules it, it is completed iff the decision was approve |
| ApprovalProtocol.DecisionStandsIff | internal/gateway/dashboard.go:1140-1160 | an outcome agrees with its decision until it is overruled, and one that agrees does so in every continuation iff no dashboard request that found the task pending has yet to write |
| ApprovalProtocol.SettledStatusStandsIff | internal/agent/guarded_graph.go:549-588 | the status a settled or timed-out approval has left its task stays the same in every continuation iff no such request is outstanding and, if its approved execution still runs, the task is completed |
| ApprovalProtocol.DecisionRestoredIff | internal/agent/guarded_graph.go:549-588 | an outcome that disagrees can agree again in some continuation iff a request is outstanding or the approved execution still runs, whose gate completes the task at each later pass |
| ApprovalProtocol.AcceptedDecisionCanBeLost | internal/agent/guarded_graph.go:1334-1395 | from any reached world with an accepted approval in the channel, the timeout branch leaves a failed task |
| ApprovalProtocol.ApprovalLostToTimeout | internal/agent/guarded_graph.go:1334-1395 | a concrete run from the start that ends so |
| ApprovalProtocol.AcceptedDecisionMayCountIff | internal/agent/guarded_graph.go:89-142 | some continuation acts on the accepted value of this position iff the waiter is waiting when it is accepted |
| ApprovalProtocol.CheckedWasPending | internal/gateway/dashboard.go:1140-1144 | a request about to write found the task pending at an earlier step and has been about to write ever since |
| ApprovalProtocol.OverruledOnlyByAStaleCheck | internal/gateway/dashboard.go:1140-1160 | the very request that overrules a settled approval had found the task pending before the settlement step and had been outstanding until its own write |
| ApprovalProtocol.StaleApprovalOverrules | internal/gateway/dashboard.go:1140-1160 | a concrete run in which a rejected approval's task ends completed |
| ApprovalProtocol.StaleRejectionIsUndone | internal/agent/guarded_graph.go:1194-1206 | a concrete run in which an approved task is overruled to failed and completed again by the next guarded call, with no request outstanding |
| Checkpoints.SaveKeepsIndexIff | internal/agent/guarded_graph.go:247-296 | a save keeps byLineage and lineageByCP exact inverses without duplicates iff it files under no lineage or under an ID not filed before |
| Checkpoints.EraseKeepsIndex | internal/agent/guarded_graph.go:381-393 | deleting a lineage keeps them inverse and touches no other lineage |
| Checkpoints.DeleteLineageIsExact | internal/agent/guarded_graph.go:381-393 | every trace of the lineage is gone and every other Get and List answer is unchanged |
| Checkpoints.IndexRefinesParentChains | internal/agent/guarded_graph.go:247-364 | over any run with fresh IDs the index is consistent and files each checkpoint where following its parents back leads, in order of saving |
| Checkpoints.ResolveInFields | internal/agent/guarded_graph.go:257-270 | a save goes by its own lineage, else by the one its top-level parent is filed under whatever else the config holds, else by the configurable parent's, else by none |
| Checkpoints.SaveInherits | internal/agent/guarded_graph.go:1440-1452 | after any run a new checkpoint is filed under just that lineage |
| Checkpoints.StoredInFields | internal/agent/guarded_graph.go:247-364 | a save stores checkpoint, metadata and, if full, pending writes under its ID and touches no other |
| Checkpoints.ChildIsFound | internal/agent/guarded_graph.go:166-204 | after a save under a lineage and one whose top-level parent is the first, Get by the lineage answers with the second |
| Checkpoints.WithoutLineage | internal/agent/guarded_graph.go:1443-1450 | removing a lineage leaves every other parent chain intact |
| Checkpoints.WithoutMembers | internal/agent/guarded_graph.go:381-393 | and leaves every other lineage its saves in their order |
| Checkpoints.GetReturnsTheNewest | internal/agent/guarded_graph.go:166-204 | Get by lineage answers with the newest save of the tree, and with nothing iff the tree is empty |
| Checkpoints.ListIsComplete | internal/agent/guarded_graph.go:219-244 | after any run List by lineage has exactly the checkpoints filed there, each once and all stored |
| Checkpoints.LastCheckpointIsOwnIff | internal/agent/guarded_graph.go:636-640 | after an execution's last save the saver's last checkpoint is one of its lineage iff nobody has saved since |
| Checkpoints.LastCheckpointCanBeForeign | internal/agent/guarded_graph.go:367-371 | a concrete run of two executions after which it is the other's |
| Checkpoints.InMemoryCheckpointSaver.Put | internal/agent/guarded_graph.go:247-296 | stores under the given or new ID, in all five maps, filed under the lineage its config names or its parent is filed under, the top-level parent first |
| Checkpoints.InMemoryCheckpointSaver.PutFull | internal/agent/guarded_graph.go:312-364 | the same, with pending writes |
| Checkpoints.InMemoryCheckpointSaver.PutWrites | internal/agent/guarded_graph.go:299-309 | appends writes to a named checkpoint |
| Checkpoints.InMemoryCheckpointSaver.Get | internal/agent/guarded_graph.go:166-204 | by ID first, else the newest of the lineage, else nothing |
| Checkpoints.InMemoryCheckpointSaver.List | internal/agent/guarded_graph.go:219-244 | the stored checkpoints of a lineage in order |
| Checkpoints.InMemoryCheckpointSaver.DeleteLineage | internal/agent/guarded_graph.go:381-393 | removes a lineage's checkpoints from all maps |
| ContextPruning.EstimateMessageTokens | internal/agent/context_manager.go:73-98 | the loops add up to the message's token estimate |
| ContextPruning.EstimateMessagesTokens | internal/agent/context_manager.go:101-107 | the loop adds up to the list's token estimate |
| ContextPruning.TokensConcat | internal/agent/context_manager.go:101-107 | estimates add over concatenation |
| ContextPruning.TokenWeights | internal/agent/context_manager.go:64-98 | a message weighs 4 and a third of its bytes, each call 10 more besides its name and arguments, a text part a third of its bytes, an image 500 |
| ContextPruning.TruncationIsIdempotent | internal/agent/context_manager.go:213-225 | truncating twice is truncating once although the output exceeds the limit; every tool message is bounded by limit plus marker; nothing else changes |
| ContextPruning.TruncationInPlace | internal/agent/context_manager.go:213-225 | message by message, exactly the tool messages over the limit are cut, to the limit and the marker |
| ContextPruning.TruncationShrinksIff | internal/agent/context_manager.go:217-221 | a tool message gets shorter iff it is longer than limit plus marker, and longer iff it is between the two |
| ContextPruning.ConsolidationBalances | internal/agent/context_manager.go:229-298 | order kept, the exact number of dropped non-system messages announced, and tokens out plus dropped equal tokens in plus marker |
| ContextPruning.MarkerAnnounces | internal/agent/context_manager.go:273-290 | reading the marker's number back gives the count |
| ContextPruning.MarkerCountsEverythingIff | internal/agent/context_manager.go:240-290 | the announced number is all that is missing iff there was at most one system message |
| ContextPruning.MarkerCanMiscount | internal/agent/context_manager.go:240-290 | a concrete conversation that loses two messages while the marker announces one |
| ContextPruning.NonSystemPositions | internal/agent/context_manager.go:240-255 | the non-system messages are those at the positions of all such messages, in order |
| ContextPruning.FirstSystemIsFirst | internal/agent/context_manager.go:240-247 | the system message kept is the one no other precedes, and there is none iff no message is one |
| ContextPruning.ConsolidationClosedForm | internal/agent/context_manager.go:195-298 | level 2 through both transformations: the truncated messages if there are few, else the first system message, the truncated first two others, the marker and the truncated last eight |
| ContextPruning.ConsolidationKeepsEnds | internal/agent/context_manager.go:229-298 | the first system message and the last four others survive consolidation |
| ContextPruning.EmergencyClosedForm | internal/agent/context_manager.go:207-361 | through all three levels: first system message, one message with the task, last min(4, n) non-system messages of the truncated input; at most six messages; token count |
| ContextPruning.ToolsAreBounded | internal/agent/context_manager.go:163-225 | no level above 0 lets a tool message through that is longer than limit plus marker |
| ContextPruning.TaskIsPreserved | internal/agent/context_manager.go:273-352 | the marker and the emergency message contain the original task |
| ContextPruning.PruningKeepsTask | internal/agent/context_manager.go:163-210 | in an emergency, and whenever consolidation changes anything, some message of the pruned list names the original task |
| ContextPruning.PairingSurvivesIff | internal/agent/context_manager.go:163-361 | a conversation whose calls are each followed by their results stays so through pruning iff no result stands first behind a cut: the third or eighth-last message for consolidation, the fourth-last in an emergency |
| ContextPruning.PruningCanSeparate | internal/agent/context_manager.go:262-295 | two concrete conversations, in which consolidation and emergency pruning separate a call from its result |
| ContextPruning.LevelsAreIntervals | internal/agent/context_manager.go:163-210 | each level is reached exactly from its own threshold on |
| ContextPruning.ThresholdIff | internal/agent/context_manager.go:163-210 | an estimate reaches a truncated threshold iff the real product is less than the estimate plus one |
| ContextPruning.PruneKeepsPromise | internal/agent/context_manager.go:163-361 | pruning at the level of the estimate keeps everything below 60% of the limit, cuts tool outputs in place below 75%, has the shape of level 2 below 90%, and that of an emergency from there on |
| ContextPruning.ContextManager.NeedsIntervention | internal/agent/context_manager.go:152-159 | warns exactly when a conversation of the recorded size would be pruned as an emergency (for a negative size and limit, at its own threshold) |
| ContextPruning.ContextManager.TruncateToolOutputs | internal/agent/context_manager.go:213-225 | the loop truncates message by message |
| ContextPruning.ContextManager.ConsolidateMessages | internal/agent/context_manager.go:229-298 | the method builds the consolidated list, or returns its input when there is too little to drop |
| ContextPruning.ContextManager.EmergencyPruneMessages | internal/agent/context_manager.go:302-361 | the method builds the emergency list |
| ContextPruning.ContextManager.CheckAndPrune | internal/agent/context_manager.go:163-210 | below 60% of the limit returns its input; from there bounds every tool message; below 75% changes exactly the tool messages over the limit; below 90% and from 90% on has the shapes of levels 2 and 3 on the truncated input; counts one pruning, leaves the estimate of the unpruned input behind, and does nothing when disabled |
| RateLimiting.PrunedAgreesWithHistory | internal/channel/telegram_ratelimit.go:69-109 | above any cutoff still to be asked about, the pruned timestamps are the full accepted history, cleanups included |
| RateLimiting.AfterIsExact | internal/channel/telegram_ratelimit.go:75-83 | pruning keeps exactly the timestamps after the cutoff: their number, and each as often as it stood there |
| RateLimiting.RefusesIffFull | internal/channel/telegram_ratelimit.go:69-90 | allow refuses iff maxMsgs accepted messages of the full history lie after now - window |
| RateLimiting.NoWindowOverflows | internal/channel/telegram_ratelimit.go:46-52 | no half-open window ever holds more than maxMsgs accepted messages |
| RateLimiting.CleanupIsInvisible | internal/channel/telegram_ratelimit.go:92-109 | all answers are those of the run without its cleanups |
| RateLimiting.UserRateLimiter.Allow | internal/channel/whatsapp_ratelimit.go:31-52 | accepts iff fewer than maxMsgs held timestamps are later than now - window, records an accepted message, leaves other users alone |
| RateLimiting.UserRateLimiter.Cleanup | internal/channel/whatsapp_ratelimit.go:54-71 | prunes every user at twice the window and keeps exactly the users with something left |
| RateLimiting.SendsAreSpaced | internal/channel/telegram_ratelimit.go:23-44 | two messages to one chat are never less than the minimum delay apart, with sweeps at any time |
| RateLimiting.ChatRateLimiter.Wait | internal/channel/telegram_ratelimit.go:23-33 | sends one second after the last message if that is still to come, else at once, give or take how long the sleep overran |
| RateLimiting.ChatRateLimiter.Sweep | internal/channel/telegram_ratelimit.go:35-44 | forgets exactly the chats idle for more than five minutes |
| WorldModelling.StreakIsLongestFailingRun | internal/agent/worldmodel.go:143-181 | errorStreak is always the length of the longest suffix of failures of one approach: one prefix group, or one name |
| WorldModelling.SameCategoryIff | internal/agent/worldmodel.go:384-400 | two tools are in one category iff their lower-cased names begin with prefixes of one of the five groups, or they are equal, or one is ungrouped and spelled like the other's group |
| WorldModelling.GroupsExclude | internal/agent/worldmodel.go:384-400 | no name begins with prefixes of two groups, so the order they are tried in does not matter |
| WorldModelling.GroupFailuresCount | internal/agent/worldmodel.go:143-181 | n failures at the end, of whichever tools of one group, make errorStreak at least n, and a failure right behind a call of another group makes it 1 |
| WorldModelling.LogReplaysToStatus | internal/agent/worldmodel.go:191-246 | per trigger the transitions chain from the initial value, each moving, and replay to the current status |
| WorldModelling.TriggersDiffer | internal/agent/worldmodel.go:203-244 | triggers of tests, build and different tasks never collide |
| WorldModelling.PivotExcludesProgressIff | internal/agent/worldmodel.go:250-323 | when ShouldPivot holds, IsProgressingWell holds too iff there were fewer than five calls |
| WorldModelling.AdviceIff | internal/agent/worldmodel.go:250-323 | by the log of calls alone: pivot iff the last three failed with one approach, or of five or more no two of the last five succeeded; progress iff there were fewer than five or three of the last five succeeded |
| WorldModelling.PivotDespiteProgress | internal/agent/worldmodel.go:250-323 | three failing calls of one tool after which both hold |
| WorldModelling.WorldModel.RecordToolCallEnd | internal/agent/worldmodel.go:143-181 | appends the call, after which errorStreak is the length of the longest failing run of one approach, and the model is what its events so far make it |
| WorldModelling.WorldModel.UpdateTestStatus | internal/agent/worldmodel.go:191-208 | sets the status and logs a transition iff it changed |
| WorldModelling.WorldModel.UpdateBuildStatus | internal/agent/worldmodel.go:211-228 | the same for the build |
| WorldModelling.WorldModel.RecordTaskStatus | internal/agent/worldmodel.go:231-246 | the same for one task |
| WorldModelling.WorldModel.AskPivot | internal/agent/worldmodel.go:250-274 | answers yes iff the last three calls failed with one approach or no two of the last five succeeded; RecentFailures is its backward counting loop |
| WorldModelling.WorldModel.AskProgress | internal/agent/worldmodel.go:306-323 | answers yes iff there were fewer than five calls or three of the last five succeeded |
| ChunkText.SplitText | internal/channel/telegram.go:734-756 | the loop terminates for every limit of at least 1 and yields the chunks of the reference definition |
| ChunkText.ChunksJoinToTheText | internal/channel/telegram.go:734-756 | the chunks concatenate back to the text |
| ChunkText.ChunksFit | internal/channel/telegram.go:734-756 | no chunk exceeds the limit, and only the empty text has an empty one |
| ChunkText.NeighboursExceed | internal/channel/telegram.go:746-752 | any two neighbouring chunks together exceed the limit |
| ChunkText.FewChunks | internal/channel/telegram.go:734-756 | floor(k/2) * (maxLen+1) is at most the text's length for its k chunks |
| ChunkText.BreaksAreAtNewlines | internal/channel/telegram.go:746-749 | each chunk but the last is full or ends at the last newline that fits |
| ChunkText.CanSplitACharacter | internal/channel/telegram.go:732-734 | for every limit, a text whose one two-byte character is cut in two |
| ChunkText.FirstBoundaryCutsIff | internal/channel/telegram.go:746-752 | the first boundary cuts a character iff the window has no newline past its first byte and the byte behind the window continues a character |
| ChunkText.BoundaryCutsIff | internal/channel/telegram.go:746-752 | the same iff at every boundary, on the rest of the text from its chunk; such a chunk is full and does not end in a newline |
| ChunkText.SplitsOnlyAtFullChunks | internal/channel/telegram.go:746-749 | a character is cut only behind a full chunk that does not end in a newline |
| LogStreaming.LogStreamer.Write | internal/gateway/log_streamer.go:39-45 | keeps position total mod 1000, count min(total, 1000) and the newest entries in their slots |
| LogStreaming.LogStreamer.Recent | internal/gateway/log_streamer.go:65-82 | exactly the newest min(n, 1000, total) entries, oldest first |
| LogStreaming.SlotFromPosition | internal/gateway/log_streamer.go:77-80 | the slot reckoned from the write position is the entry's own |
| SessionStore.HistoryIsAWindow | internal/agent/local_agent.go:82-101 | after any additions the history is a window over them, its head pinned from the moment a system message reaches it |
| SessionStore.SystemPromptIsPinned | internal/agent/local_agent.go:82-101 | a session that starts with a system message holds it followed by exactly the newest min(k, maxMsgs-1) of the k others |
| SessionStore.OriginsGiveHistory | internal/agent/local_agent.go:82-101 | running the additions and trims on positions gives, in order, the positions of the messages the history holds |
| SessionStore.PinnedIff | internal/agent/local_agent.go:88-99 | a message that maxMsgs others have followed is still held iff it is at the position of the first system message; repeated messages are told apart by position |
| SessionStore.SessionsAreIndependent | internal/agent/local_agent.go:82-121 | a session holds the window of what was added since its last clearing, whatever other sessions did |
| SessionStore.LocalSessionStore.AddMessage | internal/agent/local_agent.go:82-101 | appends and trims one session, changes no other, and keeps the sessions what the calls so far make them |
| SessionStore.LocalSessionStore.GetHistory | internal/agent/local_agent.go:104-114 | after any calls: the window of what was added to the session since its last clearing, or nothing if nothing was |
| SessionStore.LocalSessionStore.ClearSession | internal/agent/local_agent.go:117-121 | forgets exactly that session |

## Left out

- Channels, gateways, protocol tools, model clients, OAuth, configuration and hot reload: plumbing around outside services.
- The graph and agent library: an execution follows the declared edges, the tools node runs the calls of the last message, and a resumed execution starts from the checkpointed messages. The library's own use of the value passed to an interrupt is not part of this model; the decision travels in the context.
- The fifty-step bound of a graph execution: the theorems cover executions of any length.
- The checkpoint a resumption loads: `SkillGraph` resumes from the paused messages, which is what the code loads when the captured checkpoint is the execution's own (see LastCheckpointIsOwnIff).
- Several approvals of one session and skill at a time: the code's search for the pending one assumes a single one.
- The agent's stream, the supervisor's judgement, clocks, UUIDs and the backlog database: they are inputs, so theorems hold for all of them; UUIDs are fresh and clocks never run backwards.
- Marking a parent plan completed when its last backlog item completes.
- Task events, token totals, descriptions, audit records, acknowledgements and notifications: recorded or sent, never read by what is modelled.
- Error texts built for people are shortened to one representative text per reason.
- Pointers to task records that the store hands out: the protocol model works on values, so a caller that writes through such a pointer is not covered.
- The summary an emergency message carries: map iteration makes it nondeterministic, so it is any string.
- Regular expressions, keyword heuristics, prompt building and the ShouldEscalate judgement.
- Log entries sent to live clients, which may be dropped.
- TaskLedger.RunSound: registration under an ID used before is excluded, since IDs are new UUIDs.
- Checkpoints.IndexRefinesParentChains: saves under an ID still stored are excluded, since SaveKeepsIndexIff shows what they break.
- ChunkText.SplitText: limits below 1 are excluded, for which the code does not terminate or panics; text is bytes, one char each.
- ContextPruning.PairingSurvivesIff: calls and results are paired by order and number, as providers require, not by call ID.
- ContextPruning.LevelsAreIntervals: thresholds are exact products truncated toward zero, without floating-point rounding.
- WorldModelling.StreakIsLongestFailingRun: tool names are lower-cased as ASCII only; durations, timestamps and error records are not kept.
- RateLimiting.UserRateLimiter.Allow: durations are unbounded integers, so the overflow of a window of centuries is not modelled.
- LogStreaming.LogStreamer.Recent: a negative n, for which the code panics, is excluded.
- Dispatcher.AsyncDispatcher.Dispatch: runs without interruption; DispatchProtocol interleaves the same accesses.
- ApprovalProtocol.SettledApprovals: a dashboard request that settles after the gate is set apart here; DecisionStandsIff says exactly when none can.
- ApprovalProtocol.AcceptedDecisionCanBeLost: one way to lose an accepted decision; a waiter whose caller's context ends or whose resumption fails is another and leaves the task to the reaper.
