# Verification of the agent runtime

A Dafny 4.11 model of the four stateful cores of the agent runtime and of their smaller companions, with proofs of what
each of them is for. `dafny verify dfyconfig.toml` checks the whole project.

| part of the runtime | files |
|---|---|
| crash-resilient turn loop | `Messages`, `ThreadStore`, `RunLog`, `Store`, `StepWork`, `ToolAnswers`, `StepCalls`, `TurnLoop`, `Turns`, `ProcessSteps`, `RunWitnesses` |
| history compaction | `Compaction`, `CompactionRecords` |
| patch engine and lenient edit | `Text`, `Splice`, `PatchSplice`, `PatchParser`, `PatchPrinter`, `LenientEdit` |
| stream log and its views | `Accumulator`, `StreamMeaning`, `Coalescing`, `Conversation`, `UiProjection` |
| prompt queue | `PromptQueue` |
| communicated credentials | `Credentials` |

Code that changes state in the runtime is a class with methods here (`Store.ThreadDir`, `TurnLoop.LoopContext`,
`Accumulator.ChunkAccumulator`, `Conversation.ConversationManager`, `PromptQueue.Manager`), loops are loops with
invariants, and each such method is proved against a specification whose own properties are lemmas.

## How a crash is modelled

A thread directory is a value `Disk` of maps, one entry per file. Every `Save` and `Delete` of `Store.ThreadDir` is one
atomic write with four outcomes: it took place, the message exists, it failed, or the process died at this write. So a
crash may fall between any two writes; what the next process sees is the disk and nothing else. The provider and the tool
executor answer anything at all, in any order, except that a result carries the ID of its call.

The store keeps a ghost log with one event per write, error, provider call, call of the tool executor and answer of the
executor, so what the executor is given and what it hands back can be seen from outside of the loop. `RunLog.LegalRun` says which logs are possible; every method of the loop is proved to extend the log it finds and to keep
it legal, and `Turns.ServeAll` shows this for every sequence of requests (prompts under any message, messages put outside
of a turn, resumptions, answers, cancellations) from an empty thread on. The theorems about runs are lemmas about legal logs.

Legal logs allow more than the runtime does, so a run that shows a failure is also one of `ProcessSteps.Steps`: writes and
calls of a process one by one, in the order of the source and with the arguments it has there, from an empty thread on.

A run is *undisturbed* (`RunLog.Calm`) up to the first of these: a write that did not take place, or a death
(`Interrupted`); the end of a turn that waited for an answer, cancelled while it slept or while its answered tool was
continued in vain (`CancelledWaiting`); a model reply that uses one call ID twice; a turn started on a history that is not
tool-closed. Provider errors, broken and cancelled streams, errors of a tool that is continued, failing refreshes of the tool
list, a reminder or reply that exists already (`Errored`), approval pauses, answers, async work and resumed turns are all
part of undisturbed runs.

## What turned out to hold only under a condition

- "Every result is on the history chain" fails after a crash. The leaf moves in memory with each tool message and reaches the
  turn record later, so the event index lists results that the chain of the record skips exactly when it did so when the record
  was written or has grown since (`RunLog.IndexAheadOfChain`). What holds in every run is that a step is only left with all
  its calls in the event index (`RunLog.StepsLeftAreAnswered`).
- After a crash the answered tool may be continued a second time: its result may be on disk before the turn record says so
  (`RunWitnesses.AnsweredTwice`, and `RunWitnesses.AnsweredTwiceHappens` from the empty thread on). Once continued, a tool can
  be continued for the same answer again if and only if the turn record still waits for it
  (`RunWitnesses.ContinuesAgainExactly`).
- "The tool calls of a finished step never change" holds of what the step result records (`RunLog.CompletedStepIsFinal`). What
  the step runs is the message that the result names, and a message found under the ID of the reply is adopted whatever it
  says. In every run the step runs its reply if and only if that ID was not taken by other content
  (`RunLog.StepRunsItsReply`, `RunLog.StepCallsExactly`). The text of a broken stream takes it: a complete reply that is read
  back after such a break may lose its calls, without any crash (`RunWitnesses.CallsDropped`).
- An answer continues the call that asked if and only if the step result records that call (`RunLog.AnswerReachesItsTool`),
  and step results record their calls unless they were read back from a step file (`RunLog.ResultsRecordTheirCalls`). So an
  answer may be handed to a call with an empty ID, again without any crash (`RunWitnesses.AnswerLost`).
- "The model reads what the tool answered, failures as failures" fails in the last step that is allowed: the reminder that
  goes behind the last result of that step turns any output into plain text. A result is recorded as it was answered if and
  only if the step is not the last one, or calls are still open, or the reminder is there already
  (`ToolAnswers.RecordedAsAnsweredExactly`), and a failure stays one under the same condition
  (`ToolAnswers.FailureStaysExactly`, at an input in `ToolAnswers.LastFailureReadsAsSuccess`).
- "Every live handle has its continuation on disk" holds of the calls that begin async work in one tools phase if and only if
  there is just one of them: each write starts from the continuations that the phase found, so only the last new one stays
  (`StepCalls.AllListedExactly`, `TurnLoop.LoopContext.RunToolCalls`).
- `CancelWaitingTurn` answers only the pending call. In an undisturbed thread the history on which the turn paused, from which
  the next prompt starts because the agent keeps the leaf it saved at the pause (agent-go/agentimpl/default.go:1644-1661 and
  1981-1998), still has the asked call open; the history that ends in the denied result is tool-closed if and only if no other
  call was open. Completing the turn saves its record without a pending question before it removes it: if and only if the
  removal is lost after that, the turn waits for ever, it cannot be answered, cancelled or resumed, and prompts are refused
  (`Turns.CancelWaitingTurn`, `Turns.Serve`).
- A turn that is cancelled by the user while an error stops its loop is completed and removed. Its history is tool-closed if
  and only if the error did not come from the tool that was being continued (`Turns.FinishTurn`).
- The safety test for splitting a history is exact without calls that the provider runs itself
  (`HistorySplit.SafeExactly`). With one, a tool-closed history may be split behind the tool messages of that step only if
  tool messages answer the provider's calls too (`HistorySplit.SafeAfterTool`), although the documentation of the test
  speaks of resolved calls only.
- `generateSummary` falls back to a single message as its last resort. For a tool-closed list everything the model is asked
  about is tool-closed, with every model, if and only if the first message opens no call or the first half has no safe cut
  (`Compaction.GenerateSummary`, at an input in `Compaction.LastResortCutsAStep`). It ends when the summaries of single
  messages are estimated below what they replace and all others are bounded, and does not with a model that accepts single
  messages only.
- A printed hunk is read back if and only if none of its unchanged lines trims to the end-of-file marker
  (`PatchPrinter.ScriptReadsExactly`).
- The replacements of a patch are disjoint if and only if nothing is inserted inside what a replacement before it takes out
  and no end-of-file flag takes a hunk to lines that a hunk before it replaces (`PatchSplice.DisjointExactly`), in particular
  when every hunk replaces something and none has the flag (`PatchSplice.PlainHunksInOrder`). A pure insertion overlaps with a
  hunk that replaces the last empty line and the one before it (`PatchSplice.OverlapLosesInsertion`), and a hunk with the flag
  may go back behind the cursor and overlap with an earlier one (`PatchSplice.FlagGoesBack`, `PatchSplice.FlagOverlaps`).
- Lenient matches of n lines do not overlap if and only if they begin at least n lines apart, a shared empty line aside
  (`LenientEdit.SpansApart`). Overlapping ones are replaced from the last to the first on a text whose offsets have shifted:
  the edit panics if and only if the new string is too short to make up for what the later matches took out
  (`LenientEdit.PanicsExactly`, at an input in `LenientEdit.OverlapPanics`).
- `WaitChunks` slices without the bound that `PollChunks` has: an offset past the end of a finished log panics
  (`Conversation.ConversationManager.WaitChunks`).
- The difference of credential bindings is exact on pairs of binding and use (`Credentials.DiffIsExact`); on bindings it is
  exact if and only if none of them just lost uses (`Credentials.BindingsExactly`).
- A list of messages may be cut in front of an assistant message before it is projected if and only if the run that is open there
  does not take the message (`UiProjection.CutExactly`).

## Model

| member | source | states |
|---|---|---|
| `RunLog.StepsLeftAreAnswered` | agent-go/thread/turn.go:732-990 | In every legal run, whatever the executor says and wherever it crashes, a turn that went from step a to step b left every executor call of the steps between with a result in its event index, and the step never went back. |
| `RunLog.CompletedStepIsFinal` | agent-go/thread/turn.go:425-534 | Once a step has a result on disk the provider is never called for that step again, and what the result records, the model's reply and its calls, never changes; only the message ID may be filled in. |
| `RunLog.FillingExactly` | agent-go/thread/turn.go:1367-1418 | Filling in the message ID of a result leaves what the step runs as it was if and only if no message on disk has taken the ID of the reply with other content. |
| `RunLog.StepRunsItsReply` | agent-go/thread/turn.go:1396-1432 | In every run a step runs the reply of its result if and only if its message is not named yet or the ID of the reply is not taken by a message with other content. |
| `RunLog.StepCallsExactly` | agent-go/thread/turn.go:1367-1432 | In every run, from the moment a step has a result on, what it runs is fixed but for the one event that fills in its message ID; and that changes it exactly when the ID of the reply was taken by a message with other content just before. |
| `RunWitnesses.CallsDropped` | agent-go/thread/turn.go:1396-1408 | A process may lose calls step by step and undisturbed: its first stream breaks off and the text is kept under the message ID of the turn, the retry streams a whole reply with a call before it fails, the next process reads that back and adopts the kept text. The turn is over and the call has no result. |
| `RunLog.AnsweredCallNotExecuted` | agent-go/thread/turn.go:732-792 | A call with a result in its event index is never executed afresh, in this process or a later one. |
| `RunLog.ExecutedAsAsked` | agent-go/thread/turn.go:895-897 | In every run the executor is given only calls of the message that stands for the step the turn on disk is at, with the tool and the input that the message has, and only while they have no result. |
| `RunLog.AnswersAreRecorded` | agent-go/thread/turn.go:895-946 | In every run what the executor hands back of a call, from Execute, Continue or Wait, becomes the next message and the next entry of the event index of the step: a result as it is, an error as an error text that ends in it, each with a system reminder behind it at most. Only a write that does not take place, a death, or an error that stops the turn while an answered tool is continued comes in between. |
| `RunLog.ListedResultsAreWarranted` | agent-go/thread/turn.go:1462-1499 | In every run each result part that an event index lists was handed back by the executor before, or is the denial of a question, or one of the two errors that the loop makes itself (interrupted, cancelled). |
| `RunLog.ResumedAsSaved` | agent-go/thread/turn.go:845-848 | In every run an async call is taken up again only in the current step and with the continuation and the input that the async index on disk has for it. |
| `RunLog.ModelSeesTheRecord` | agent-go/thread/turn.go:425-534 | In every run the provider is called for the step that the turn on disk is at, which has no result, and with the history that its record ends in. |
| `RunLog.CalmHistoriesAreClosed` | agent-go/thread/turn.go:425-534 | In an undisturbed run every provider call sees a tool-closed history: each assistant message with executor calls is followed by tool messages that answer all of them. Errors of the provider, of a tool or of the tool list do not disturb a run. |
| `RunLog.FaultlessHistoriesAreClosed` | agent-go/thread/turn.go:1434-1499 | The same for every run whose turns start where undisturbed ones may start and in which no write was lost, no process died, no waiting turn was cancelled and no reply used a call ID twice; errors of every kind, pauses and answers are allowed. |
| `RunLog.CalmAnswersReachTheirTool` | agent-go/thread/turn.go:1153-1289 | As long as a run is undisturbed and the step result was not read back from a step file, an answer continues the very call that asked, and that call has no result yet. |
| `RunLog.AnswerReachesItsTool` | agent-go/thread/turn.go:1176-1187 | In every run an answer continues the call that asked if and only if the step result on disk records that call, questions without a call ID aside; the tool gets the continuation that its question recorded and the answer on disk. |
| `RunLog.ResultsRecordTheirCalls` | agent-go/thread/turn.go:2139-2175 | In every run a step result records its executor calls if and only if it was not read back from a step file, or has none. |
| `RunLog.SecondContinuation` | agent-go/thread/turn.go:1153-1289 | A question is continued twice only while the record on disk waits for it all the time between: a turn that stopped waiting for an answered question never waits for it again. |
| `RunWitnesses.ContinuesAgainExactly` | agent-go/thread/turn.go:1153-1289 | Once a tool was continued with an answer, the run can go on to continue it with that answer again if and only if the turn record still waits for it; and if it does, the next process gets there by its own steps. |
| `RunLog.IndexAheadOfChain` | agent-go/thread/turn.go:1462-1499 | In every run, since the turn record was written, the event index lists something that its history skips if and only if it did so then or has grown since. |
| `RunWitnesses.AnswerLost` | agent-go/thread/turn.go:1176-1187 | A process may lose an answer step by step and undisturbed: the provider fails after the last chunk of a reply, the next process reads it back from the step file, its tool asks, and the answer continues an empty call. |
| `RunWitnesses.AnsweredTwice` | agent-go/thread/turn.go:1194-1289 | Wherever a legal run is at an answered question of a recorded call without a result, processes may go on step by step like this: the call is continued, its result is saved and listed, the process dies before the turn record is written, and the next one continues the same call; the listed result is off the history that goes on. |
| `RunWitnesses.AnsweredTwiceHappens` | agent-go/thread/turn.go:1194-1289 | Processes get there step by step from the empty thread on. |
| `RunLog.RunExtends` | agent-go/thread/store.go:83-103 | Between any two moments of a run nothing on disk is lost: messages are write-once, step results keep their content, event indexes only grow, questions stay. |
| `RunLog.LeavesAreReachable` | agent-go/thread/store.go:121-146 | In every reachable store, crashes included, each message has a parent chain to the root, and so has the leaf of the turn on disk: parents exist and never form a cycle. |
| `RunLog.AnsweredMeans` | agent-go/thread/turn.go:2098-2126 | A call counts as answered exactly when some message listed in the event index is on disk and holds a result part with its ID. |
| `ThreadStore.BuildHistoryWithIDs` | agent-go/thread/store.go:226-250 | The walk with its seen map ends, succeeds exactly when the leaf has a parent chain, and then returns that chain oldest first; on a grounded store it never reports a cycle or a missing message. |
| `ThreadStore.ReverseEntries` | agent-go/thread/store.go:246-248 | The in-place reversal that ends the walk: position k of the result is position k from the end. |
| `ThreadStore.ChainDistinct` | agent-go/thread/store.go:121-146 | A parent chain never visits a message twice. |
| `ThreadStore.ChainUnique` | agent-go/thread/store.go:121-146 | A leaf has at most one parent chain, so the history is determined. |
| `ThreadStore.GroundedExtended` | agent-go/thread/store.go:83-103 | Saving a new message under an existing parent, or at the root, keeps every parent chain intact and gives the new message one. |
| `Store.ThreadDir.SaveMessage` | agent-go/thread/store.go:83-103 | Write-once: refused exactly when the ID exists, and then nothing changes; otherwise the one message is added, or the write does not happen. |
| `Store.ThreadDir.SaveStepResult` | agent-go/thread/store.go:516-522 | One atomic write of one step result; demanded is that an existing result keeps its content, that a new one records its executor calls and names no message, and that a message named now has the content of the reply or was found under its ID below the leaf. |
| `Store.ThreadDir.SaveRebuiltResult` | agent-go/thread/turn.go:2139-2175 | The same write for a result read back from a step file, which records no calls. |
| `Store.ThreadDir.SaveStepEvents` | agent-go/thread/store.go:616-626 | One atomic write of one event index: a message that was just saved, without children and not the leaf of the record, goes to its end. |
| `Store.ThreadDir.SaveAsyncContinuations` | agent-go/thread/store.go:586-596 | One atomic write of the continuations of one step, replacing what was there. |
| `Store.ThreadDir.SaveQuestion` | agent-go/thread/store.go:660-673 | One atomic write of one question under its turn and approval ID. |
| `Store.ThreadDir.SaveAnswer` | agent-go/thread/store.go:692-702 | One atomic write of one answer under its turn and approval ID. |
| `Store.ThreadDir.SaveTurnState` | agent-go/thread/store.go:424-450 | One atomic write of the turn record. Demanded of a turn already on disk is that it stays on its step or leaves it with every call answered; of another turn, that its ID was never on disk. |
| `Store.ThreadDir.DeleteTurnState` | agent-go/thread/store.go:488-494 | Removes the turn record and nothing else. |
| `Messages.ExtractToolCalls` | agent-go/thread/turn.go:2085-2096 | The calls of a message that the provider did not run itself, in order. |
| `Messages.FilterContentParts` | agent-go/thread/turn.go:2382-2391 | Exactly the text and reasoning parts, in order. |
| `StepCalls.LoadCompletedToolResults` | agent-go/thread/turn.go:2098-2126 | The results held by the messages of the event index, the last one for a call winning; its keys are exactly the answered calls. |
| `StepCalls.AddResultsKeys` | agent-go/thread/turn.go:2098-2126 | Collecting results from a message adds exactly the IDs of its result parts, each entry being a result for its own key. |
| `StepCalls.FindCall` | agent-go/thread/turn.go:1179-1187 | The first recorded call with the ID, an empty one if there is none. |
| `StepCalls.UpsertContinuation` | agent-go/thread/turn.go:1233-1252 | Replaces the payload of the first continuation of the call in place, or appends one; known and distinct continuations stay known and distinct. |
| `TurnLoop.LoopContext.AppendMessage` | agent-go/thread/turn.go:1434-1451 | The message is saved under the leaf with a new ID and becomes the leaf; on failure nothing moved. |
| `TurnLoop.LoopContext.AppendStepToolEvent` | agent-go/thread/turn.go:1462-1499 | Two writes: the tool message under the leaf, then its ID at the end of the event index; the answered calls grow by exactly its results. Demanded is that results are what the executor just handed back or the loop may give itself. |
| `TurnLoop.LoopContext.RecordResult` | agent-go/thread/turn.go:560-590 | One more tool message with just this result, a reminder behind its text when it completes the last allowed step. Demanded is that the result is what the executor just handed back, or an error of the loop's own for a call without a result. |
| `ToolAnswers.RecordedAsAnsweredExactly` | agent-go/thread/turn.go:560-578 | A result is recorded as it was answered if and only if the step is not the last one allowed, or calls of it are still open, or its text has the reminder already. |
| `ToolAnswers.FailureStaysExactly` | agent-go/thread/turn.go:580-590 | A failed or denied result stays one under the same condition, and only then: the reminder turns every output into plain text. |
| `ToolAnswers.LastFailureReadsAsSuccess` | agent-go/thread/turn.go:584-590 | An input where it does not: one step allowed, its only call failed. |
| `ToolAnswers.ReminderIsRead` | agent-go/thread/turn.go:584-590 | What is recorded with a reminder contains it, and begins with what the tool said unless that was blank. |
| `TurnLoop.LoopContext.SaveApproval` | agent-go/thread/turn.go:1561-1588 | The question is saved under a new approval ID, then the request message; no call becomes answered. |
| `TurnLoop.LoopContext.PauseForApproval` | agent-go/thread/turn.go:1548-1607 | When the turn falls asleep, question, request message and turn record are on disk and name the call that asks, the phase to go back to and the continuation. |
| `TurnLoop.LoopContext.WaitForAsyncHandles` | agent-go/thread/turn.go:1620-1688 | In whatever order the handles finish, the calls that get a result are handles that the executor was heard about; without a pause that is every handle; a pause is for a handle that asked, with the continuation it asked with or else its own, in an undisturbed run one without a result. |
| `TurnLoop.LoopContext.HandleRecoveredAsync` | agent-go/thread/turn.go:845-890 | A call found with a continuation on disk is taken up with it and ends as the executor answers: its result, or a lost continuation as an error with that error's text, is recorded; or it is a live handle with the payload it got; or the turn sleeps on its question. |
| `TurnLoop.LoopContext.HandleFreshTool` | agent-go/thread/turn.go:895-946 | The call is executed as it is and ends as the executor answers: the disk has just its result more, or an error result with exactly that error's text; or a live handle, its continuation behind those that the phase found; or the turn sleeps on its question, async work started before being waited for first and asking first. |
| `TurnLoop.LoopContext.ProcessToolCall` | agent-go/thread/turn.go:740-787 | Skip, resume, mark as interrupted or run: afterwards the call is answered or has a live handle, no other call became either, and the continuations on disk are as before or, when the call began async work, those that the phase found and its own. A call without result and continuation is executed, unless it is the first such one of a step with results, which gets the error of an interrupted call. |
| `TurnLoop.LoopContext.RunToolCalls` | agent-go/thread/turn.go:732-792 | After the loop every call of the step is answered or has a live handle, unless the user cancelled; each had a result or a continuation before, or was executed since, or is the one call that was marked as interrupted, and in an untouched step none is. The continuations on disk are those that the phase found and one of the last call that began async work in it; every call that did so has a live handle. |
| `StepCalls.AllListedExactly` | agent-go/thread/turn.go:895-906 | Every call that began async work in one tools phase has its continuation on disk if and only if it was just one. |
| `TurnLoop.LoopContext.FinalizeToolsPhase` | agent-go/thread/turn.go:952-990 | The step ends only with all calls answered; with live handles the turn waits for them; a cancelled turn stops with error results that say so, and nothing else, for the open calls. |
| `TurnLoop.LoopContext.RunToolsPhase` | agent-go/thread/turn.go:732-792 | Ends in the next step with every call of this one answered, in waiting with every open call covered by a handle, asleep on a question, or cancelled. |
| `TurnLoop.LoopContext.RecoverHandles` | agent-go/thread/turn.go:1033-1065 | After a restart the call of every continuation on disk ends answered or as a live handle, or the turn pauses for one of them. |
| `TurnLoop.LoopContext.FinalizeWaitingForAsyncPhase` | agent-go/thread/turn.go:1071-1096 | Every call that still lacks a result gets an error result, and what is listed are errors of interrupted calls only, before the turn moves on; so the step it leaves is fully answered. |
| `TurnLoop.LoopContext.RunWaitingForAsyncPhase` | agent-go/thread/turn.go:1103-1137 | Ends in the next step with every call of this one answered, or asleep on a question of a handle. |
| `TurnLoop.LoopContext.FlushHandles` | agent-go/thread/turn.go:1121-1134 | After waiting, each live handle was heard about and has a result, no other call got one and no handle is left, or the turn is asleep on a question that one of them asked. |
| `TurnLoop.LoopContext.RunWaitingForAnswerPhase` | agent-go/thread/turn.go:1153-1289 | Without an answer nothing happens at all; with one the turn is back in a working phase of the same step, asleep on the next question, or stopped by an error with the record still waiting. |
| `TurnLoop.LoopContext.AppendResponse` | agent-go/thread/turn.go:1196-1202 | The response is saved and listed under the leaf; nothing becomes answered, and the record on disk still waits for the question. |
| `TurnLoop.LoopContext.ContinueAnswered` | agent-go/thread/turn.go:1204-1289 | The tool is continued with the call, the continuation and the answer on disk, and what it replies decides: its result is the one thing that the disk has more and the turn is back in the phase that asked, or one live handle for it in the waiting phase, or asleep on the question it asks now, or stopped by an error. |
| `TurnLoop.LoopContext.GoAsyncAfterAnswer` | agent-go/thread/turn.go:1231-1264 | The handle in memory is exactly the answered call, its continuation replaces the one of that call on disk or comes after all others, and the turn record waits for it. |
| `TurnLoop.LoopContext.AdvanceToNextStep` | agent-go/thread/turn.go:1501-1509 | The turn record moves on by one step, to streaming, only when no call of the step is open; an undisturbed history is tool-closed then. Behind the last allowed step there is no limit any more. |
| `TurnLoop.LoopContext.RefreshTurnTools` | agent-go/thread/turn.go:620-654 | When the tools changed just a reminder goes under the leaf and the record names it, else nothing happens; the step is left ready for the provider. |
| `TurnLoop.LoopContext.EnsureReply` | agent-go/thread/turn.go:437-500 | A step that has a result is not asked for again. The reply to the only, uncancelled call of the first step has the message ID that the turn announced. |
| `TurnLoop.LoopContext.StreamToFile` | agent-go/thread/turn.go:1766-1799 | Each chunk that the provider sends goes to the step file and to the accumulator, so the file has exactly what was sent and what was accumulated is what it means, wherever the stream breaks off. |
| `TurnLoop.LoopContext.RunCompletion` | agent-go/thread/turn.go:1704-1881 | One provider call, for a step without a result. A reply on disk is what the provider sent when the stream ended well, under the ID that was given and with the ID it replaces; a broken stream leaves one only if the user cancelled it, and then without calls. |
| `TurnLoop.LoopContext.EndBrokenStream` | agent-go/thread/turn.go:1801-1841 | A broken stream leaves a step result only if it was cancelled, and then exactly its text and reasoning; after a recoverable break these are kept in a message under the leaf. |
| `TurnLoop.LoopContext.SavePartial` | agent-go/thread/turn.go:1351-1365 | The remains of a broken stream become a message under the leaf, unless its ID is taken; the leaf and the step results stay. |
| `TurnLoop.LoopContext.RunCompletionWithRetry` | agent-go/thread/turn.go:669-726 | The provider is called once, or twice if the first call ended in a recoverable break or a context overflow; the outcome is one reply on disk, or none and the step still open. The reply of a call after a break has a new ID and replaces the partial one. |
| `TurnLoop.LoopContext.SaveAssistantStepMessage` | agent-go/thread/turn.go:1367-1418 | Whatever an earlier process managed to write, afterwards the step result names an assistant message on disk, which is the leaf; it has the content of the reply if and only if the ID of the reply was not taken by a message with other content. |
| `TurnLoop.LoopContext.AdoptAssistantMessage` | agent-go/thread/turn.go:1396-1408 | An assistant message that exists under the ID of the reply is taken over exactly when it sits under the leaf; the step then runs that message instead, which has the content of the reply if and only if the ID was not taken by other content. |
| `TurnLoop.LoopContext.SaveNewAssistantMessage` | agent-go/thread/turn.go:1387-1413 | A new assistant message is saved under the leaf with the content of the step result and the ID of the message that it replaces. |
| `TurnLoop.LoopContext.RunStreamingPhase` | agent-go/thread/turn.go:425-534 | The provider is asked only for a step without a result; with calls the turn goes to the tools phase of that step, without any it is over. |
| `TurnLoop.LoopContext.CompleteTurn` | agent-go/thread/turn.go:2293-2303 | The last state is saved and the turn record removed, in this order, and nothing else on disk changes; `saved` and `removed` say how far it got. |
| `TurnLoop.LoopContext.ExecuteLoop` | agent-go/thread/turn.go:363-418 | One phase after another: every phase ends in a state the next one may start from. The loop ends asleep, on a reply without calls, cancelled, or stopped by an error in a state it can be taken up from, and a sleeping turn without an answer is left as it is. |
| `TurnLoop.EndedIsClosed` | agent-go/thread/turn.go:363-418 | Undisturbed, a loop that did not fall asleep ends on a tool-closed history. |
| `Turns.RestingReady` | agent-go/thread/turn.go:225-300 | Whatever a run left on disk, its turn can be taken up again in the phase its record names. |
| `Turns.RecoverStreamingStep` | agent-go/thread/turn.go:2139-2175 | The step result that is rebuilt is what the step file means if the stream had finished, else its text and reasoning only; nothing else on disk changes. |
| `Turns.RebuildResult` | agent-go/thread/turn.go:2139-2175 | A step file counts as complete exactly when it holds a finish chunk; the result has its content but records none of its calls. |
| `Turns.FinishTurn` | agent-go/thread/turn.go:196-220 | A turn that waits stays on disk, one that is done or cancelled is completed. If an error stops it in an undisturbed run and it is then completed, its history is tool-closed if and only if the error did not hit the continuation of an answered tool. |
| `Turns.SavePreludes` | agent-go/thread/turn.go:101-128 | The reminders are saved one under the other, each under its own or a new ID; a reminder that exists already ends the turn with an error. |
| `Turns.PutMessage` | agent-go/agentimpl/default.go:2181-2216 | A user or system message put under a thread without a turn: a new message under the given leaf, after which the history is as tool-closed as before. |
| `Turns.StartTurn` | agent-go/thread/turn.go:79-155 | Reminders, user message, turn record, in this order: when the turn started, its chain is the given history followed by exactly these messages. |
| `Turns.RunTurn` | agent-go/thread/turn.go:79-220 | A whole turn, over any oracle and any failing write: the store stays consistent, and undisturbed the turn sleeps on a question or is off the disk with a tool-closed history. |
| `Turns.ResumeTurn` | agent-go/thread/turn.go:225-300 | The same for the turn found on disk; one that waits for an answer that was not given is left exactly as it is. |
| `Turns.SubmitAnswer` | agent-go/agentimpl/default.go:2442-2465 | Accepted exactly when the turn waits and the question belongs to it; then the answer, and nothing else, is written. |
| `Turns.CancelWaitingTurn` | agent-go/thread/turn.go:2308-2368 | The pending call, and no other, gets a denied result with the given reason, behind a refusal with the same reason. In an undisturbed thread with every write done the history that the pause left stays open, the one that ends in the denied result is tool-closed if and only if no other call was open, and the turn is stranded if and only if its record was saved and not removed. |
| `Turns.Serve` | agent-go/agentimpl/default.go:307-323 | Any request to a thread: a prompt is refused while a turn is on disk, and once a cancellation has left the turn without a question no request ever gets the thread going again. |
| `Turns.ServeAll` | agent-go/agentimpl/default.go:307-323 | Every sequence of requests from an empty thread, prompts under any message included, makes a legal run that only grows; if prompts start after the last turn or at the root, its undisturbed turns all start on tool-closed histories, which is what the run theorems ask for. |
| `HistorySplit.EstimateTokens` | agent-go/thread/compaction.go:152-177 | The nested loops compute the rounded-up sum of the part sizes, never less than one. |
| `HistorySplit.FourBytesAToken` | agent-go/thread/compaction.go:152-177 | Each part but an image costs a token for every four bytes begun of what reaches the model as text. |
| `HistorySplit.RawConcat` | agent-go/thread/compaction.go:152-177 | The estimate before its lower bound is additive over concatenation. |
| `HistorySplit.EstimateMonotone` | agent-go/thread/compaction.go:152-177 | A longer history is never estimated lower. |
| `HistorySplit.EstimateBelowSingles` | agent-go/thread/compaction.go:457-482 | The estimate of a history is at most the sum of the estimates of its messages, which is what the split adds up. |
| `HistorySplit.AllToolCallsResolved` | agent-go/thread/compaction.go:530-570 | True exactly when the assistant message nearest before the last message has every call, the provider's own included, answered by tool messages since. |
| `HistorySplit.SafeSplitPoint` | agent-go/thread/compaction.go:498-526 | The largest index up to n that passes the safety test, 0 when there is none. |
| `HistorySplit.SafeIsClosed` | agent-go/thread/compaction.go:498-570 | Cutting a tool-closed history at a safe point leaves two tool-closed histories. |
| `HistorySplit.SafeExactly` | agent-go/thread/compaction.go:498-570 | Without calls run by the provider the safe points of a tool-closed history are exactly its tool-closed prefixes. |
| `HistorySplit.SafeAfterTool` | agent-go/thread/compaction.go:530-570 | After a tool message a cut of a tool-closed history is safe if and only if the history is tool-closed there and tool messages also answer every call that the provider ran itself in the last assistant message. |
| `HistorySplit.OpenCalls` | agent-go/thread/compaction.go:530-570 | In a readable history the open calls are those of the last assistant message that no tool message after it answers. |
| `ToolClosure.ScanConcat` | agent-go/thread/compaction.go:475-526 | Reading two histories in a row is reading their concatenation. |
| `ToolClosure.ClosedCut` | agent-go/thread/compaction.go:475-526 | A tool-closed prefix of a tool-closed history leaves a tool-closed rest. |
| `Compaction.SplitForRecentTail` | agent-go/thread/compaction.go:457-482 | With two or more messages the tail is never empty; the prefix, unless it is one message, is estimated at no more than three quarters of the whole; and every longer safe prefix adds up to more than that. |
| `Compaction.SummaryTells` | agent-go/thread/compaction.go:852-862 | The message that stands for a conversation is a user message with one text part that contains the summary. |
| `Compaction.SummariesDiffer` | agent-go/thread/compaction.go:852-862 | Different summaries are different messages. |
| `Compaction.SummarisePrefix` | agent-go/thread/compaction.go:585-651 | The halving loop ends, with a safe prefix or the single first message. Of a tool-closed list every request is tool-closed if and only if the first message opens no call or was not asked about alone. |
| `Compaction.GenerateSummary` | agent-go/thread/compaction.go:585-651 | Round by round each summary is the model's answer to the prefix it replaces, and what is returned is its answer to the last working list. Of a tool-closed list every request is tool-closed, with every model, if and only if its first message opens no call or its first half has no safe cut. The loop has ended after enough rounds if summaries of single messages are estimated below those and all others are bounded, and never ends with a model that takes single messages only. |
| `Compaction.RoundsKeepSuffix` | agent-go/thread/compaction.go:585-651 | The working list is always the input, or one message that tells a summary followed by a suffix of the input. |
| `Compaction.RoundsKeepClosed` | agent-go/thread/compaction.go:585-651 | For a tool-closed input every prefix that was summarised is tool-closed if and only if the first one was not a first message with open calls alone; then the list that remains is tool-closed too. |
| `Compaction.RoundsShorten` | agent-go/thread/compaction.go:585-651 | The working list never grows, and gets shorter with every round over two or more messages. |
| `Compaction.RoundsEnd` | agent-go/thread/compaction.go:585-651 | If the summaries of single messages are estimated below those, there were at most as many rounds as the input has tokens, and one more for every message removed and every token of a summary that removed some. |
| `Compaction.HalfAStep` | agent-go/thread/compaction.go:618-640 | A tool-closed list that begins with an assistant message and its results can be cut behind the results, not behind the message. |
| `Compaction.LastResortCutsAStep` | agent-go/thread/compaction.go:618-640 | An input of the last resort: on a list that begins with an assistant message and its results the halving loop gets down to one message with a model that takes no more, and asks about an open call. |
| `CompactionRecords.FindHead` | agent-go/thread/compaction.go:321-345 | Where the leading system messages and the reminders after them end. |
| `CompactionRecords.HeadIsMaximal` | agent-go/thread/compaction.go:321-345 | The head is all leading system messages and then all reminders, and no more. |
| `CompactionRecords.ApplyCompaction` | agent-go/thread/compaction.go:793-834 | Head, a message that tells the summary of the record, and everything after the leaf if the leaf is found past the head, else the history as it is. |
| `CompactionRecords.CompactionItems` | agent-go/thread/compaction.go:413-455 | The old summary, if its leaf is found, and the real messages after it, each with the leaf that a split there would record. |
| `CompactionRecords.BuildCompactionPlan` | agent-go/thread/compaction.go:384-411 | There is something to summarise if and only if the items, with a tail of a quarter of their tokens left, can be cut safely. What is summarised followed by the tail is exactly the list of items, cut at a safe point; the leaf is the one of the last summarised item. |
| `CompactionRecords.PlanLeaf` | agent-go/thread/compaction.go:384-455 | The leaf of a plan is found again in the entries, not before the old one; the real messages after it are exactly the planned tail, those before it exactly what was summarised. |
| `CompactionRecords.PerformCompaction` | agent-go/thread/compaction.go:321-382 | Plan, summary and saved record fit together: the message behind the head tells the model's answer. A record is made only if the items can be cut, and with a model that never refuses whenever they can. On a tool-closed history with a fitting old record all that is returned is tool-closed, whatever the model answers; all that it is asked about is so if and only if that was not a first message with open calls alone. |
| `CompactionRecords.ReappliedIsReturned` | agent-go/thread/compaction.go:793-834 | Reading the saved record back over the same entries gives what the compaction returned, but for synthetic messages and reminders after the leaf. |
| `CompactionRecords.FitsLater` | agent-go/thread/compaction.go:793-834 | However the thread grows, a saved record keeps fitting and its leaf stays where it was. |
| `CompactionRecords.AppliedClosed` | agent-go/thread/compaction.go:793-834 | Applying a fitting record to a tool-closed history leaves it tool-closed. |
| `CompactionRecords.PlannedFits` | agent-go/thread/compaction.go:321-411 | The record of a plan fits the history it was made of. |
| `CompactionRecords.ChainsAreHistories` | agent-go/thread/store.go:226-250 | The entries read from a parent chain have distinct IDs and the messages of the chain, so the histories of the turn loop are fit for compaction. |
| `CompactionRecords.MaybeCompact` | agent-go/thread/compaction.go:190-242 | Not for unknown limits or up to four real messages; else what the model sees is the history as the record presents it if that fits (nine tenths of the limit before the first compaction), and a new compaction if not, or the plain history when that fails; tool-closed if the history is. |
| `CompactionRecords.CountTokens` | agent-go/thread/compaction.go:130-148 | The last exact count plus an estimate of what follows the last assistant message, or an estimate of everything. |
| `CompactionRecords.AfterAssistantIs` | agent-go/thread/compaction.go:141-148 | What is estimated on top of the exact count are the messages behind the last assistant message. |
| `PatchSplice.MatcherChain` | agent-go/tools/apply_patch.go:631-684 | What a strict matcher accepts every looser one accepts: exact, blanks at the end, surrounding white space, typography. |
| `PatchSplice.SeekFrom` | agent-go/tools/apply_patch.go:611-629 | Fails exactly when the loosest matcher matches nowhere from the start on; else the first match of the strictest matcher that matches at all. |
| `PatchSplice.SeekPatchSequence` | agent-go/tools/apply_patch.go:592-629 | The search with its special cases: an empty pattern, and a match at the very end that wins under the end-of-file flag, even before the start. |
| `PatchSplice.SoughtOnce` | agent-go/tools/apply_patch.go:592-629 | The answer of a search is determined by lines, pattern, start and flag. |
| `PatchSplice.LocateHunk` | agent-go/tools/apply_patch.go:530-549 | The old lines are found as the search says; only when they are not is a last empty line left out on both sides. |
| `PatchSplice.ComputePatchReplacements` | agent-go/tools/apply_patch.go:503-562 | The hunks are placed one after another from a cursor that moves on, then sorted by start; it fails exactly when some hunk has no place after those before it. |
| `PatchSplice.PlacedOnce` | agent-go/tools/apply_patch.go:503-562 | Where the hunks of a patch land is determined by the file and the hunks. |
| `PatchSplice.UnplaceableIsNotPlaced` | agent-go/tools/apply_patch.go:503-562 | A patch with a hunk that has no place cannot be placed at all. |
| `PatchSplice.PlainHunksInOrder` | agent-go/tools/apply_patch.go:503-562 | Hunks that all replace something land in bounds, disjoint and strictly one after the other as long as no end-of-file flag takes one to lines already replaced, and the sort, although not stable, leaves them as they are. |
| `PatchSplice.DisjointExactly` | agent-go/tools/apply_patch.go:503-590 | For every placed patch the sorted replacements are disjoint if and only if nothing is inserted inside what a replacement before it takes out and no end-of-file flag takes a hunk to lines that a hunk before it replaces; then splicing them is one pass over the file. |
| `PatchSplice.FlagGoesBack` | agent-go/tools/apply_patch.go:602-610 | A hunk with the end-of-file flag lands before the cursor if and only if its lines match at the end of the file and that is before the cursor. |
| `PatchSplice.FlagOverlaps` | agent-go/tools/apply_patch.go:503-562 | An input where a flag does so: two hunks replace the same line, and one of them is lost. |
| `PatchSplice.ApplyPatchReplacements` | agent-go/tools/apply_patch.go:570-590 | Splices from the last replacement to the first. |
| `Splice.BackwardIsForward` | agent-go/tools/apply_patch.go:570-590 | For disjoint replacements in order, splicing from the back is one pass over the file that copies the gaps and puts in the new lines. |
| `Splice.ForwardCut` | agent-go/tools/apply_patch.go:570-590 | The pass over a file may be cut at any replacement: what is before it, its new lines, and the rest of the pass. |
| `PatchSplice.ComputeFileUpdate` | agent-go/tools/apply_patch.go:480-501 | The new content of a file, none exactly when some hunk has no place; hunks that all replace something edit the file as one pass would, as long as no end-of-file flag takes one to lines already replaced; a single hunk without old lines adds its lines at the end of a file whose last line is not empty. |
| `PatchSplice.OverlapLosesInsertion` | agent-go/tools/apply_patch.go:517-554 | A pure insertion goes before a last empty line; when another hunk replaces that line and the one before it the inserted one is lost. |
| `PatchSplice.InsertionsAtEnd` | agent-go/tools/apply_patch.go:517-526 | In every placed patch a hunk without old lines puts its lines behind all lines of the file, save a last empty one. |
| `PatchSplice.OneInsertion` | agent-go/tools/apply_patch.go:517-526 | So a patch of one such hunk turns a file into its lines followed by the new ones, in front of a last empty line if there is one. |
| `PatchSplice.InsertionsComeLast` | agent-go/tools/apply_patch.go:517-590 | And in every patch with disjoint replacements the inserted lines come behind all that became of the lines of the file, save a last empty one. |
| `PatchSplice.FileTextReads` | agent-go/tools/apply_patch.go:480-501 | Reading back the text that is written for a list of lines gives those lines, a last empty one aside. |
| `PatchParser.ParsePatchChunk` | agent-go/tools/apply_patch.go:408-478 | The loop over the body lines reads one hunk and says how many lines it took, with the source's errors. |
| `PatchParser.EmptyIsUnchanged` | agent-go/tools/apply_patch.go:445-450 | Inside a hunk a line without any character reads like an unchanged empty line. |
| `PatchParser.ContextMayBeLeftOut` | agent-go/tools/apply_patch.go:413-427 | The first hunk of a file reads without its context line as it does with an empty one. |
| `PatchParser.ParsePatchOperation` | agent-go/tools/apply_patch.go:325-406 | One operation; every successful step takes at least one line and no more than there are. |
| `PatchParser.ParseApplyPatch` | agent-go/tools/apply_patch.go:268-313 | Boundaries, here-document and the loop over the operations, which ends because each step consumes a line. |
| `PatchPrinter.PrintedPatchReads` | agent-go/tools/apply_patch.go:268-478 | Round trip: parsing the printed text of any printable patch gives back its operations. |
| `PatchPrinter.ScriptReadsExactly` | agent-go/tools/apply_patch.go:408-478 | A printed hunk is read back if and only if no unchanged line reads like the end-of-file marker. |
| `PatchPrinter.ChangesRead` | agent-go/tools/apply_patch.go:268-406 | The operations of a printed patch are read one after another to the last line. |
| `PatchPrinter.PrintedLines` | agent-go/tools/apply_patch.go:292-323 | The text of a printed patch splits into exactly the lines that were printed. |
| `Accumulator.ChunkAccumulator.Push` | agent-go/message/accumulator.go:55-193 | One chunk changes the accumulator as `AfterChunk` says, whose meaning over whole streams is `StreamMeaning.StreamMeans`; nothing once it is closed; open blocks keep pointing at parts of their own kind. |
| `Accumulator.ChunkAccumulator.Close` | agent-go/message/accumulator.go:200-218 | Every open tool input is finalised with its trimmed buffer and no other part changes; a second close does nothing. |
| `Accumulator.ChunkAccumulator.GetMessage` | agent-go/message/accumulator.go:223-239 | The assistant message with the collected parts and the response ID. |
| `StreamMeaning.StreamMeans` | agent-go/message/accumulator.go:55-218 | What is accumulated and closed is, for every stream and exactly, one part for each chunk that starts a block or is whole, in their order: text and reasoning are the deltas of their ID up to its next start or end, a tool input those trimmed, whatever other blocks come in between; a whole chunk is a part with its own fields, provider errors apart from results. |
| `Accumulator.ClosedUnique` | agent-go/message/accumulator.go:200-218 | Whatever order the map of open inputs is walked in, closing leaves the same parts. |
| `Accumulator.AccumulateValid` | agent-go/message/accumulator.go:55-193 | However many chunks are read, no open block points at a foreign part, nor two open inputs at one. |
| `Accumulator.AccumulateConcat` | agent-go/message/accumulator.go:55-193 | Reading a stream in two pieces is reading it whole. |
| `Coalescing.CoalesceChunkBatch` | agent-go/agent/conversation.go:785-821 | Neighbouring deltas of one block become one chunk that carries the offset of the last raw chunk in it. |
| `Coalescing.CoalescedMeans` | agent-go/agent/conversation.go:785-821 | Accumulating a coalesced batch gives what accumulating the raw chunks gives, from any state. |
| `Coalescing.OffsetsIncrease` | agent-go/agent/conversation.go:785-821 | Offsets strictly increase within the batch and end at the last raw index. |
| `Coalescing.FullyMerged` | agent-go/agent/conversation.go:785-821 | Nothing that could be merged is left side by side. |
| `Coalescing.PrefixMeans` | agent-go/agent/conversation.go:785-821 | Every prefix of a batch means the raw log up to its offset. |
| `Coalescing.OffsetsShift` | agent-go/agent/conversation.go:785-821 | The offset of a coalesced chunk is the index of the last raw chunk in it, so the next one to ask for is one more. |
| `Coalescing.ClientInSync` | agent-go/internal/handler/chat.go:223-235 | However the log was batched and wherever the connection broke, a client that asks again from its last offset plus one knows exactly the log up to its offset: nothing missed, nothing twice. |
| `Coalescing.ClientCatchesUp` | agent-go/internal/handler/chat.go:223-235 | And once it takes one whole batch of the finished log it knows all of it. |
| `Conversation.ConversationManager.Begin` | agent-go/agent/conversation.go:339-382 | Refused exactly when the thread has a live completion or an external one; else a new completion is registered. |
| `Conversation.ConversationManager.PrepareFailed` | agent-go/agent/conversation.go:356-366 | A completion whose preparation failed is unregistered and never runs. |
| `Conversation.ConversationManager.RunnerChunk` | agent-go/agent/conversation.go:385-424 | A chunk of the stream goes to the end of the log of its completion and of no other. |
| `Conversation.ConversationManager.RunnerError` | agent-go/agent/conversation.go:385-424 | An error finishes the log with an error chunk, after a start chunk if there was none. |
| `Conversation.ConversationManager.EmitAppend` | agent-go/agent/conversation.go:632-648 | A chunk from outside is appended unless the log was finished since the lookup; a finished log is never touched. |
| `Conversation.ConversationManager.Cancel` | agent-go/agent/conversation.go:603-627 | Cancels the live completion of the thread, if any, without ending its log. |
| `Conversation.ConversationManager.PollChunks` | agent-go/agent/conversation.go:474-504 | What a reader gets at any offset: the coalesced rest of the log, or nothing past its end. |
| `Conversation.ConversationManager.WaitChunks` | agent-go/agent/conversation.go:515-557 | When the reader goes on waiting, is answered from the start of a newer completion, gets the rest of the log, or slices past its end, which panics. |
| `Conversation.OneLive` | agent-go/agent/conversation.go:339-382 | Two live completions of one thread are the same one, and it is the registered one. |
| `Conversation.Interleave` | agent-go/agent/conversation.go:339-424 | In every interleaving each thread has at most one live completion, logs only grow, and a finished completion stays as it is. |
| `UiProjection.ProjectUIMessages` | agent-go/message/ui_projection.go:112-172 | The index loop with its nested run loops computes the projection. |
| `UiProjection.ConvertAssistantToolStepToUI` | agent-go/message/ui_projection.go:221-318 | The parts of one step with what its tool messages say about each call. |
| `UiProjection.ProjectConcat` | agent-go/message/ui_projection.go:112-172 | Projecting a history cut in front of a user or system message is projecting its two pieces. |
| `UiProjection.CutExactly` | agent-go/message/ui_projection.go:112-172 | In front of an assistant message that shows something, behind an open run that shows something, a history may be cut if and only if the run does not take the message; otherwise two messages become one. |
| `UiProjection.ProjectTold` | agent-go/message/ui_projection.go:112-318 | In the whole projection the assistant messages on screen show, in order, the parts of the kept assistant messages, with separators between the steps of a run that has shown something; each call is one card with the state, output, error text and approval that the messages of its own step give it. |
| `UiProjection.OthersAreShown` | agent-go/message/ui_projection.go:112-140 | In the whole projection the user and system messages on screen are the kept ones, in order, each under its own ID: a user message with its texts and files in order, a system message with all its text as one. |
| `UiProjection.EachStandsForOne` | agent-go/message/ui_projection.go:112-172 | Every message on screen stands for one of the history, with its ID, role, metadata and replacements. |
| `UiProjection.StepIsTold` | agent-go/message/ui_projection.go:221-318 | The same for one step: its parts in order, each call as what its results, requests and responses say. |
| `UiProjection.CardShown` | agent-go/message/ui_projection.go:221-359 | The card of a call shows an error with its text if its last outcome is one, denied if that is a denial, available for any other, and waiting or open without any; its output is that of the last outcome with a value, its approval that of the request and the response for the call, or what the outcomes settle. |
| `UiProjection.ApplyTells` | agent-go/message/ui_projection.go:320-359 | Applying one more result to the card of a call turns what the outcomes before show into what all of them show, nothing happening for a result without output. |
| `LenientEdit.SplitEditLines` | agent-go/tools/edit.go:181-205 | The lines and their CR, LF or CRLF ends cover the text without gap or overlap. |
| `LenientEdit.TilesOnce` | agent-go/tools/edit.go:181-205 | A text has only one such division into lines, so the spans are determined. |
| `LenientEdit.TilesRebuild` | agent-go/tools/edit.go:181-205 | Lines and line ends put together again are the text. |
| `LenientEdit.FindLenientEditMatches` | agent-go/tools/edit.go:121-153 | All matches of the strictest lenient matcher that matches at all; none only if the loosest matches nowhere. |
| `LenientEdit.StrictestOnce` | agent-go/tools/edit.go:121-153 | What is matched, and by which matcher, is determined. |
| `LenientEdit.ApplyLenientEditMatches` | agent-go/tools/edit.go:155-170 | Every match from the last to the first, or the first only. It panics if and only if all are replaced and some match ends beyond the length of the text plus, for each later match, the length of the new string less its own. |
| `LenientEdit.CutsAtOnce` | agent-go/tools/edit.go:155-170 | For matches that do not overlap the back-to-front loop is one simultaneous replacement and never panics. |
| `LenientEdit.EditLenient` | agent-go/tools/edit.go:58-71 | Not found, ambiguous, edited or a panic, as the unique lines and matches say. |
| `LenientEdit.EditOnce` | agent-go/tools/edit.go:58-71 | The outcome of an edit is determined by its strings and its flag. |
| `LenientEdit.ApartEdits` | agent-go/tools/edit.go:121-170 | Matches that do not overlap are all replaced at once, and nothing panics. |
| `LenientEdit.OneLineEdits` | agent-go/tools/edit.go:121-170 | So an old string of one line is replaced wherever it is matched. |
| `LenientEdit.PanicsExactly` | agent-go/tools/edit.go:58-71 | The whole edit panics if and only if everything is to be replaced and some match does not fit into what the later replacements leave, by the same arithmetic; then matches overlap. |
| `LenientEdit.SpansApart` | agent-go/tools/edit.go:121-170 | Matches of n lines do not overlap if and only if each begins at least n lines after the one before it, or shares no more than an empty line with it. |
| `LenientEdit.OverlapPanics` | agent-go/tools/edit.go:53-71 | A text and an old string that reach the lenient search and are matched twice, overlapping: replacing all panics for a new string of less than two characters and repeats its end for any other. |
| `PromptQueue.Deleted` | agent-go/promptqueue/store.go:51-72 | Takes out the prompts with the ID and says whether there was one. |
| `PromptQueue.InsertAt` | agent-go/promptqueue/store.go:153-158 | Growing the slice by one and shifting its end makes room at the position, the others staying in order. |
| `PromptQueue.EditedAsAsked` | agent-go/promptqueue/store.go:133-146 | An edit takes over the message it names, and after it the prompt may run exactly when the named time is reached, at once, or as before. |
| `PromptQueue.UpdatedPrompt` | agent-go/promptqueue/store.go:121-164 | Edits the prompt in place, or moves the edited prompt to the clamped position. |
| `PromptQueue.MovedPrompt` | agent-go/promptqueue/store.go:121-164 | A moved prompt stands at the clamped position, the others keep their order, and no ID is gained or lost. |
| `PromptQueue.Popped` | agent-go/promptqueue/store.go:76-103 | The first prompt that may run now is taken out, the others keep their order. |
| `PromptQueue.NextRunAfter` | agent-go/promptqueue/store.go:168-183 | Ready exactly when some prompt may run; else the earliest time of any. |
| `PromptQueue.Manager.TakeNext` | agent-go/promptqueue/manager.go:181-210 | Nothing happens while the thread is busy; else the first prompt that may run leaves the queue. |
| `PromptQueue.Manager.StartOrRestore` | agent-go/promptqueue/manager.go:210-300 | The prompt is started, or stands at the front of the queue again, later if it could not be started at all; only a failing write loses it. |
| `PromptQueue.Manager.UpdatePrompt` | agent-go/promptqueue/manager.go:161-177 | The IDs in the queue stay the same, so do the other prompts and their order, and a moved prompt stands where it should. |
| `PromptQueue.Interleave` | agent-go/promptqueue/manager.go:181-300 | In every interleaving of requests each accepted prompt is in exactly one place: queued, in flight, started, removed or lost to a crash or a failing write. |
| `Credentials.NormalizeUses` | agent-go/thread/store.go:943-965 | The first use of each trimmed ID, sorted, blank IDs dropped. |
| `Credentials.NormalizeBindings` | agent-go/thread/store.go:969-996 | The first binding of each key, trimmed and with normal uses, sorted and without duplicates. |
| `Credentials.NormalBindingsOnce` | agent-go/thread/store.go:969-996 | A list has one normal form, so neither the sort algorithm nor the order of a map matters. |
| `Credentials.NormalizeTwice` | agent-go/thread/store.go:969-996 | Normalising twice is normalising once. |
| `Credentials.CanonicalFixed` | agent-go/thread/store.go:969-996 | A list in canonical form is its own and only normal form. |
| `Credentials.MergeBindings` | agent-go/thread/store.go:1000-1020 | All keys of both lists are kept, and the updates win. |
| `Credentials.DiffBindings` | agent-go/thread/store.go:1024-1093 | What is added or removed is, key by key, what the one normal form has that the other has not, itself in canonical form. |
| `Credentials.DiffIsExact` | agent-go/thread/store.go:1024-1093 | On pairs of binding and use the difference is exact: after is before less removed plus added, and neither reports anything twice. |
| `Credentials.DiffOfSame` | agent-go/thread/store.go:1024-1093 | Nothing changed, nothing reported. |
| `Credentials.BindingsExactly` | agent-go/thread/store.go:1024-1093 | On bindings the difference is exact if and only if the binding did not just lose uses; one that did is reported like one that is gone. |
| `Credentials.KeysTellApart` | agent-go/thread/store.go:935-937 | Keys identify bindings as long as no credential ID contains the separator. |

## Left out

The turn loop:

- Yielding chunks to the consumer, and a consumer that stops listening: the loop stops there, which is covered by a process
  that dies or fails at the next write.
- Store.ThreadDir.SaveTurnState: the durable copy of the turn record per turn is not modelled, because the loop never reads it.
- Turns.StartTurn: the metadata and time stamps of the user message are not modelled; neither is the configuration of the
  turn, which the turn record carries along.
- Turns.RunTurn: the given leaf has to exist or be the root, because the source takes it from the store and a prompt on a
  missing message fails at its first history.
- TurnLoop.LoopContext.Answer: results carry the ID of their call, because the executor promises it; the loop does not look.
- RunLog.Reminded: the text of an output that is a list of content items is taken for the text of its items put together.
- TurnLoop.LoopContext.WaitForAsyncHandles: the handles' goroutines are a loop that takes any live handle next.
- TurnLoop.LoopContext.RunStreamingPhase: the call of the compaction inside the phase is not modelled, because it writes no
  message; what it does to the history is proved in `CompactionRecords.MaybeCompact`.
- TurnLoop.LoopContext.ContinueAnswered: recording the credentials that a result grants is only an error that may happen to a
  result of that tool; what is recorded is the subject of `Credentials`.
- TurnLoop.LoopContext.CompleteTurn: token totals and the metadata of the response are only an error that may happen,
  because they change nothing that the protocol reads.
- ProcessSteps.Takes: the steps of turns without reminders, async work and changed tool lists only, because the runs that show
  a failure need no others; that the methods take these steps and no others is not proved.
- TurnLoop.LoopContext.constructor: the number of steps that the configuration allows is any number, because the
  configuration is not modelled; the check of it in front of the provider call, which drops the tools once more, is left out.
- TurnLoop.LoopContext.RefreshTurnTools: the text of the reminder about changed tools is a constant.
- Result files of older versions and the write that turns them into messages; corrupt files.
- IDs are values that were never issued before, because the source draws them at random.
- Turns.Serve: where a prompt starts is an argument, because the configuration file with the active leaf is not modelled;
  neither is FindLeaf with its time stamps.
- TurnLoop.LoopContext.ExecuteLoop: an unbounded loop is followed for any number of phases and then given up, as if the
  process had died there.

Compaction:

- HistorySplit.EstimateTokens: the length of the JSON form of a tool output is an arbitrary function of the output.
- Compaction.GenerateSummary: the model is an arbitrary function of the request, and the loop is followed for a given number
  of rounds; the text of the request and the retry on another provider are not modelled.
- CompactionRecords.PerformCompaction: `saved` is the record handed to the store; a failing write leaves the old record,
  which fits as before. The forced compaction runs the same plan without the threshold and is not modelled.
- CompactionRecords.MaybeCompact: how the input limit follows from the model's context window is not modelled.

Patch engine and edit tool:

- Applying the operations to files, the unified diff and the validation of paths.
- PatchPrinter.PrintedPatchReads: the runtime has no printer; the printed form is the one its parser documents.
- LenientEdit.EditLenient: replacing the old string where it occurs as it is, which comes first, is not modelled.
- Strings are sequences of characters instead of bytes, so an offset counts characters.

Stream log and views:

- Accumulator.ChunkAccumulator.Push: chunk kinds that change no part of the message share one constructor; provider metadata
  is an uninterpreted string, and the JSON form of tool inputs is text.
- Conversation.ConversationManager.Begin: completions live in a map by ID instead of behind pointers; listeners, ephemeral
  chunks and waiting for the next completion are not modelled.
- UiProjection.ProjectUIMessages: JSON of the user interface and marshalling errors are not modelled.

Prompt queue and credentials:

- PromptQueue.Manager.TakeNext: timers are not modelled; when the next attempt is made is the choice of the caller.
- PromptQueue.Manager.StartOrRestore: what starting a prompt does is one of three outcomes.
- Credentials.DiffBindings: the order in which the source appends entries of one key before sorting is not modelled, because
  sorted lists are unique (`Credentials.NormalBindingsOnce`).
- Skill-like entries have their own difference of the same shape, which would only repeat this one.
