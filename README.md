# Warm call transfer: a verified model of the transfer engine

This project models the core of a warm call-transfer service in Dafny. In a warm transfer, agent A briefs agent B before the caller is handed over. The core has three parts:

- **The warm-transfer engine** (`lib/transfer-orchestrator.ts`).
  - A `WarmTransferProcess` owns six `TransferStep` records and runs them in order: summary, transfer room, agent B joins, briefing, caller moved, agent A leaves. A step that is executed goes from `pending` through `in-progress` to `completed` or `failed`, changed in place. The `catch` of `start` and `cancel` instead fail a `pending` step directly, appending a note to its description.
  - When a step's action throws, `start` marks failed the step `getCurrentStep` then finds, with the error message appended.
  - `cancel` fails every unfinished step.
  - `WarmTransferOrchestrator` is the registry of processes by transfer id.
- **The agent registry** (`lib/ai-agent.ts`).
  - `AgentOrchestrator` keeps agents and prepared transfer sessions.
  - `initiateWarmTransfer` generates the call summary, the transfer script and agent B's opening, then registers a session.
  - The pure helpers extract key points and recommended actions from the summary text and render the customer-context sentence.
- **The call-session registry** (`lib/livekit.ts`). `LiveKitManager` keeps call sessions by id and appends and filters their participants and updates a session's status.

Modules:

- `TransferSteps` (transfer_steps.dfy) gives the step state machine as values. It defines:
  - the six initial steps;
  - `Execute` (`executeStep`), `MarkFailed` (`markStepFailed`), `CurrentId` (`getCurrentStep`) and `Cancelled` (`cancel`);
  - `Run`, the state a whole `start` leaves, given each action's outcome and the clock reading at each step.

  Its lemmas state the outcome of a successful run, of a run whose first failure is at step k, and of a cancel after either.
- `TransferOrchestrator` (transfer_orchestrator.dfy) holds the classes:
  - `Step`, mutable;
  - `WarmTransferProcess`, which holds a sequence of `Step` objects;
  - `WarmTransferOrchestrator`, which holds a map of processes.

  The methods that build, run, search or change the steps are proved against the `TransferSteps` functions, through `Snapshot()`, the current states of the steps. The lookups and the orchestrator's constructor are stated directly on its map.
- `AiAgent` (ai_agent.dfy) holds the extraction pipeline, the call-summary assembly and the `AgentOrchestrator` class.
- `LiveKit` (livekit.dfy) holds the participant filter with its lemmas and the `LiveKitManager` class.
- `JsString` (js_string.dfy) models the JavaScript built-ins the core relies on:
  - `trim`;
  - `split` on the class `[•\-\n]`;
  - the rendering of a whole number in a template literal;
  - string concatenation of several pieces.
- `Wrappers` (wrappers.dfy) holds `Option` and `Result`.

The model replaces each collaborator with a value:

- Each text generation is a `Generation`: the text produced, or a failure.
- The regular-expression captures of the two summary sections are `Option<string>` inputs.
- Speaking the transfer script is an `Outcome`: `Ok`, or `Fail` with a message.
- The clock readings at the start of each step are a sequence `times`.
- Each `crypto.randomUUID()` result is a parameter.

## Model

| member | source | states |
|---|---|---|
| TransferSteps.StepIdsDistinct | lib/transfer-orchestrator.ts:80-117 | the six step ids differ pairwise, and none is empty or equals the fallback id "unknown" |
| TransferSteps.InitialSteps | lib/transfer-orchestrator.ts:79-118 | `initializeSteps` builds six steps (their ids, states and timestamps are stated by InitialStepsShape) |
| TransferSteps.InitialStepsShape | lib/transfer-orchestrator.ts:79-118 | a new process has six steps with ids "1" to "6" in order, all `pending`, none with a timestamp, ids distinct |
| TransferSteps.FindFrom | lib/transfer-orchestrator.ts:178 | `find` by id returns the first index holding that id, and `None` exactly when no step has it |
| TransferSteps.FindCanonical | lib/transfer-orchestrator.ts:178 | in a well-formed list, the step with id `StepIds[k]` is found at index k |
| TransferSteps.CurrentId | lib/transfer-orchestrator.ts:173 | the id passed to `markStepFailed` is never empty. When a pending or in-progress step exists and its id is non-empty, it is the id of the first such step; otherwise it is "unknown" (in particular when every step has finished) |
| TransferSteps.FirstUnfinishedFrom | lib/transfer-orchestrator.ts:201-203 | `getCurrentStep` returns the first pending or in-progress step; every step before it is finished; `None` means all are finished |
| TransferSteps.Execute | lib/transfer-orchestrator.ts:177-191 | `executeStep` keeps the number of steps (its effect is stated by ExecuteEffect) |
| TransferSteps.ExecuteEffect | lib/transfer-orchestrator.ts:177-191 | an unknown id changes nothing. Otherwise only the target step changes: it ends `completed` if the action returned, else `failed`; it keeps id, name and description and is stamped with the time. The error is rethrown exactly when the action threw |
| TransferSteps.MarkFailed | lib/transfer-orchestrator.ts:193-199 | `markStepFailed` keeps the number of steps (its effect is stated by MarkFailedEffect) |
| TransferSteps.MarkFailedEffect | lib/transfer-orchestrator.ts:193-199 | an unknown id changes nothing; otherwise only that step changes: it becomes `failed` and its description gains " - Error: " and the message; id, name and timestamp are kept |
| TransferSteps.Cancelled | lib/transfer-orchestrator.ts:222-228 | `cancel` keeps the number of steps (its effect is stated by CancelledSettles) |
| TransferSteps.CancelStep | lib/transfer-orchestrator.ts:224-227 | one step after `cancel` is finished and keeps id, name and timestamp; a finished step is unchanged; an unfinished one gains " - Transfer cancelled" |
| TransferSteps.CancelledSettles | lib/transfer-orchestrator.ts:222-228 | after `cancel` every step is `completed` or `failed`; finished steps are unchanged; each pending or in-progress step becomes `failed` with " - Transfer cancelled" appended to its description, all else kept |
| TransferSteps.CancelIdempotent | lib/transfer-orchestrator.ts:222-228 | a second `cancel` has no further effect on the steps |
| TransferSteps.CancelFinishedIsNoOp | lib/transfer-orchestrator.ts:222-228 | cancelling when every step has finished changes nothing |
| TransferSteps.CancelSettledPrefix | lib/transfer-orchestrator.ts:223-227 | on steps finished up to m and pending after, `cancel` keeps the first m and fails the rest with " - Transfer cancelled" appended |
| TransferSteps.RunFrom | lib/transfer-orchestrator.ts:120-175 | the remaining steps of `start`, from step i, keep the number of steps (the outcome is stated by RunSucceeds and RunFailsAt) |
| TransferSteps.Run | lib/transfer-orchestrator.ts:120-175 | a whole `start` keeps the number of steps (the outcome is stated by RunSucceeds and RunFailsAt) |
| TransferSteps.RunStopsAtFailure | lib/transfer-orchestrator.ts:123-131 | when the action of step 1 throws, the outcomes of the later actions do not affect the result |
| TransferSteps.CompletedUpTo | lib/transfer-orchestrator.ts:186 | the initial steps with the first j completed are well formed |
| TransferSteps.RunCompletesPrefix | lib/transfer-orchestrator.ts:123-168 | a run over steps whose actions all return completes them one by one and continues from the first step after them |
| TransferSteps.RunSucceeds | lib/transfer-orchestrator.ts:120-170 | if every action returns, all six steps end `completed` with their names and descriptions, each stamped at its start; with a non-decreasing clock the timestamps are non-decreasing |
| TransferSteps.StoppedAt | lib/transfer-orchestrator.ts:188 | the steps after a failure at step k are well formed |
| TransferSteps.ExecuteFails | lib/transfer-orchestrator.ts:184-190 | after the first k steps completed, a throwing action at step k leaves it `failed`, stamped, and rethrows the message |
| TransferSteps.CurrentAfterStop | lib/transfer-orchestrator.ts:173 | after step k failed, `getCurrentStep` finds step k+1, and after the last step none ("unknown") |
| TransferSteps.MarkAfterStop | lib/transfer-orchestrator.ts:171-174 | the `catch` of `start` after a failure at step k annotates step k+1, or nothing when k is the last step |
| TransferSteps.RunReachesFailedAt | lib/transfer-orchestrator.ts:120-174 | a run whose first throwing action is step k's ends in the state `FailedAt(k, message)` |
| TransferSteps.RunFailsAt | lib/transfer-orchestrator.ts:120-174 | if the action of step k throws first, then: steps before k are `completed`; step k is `failed` with its description unchanged; step k+1 is `failed` with " - Error: " and the message appended and no timestamp; the rest stay `pending` |
| TransferSteps.CancelAfterSuccess | lib/transfer-orchestrator.ts:209-228 | cancelling after a fully successful run changes nothing |
| TransferSteps.CancelAfterFailure | lib/transfer-orchestrator.ts:209-228 | cancelling after a failure at step k keeps the steps the run settled and fails the pending ones with " - Transfer cancelled" appended |
| TransferOrchestrator.SummaryOutcome | lib/transfer-orchestrator.ts:123-131 | the action of step 1 throws exactly when preparing the handoff fails, and its message is the error preparing the handoff fails with: the first failed generation's fixed message. Step 1 registers both agents first, so "Agents not found" cannot arise there |
| TransferOrchestrator.StartOutcomes | lib/transfer-orchestrator.ts:133-168 | the actions of steps 2, 3, 5 and 6 cannot throw |
| TransferOrchestrator.Step.constructor | lib/transfer-orchestrator.ts:81-86 | a new step record is `pending` with no timestamp |
| TransferOrchestrator.WarmTransferProcess.InitializeSteps | lib/transfer-orchestrator.ts:79-118 | six new step objects, distinct, whose states are the initial steps |
| TransferOrchestrator.WarmTransferProcess.constructor | lib/transfer-orchestrator.ts:63-77 | a new process stores its arguments, has no session and holds the six initial steps |
| TransferOrchestrator.WarmTransferProcess.FindStepById | lib/transfer-orchestrator.ts:178 | the search loop returns the step object `FindStep` designates, or null when no step has the id |
| TransferOrchestrator.WarmTransferProcess.GetCurrentStep | lib/transfer-orchestrator.ts:201-203 | the search loop returns the step object `FirstUnfinishedFrom` designates, or null when all have finished |
| TransferOrchestrator.WarmTransferProcess.ExecuteStep | lib/transfer-orchestrator.ts:177-191 | the steps' new states and the rethrown error are those of `Execute` on the old states |
| TransferOrchestrator.WarmTransferProcess.MarkStepFailed | lib/transfer-orchestrator.ts:193-199 | the steps' new states are `MarkFailed` of the old states |
| TransferOrchestrator.WarmTransferProcess.MarkCurrentStepFailed | lib/transfer-orchestrator.ts:171-174 | the `catch` marks failed the step `getCurrentStep` finds, or the id "unknown" |
| TransferOrchestrator.WarmTransferProcess.RunStep | lib/transfer-orchestrator.ts:121-174 | one step of `start`: either it fails and the run is over, or the rest of the run from the new state equals the run from the old one |
| TransferOrchestrator.WarmTransferProcess.RunSteps | lib/transfer-orchestrator.ts:133-174 | running steps k to 6 leaves the states `RunFrom` gives |
| TransferOrchestrator.WarmTransferProcess.PrepareTransfer | lib/transfer-orchestrator.ts:123-131 | step 1 registers agent A ("agent_a_" + id, the given name) and agent B ("agent_b_" + id, "Agent B"). A session is registered and kept exactly when the handoff is prepared: status `initiated`, the drawn id and creation time, the two agent ids, the context, and the prepared summary, script and opening. Otherwise the error is the outcome and no session changes |
| TransferOrchestrator.WarmTransferProcess.Start | lib/transfer-orchestrator.ts:120-175 | the steps end in `Run` of their old states under the actions' outcomes; both agents are registered; a session is stored and registered exactly when the handoff is prepared, with status `initiated`, the drawn id and creation time, the two agent ids, the context, and the prepared summary, script and opening |
| TransferOrchestrator.WarmTransferProcess.Cancel | lib/transfer-orchestrator.ts:209-229 | the loop leaves the steps in `Cancelled` of their old states |
| TransferOrchestrator.WarmTransferProcess.GetSteps | lib/transfer-orchestrator.ts:231-233 | returns a new list of the same six step objects, in order |
| TransferOrchestrator.WarmTransferProcess.GetTransferSession | lib/transfer-orchestrator.ts:235-237 | returns the stored session |
| TransferOrchestrator.WarmTransferOrchestrator.constructor | lib/transfer-orchestrator.ts:14 | the registry starts empty |
| TransferOrchestrator.WarmTransferOrchestrator.InitiateWarmTransfer | lib/transfer-orchestrator.ts:16-32 | returns the drawn id; the map gains exactly that key, for a new process with the given caller, agent A name, original room and context, whose steps end in `Run` of the initial steps; other entries keep their process and their steps. Agents A and B are registered under `agent_a_`/`agent_b_` and the id; a new session, `initiated`, with the drawn session id and creation time, those agent ids, the context and the prepared summary, script and opening, is kept by the process and registered exactly when the handoff is prepared, and otherwise the sessions are unchanged |
| TransferOrchestrator.WarmTransferOrchestrator.Launch | lib/transfer-orchestrator.ts:24-29 | a new valid process for the id with the given caller, agent A name, original room and context, started to its end; the agent registry gains agents A and B, and the new session, with all its fields, exactly when the handoff is prepared |
| TransferOrchestrator.WarmTransferOrchestrator.GetTransferProcess | lib/transfer-orchestrator.ts:34-36 | the process registered under the id, or null |
| TransferOrchestrator.WarmTransferOrchestrator.GetTransferStatus | lib/transfer-orchestrator.ts:38-41 | no steps for an unknown id; otherwise the process's six step objects, shared, in order |
| TransferOrchestrator.WarmTransferOrchestrator.CancelTransfer | lib/transfer-orchestrator.ts:43-49 | a registered process is cancelled and its entry deleted; other entries and their steps are unchanged; an unknown id changes nothing |
| JsString.TrimStart | lib/ai-agent.ts:141 | the result is no longer than the input and does not start with whitespace |
| JsString.TrimStartDrops | lib/ai-agent.ts:141 | the result is a suffix of the input and only whitespace was dropped |
| JsString.TrimEnd | lib/ai-agent.ts:141 | the result is no longer than the input and does not end with whitespace |
| JsString.TrimEndDrops | lib/ai-agent.ts:141 | the result is a prefix of the input and only whitespace was dropped |
| JsString.Trim | lib/ai-agent.ts:141 | neither end of the result is whitespace |
| JsString.TrimSlice | lib/ai-agent.ts:141 | the trim is a slice of the input and everything cut off on either side is whitespace |
| JsString.TrimIdempotent | lib/ai-agent.ts:141 | trimming twice is trimming once |
| JsString.TrimFixedPoint | lib/ai-agent.ts:141 | a string without whitespace at either end is its own trim |
| JsString.SplitOnSeparators | lib/ai-agent.ts:140 | at least one piece, and no piece contains a separator |
| JsString.Separators | lib/ai-agent.ts:140 | the separators of a string, in order, are all separator characters |
| JsString.InterleaveConsFirst | lib/ai-agent.ts:140 | prefixing the first piece prefixes the rebuilt string |
| JsString.SplitRoundTrip | lib/ai-agent.ts:140 | the pieces interleaved with the separators rebuild the input |
| JsString.DigitChar | lib/ai-agent.ts:161 | a digit value is rendered as a character from '0' to '9' |
| JsString.NatToString | lib/ai-agent.ts:161 | a whole number renders as decimal digits without a leading zero |
| JsString.DecimalRoundTrip | lib/ai-agent.ts:161 | the rendered number reads back as that number |
| JsString.ConcatSplit | lib/ai-agent.ts:161 | joining two lists of pieces is joining their two joins |
| JsString.OccursShift | lib/ai-agent.ts:161 | a piece found in a string is found, shifted, in any string that ends with it |
| JsString.ConcatOccurs | lib/ai-agent.ts:161 | in a join each piece stands right after the join of the pieces before it |
| AiAgent.CleanPieces | lib/ai-agent.ts:141-142 | trimming and dropping empty pieces gives non-empty, trimmed entries, no more than there were pieces |
| AiAgent.CleanPiecesMembers | lib/ai-agent.ts:141-142 | an entry is kept exactly when it is the non-empty trim of some piece |
| AiAgent.CleanPiecesAppend | lib/ai-agent.ts:140-142 | cleaning keeps the order of the pieces: cleaning a concatenation is concatenating the cleanings |
| AiAgent.TrimKeepsNoSeparator | lib/ai-agent.ts:141 | trimming does not introduce a separator character |
| AiAgent.CleanPiecesKeepNoSeparator | lib/ai-agent.ts:140-142 | entries cleaned from separator-free pieces are separator-free |
| AiAgent.ExtractList | lib/ai-agent.ts:137-145 | no match gives []. Otherwise the result is the first `limit` of the cleaned pieces: a prefix, shorter only when fewer exist. Each entry is non-empty, trimmed and free of separators |
| AiAgent.ExtractKeyPoints | lib/ai-agent.ts:135-146 | at most 5 entries, each trimmed and non-empty; [] when the section does not match |
| AiAgent.ExtractRecommendedActions | lib/ai-agent.ts:148-158 | at most 3 entries, each trimmed and non-empty; [] when the section does not match |
| AiAgent.ExtractCustomerContext | lib/ai-agent.ts:160-162 | the sentence opens with the caller's name and ends with " urgency." (the other fields are placed by CustomerContextFields) |
| AiAgent.CustomerContextFields | lib/ai-agent.ts:160-162 | the sentence holds caller name, duration, issue, sentiment and urgency, in that order, each after the fixed text before it; it ends with " urgency."; the duration written reads back as the number |
| AiAgent.GenerateCallSummary | lib/ai-agent.ts:34-74 | succeeds exactly when the generation does. The summary is the raw generated text and the customer context is `extractCustomerContext`; the key points and actions are `extractKeyPoints` and `extractRecommendedActions` of their captures, so at most 5 and 3. Failure is "Failed to generate call summary" |
| AiAgent.TrimmedGeneration | lib/ai-agent.ts:76-133 | the script and the opening are the trimmed generated text, or the fixed error message when generation fails |
| AiAgent.PrepareHandoff | lib/ai-agent.ts:189-196 | succeeds exactly when all three generations do; the first failure in call order gives its message; on success the summary is the one `generateCallSummary` returns and the texts are the trimmed script and opening |
| AiAgent.TransferSession.constructor | lib/ai-agent.ts:198-208 | a new session holds its fields with status `initiated` |
| AiAgent.AgentOrchestrator.constructor | lib/ai-agent.ts:166-167 | both maps start empty |
| AiAgent.AgentOrchestrator.CreateAgent | lib/ai-agent.ts:169-173 | the agent is stored under its id, replacing any previous one; sessions are untouched |
| AiAgent.AgentOrchestrator.GetAgent | lib/ai-agent.ts:175-177 | the agent stored under the id, or nothing when there is none |
| AiAgent.AgentOrchestrator.InitiateWarmTransfer | lib/ai-agent.ts:179-212 | a missing agent gives "Agents not found", and a failed generation gives its message; in both cases no session is registered. Otherwise a new session, status `initiated`, with the given agent ids, context and texts, is registered under its own id. Agents are untouched |
| AiAgent.AgentOrchestrator.GetTransferSession | lib/ai-agent.ts:214-216 | the session registered under the id, or null |
| AiAgent.AgentOrchestrator.UpdateTransferStatus | lib/ai-agent.ts:218-223 | only the status of that session changes; an unknown id changes nothing |
| LiveKit.Without | lib/livekit.ts:74 | the filter never lengthens the list |
| LiveKit.WithoutMembers | lib/livekit.ts:74 | the filter keeps exactly the participants with another id |
| LiveKit.WithoutAppend | lib/livekit.ts:74 | filtering distributes over concatenation, so relative order is kept |
| LiveKit.WithoutAbsent | lib/livekit.ts:74 | removing an id nobody has leaves the list as it was |
| LiveKit.WithoutIdempotent | lib/livekit.ts:71-76 | removing the same id twice is removing it once |
| LiveKit.AddThenRemove | lib/livekit.ts:64-76 | appending a participant with a new id and then removing that id restores the list |
| LiveKit.CallSession.constructor | lib/livekit.ts:28-47 | a new session holds its fields with status `active` and no summary |
| LiveKit.LiveKitManager.constructor | lib/livekit.ts:25 | the registry starts empty |
| LiveKit.LiveKitManager.CreateSession | lib/livekit.ts:27-51 | a new `active` session under its own id, with two connected participants: first the caller with the caller's name, then "Agent A" |
| LiveKit.LiveKitManager.GetSession | lib/livekit.ts:53-55 | the session stored under the id, or null |
| LiveKit.LiveKitManager.UpdateSessionStatus | lib/livekit.ts:57-62 | only that session's status changes; participants and summaries everywhere are unchanged; an unknown id changes nothing |
| LiveKit.LiveKitManager.AddParticipant | lib/livekit.ts:64-69 | the participant is appended at the end, duplicates included; other sessions and all statuses and summaries are unchanged |
| LiveKit.LiveKitManager.RemoveParticipant | lib/livekit.ts:71-76 | the list becomes the filter of the old one; other sessions and all statuses and summaries are unchanged |

## Left out

- Text generation (`generateText`, the prompts, model parameters and `console.log`): each call is a `Generation` value. The unused `lines` variable of `generateCallSummary` (lib/ai-agent.ts:62) is not modelled.
- The regular expressions of `extractKeyPoints` and `extractRecommendedActions`: their capture is an input. The split, trim, filter and slice that follow are modelled.
- AiAgent.CustomerContextFields: `callDuration` is a whole number (`nat`). Fractional durations, and numbers that JavaScript prints in exponent form (10^21 and above), are not rendered as JavaScript would.
- lib/text-to-speech.ts is not part of this model. Speaking the transfer script is an outcome, and `stopSpeaking` has no effect on the modelled state.
- `crypto.randomUUID()` and `new Date()` are parameters. No freshness is assumed for an id; a reused id overwrites its entry, as `Map.set` does.
- `simulateDelay` and the console output of steps 2, 3, 5 and 6 are not modelled; these actions cannot throw.
- `transferRoom` and `originalRoom` are never assigned, so the disconnect branches of `cancel` are not modelled.
- `LIVEKIT_CONFIG` holds environment configuration only, and is not modelled.
- Asynchrony. `start` is awaited by `initiateWarmTransfer`, so runs are sequential. The `in-progress` state a step holds while its action runs is not observable afterwards, and the model applies each action's outcome when the action ends.
- TransferOrchestrator.WarmTransferOrchestrator.InitiateWarmTransfer: the process is registered in the map after it has run rather than before. `start` never reads the registry, so the resulting state is the same. For the other entries its `ensures` names their processes; their steps' states are kept by the frame, since no step object that existed before the call is in its `modifies` clause.
- TransferOrchestrator.WarmTransferProcess.Start: step 4 speaks only when a session is stored. Only step 1 stores one, and a failure of step 1 ends the run before step 4, so the model fixes that decision right after step 1.
- Sessions and agents (`TransferSession`, `CallSession`) are shared objects, as in the source. An `AIAgent` never changes after construction, so it is a value.

The model follows the code as written:

- `initiateWarmTransfer` awaits the whole run before it returns the id.
- No cancellation flag is consulted between steps.
- After the action of step k fails, the `catch` annotates step k+1 (the one `getCurrentStep` finds), not step k.
- Step 1 registers both agents just before asking for a session, so "Agents not found" cannot arise there; only a generation failure fails step 1.
