# Vinekeepers: a verified model

Vinekeepers runs chat bots whose conversations are step programs written in configuration, provisions rooms for them,
and reports the progress of cloud runs back to those rooms. This project models that behaviour in Dafny and proves what
holds over every event, every run and every reachable state. `dafny verify dfyconfig.toml` checks all of it.

| file | what it models |
|---|---|
| Text | Java string conventions: null, blank, trim, truncation; what white space and trimming are |
| Interpolation | the placeholder loop of prompts, final messages and posted messages |
| WorkflowModel, Steps | events, session data, step programs, and what each step type answers |
| SessionKeys | which stored conversation an event belongs to |
| Interpreter | the run of a program as a function, its small-step relation, and what a run saves |
| Runner | the mutable side: session objects, the shared store, the runner's loop |
| Termination, BotsConfig | a condition under which the step limit is unreachable; the shipped programs |
| LunaHistory, ConfirmButtons | safety of the luna_cursor program over every event history, from button to launch |
| Isolation, LunaAmongOthers | independence of interleaved sessions; luna_cursor's safety among other sessions |
| Lifecycle | the context store with its three indexes, and their agreement with the history |
| Delivery, Provisioning | inbound and outbound routing, room provisioning, the owner's identity |
| Ownership | how long a place speaks as its owner, over every later history of the store |
| RunMonitor, RunProtocol | polling runs of a remote side that may fail, and the log it produces |
| ChannelName, Choices | name normalization; choices to components to captured values |
| TinySegmenter | the word segmenter of the documentation search |

## How it is built

The world outside (actions, tools, choice providers, the remote run service, gateways, clocks, fresh ids) answers
arbitrarily: its answers are inputs, functions of the loop iteration where they may differ from call to call, or explicit
failures. Objects the program updates in place are classes; each of their methods is proved equal to a function of the old
state, and the theorems are about those functions: histories, traces and interleavings of any length. `hide` statements in
proof bodies only narrow what a proof looks at.

Where a promise does not hold as first stated, the project gives a concrete failing input and the exact condition:

| promise | failing input | exact condition |
|---|---|---|
| the delivery index is the inverse of the contexts' targets | `SharedTargetIsLost` | `PutKeepsExact`, over histories `TargetsAreExact` |
| setting a target and binding a run commute | `TargetAndRunConflict` | `TargetAndRunCommute` |
| an owned room's threads are created through its owner | `ThreadLeavesOwner` | `ThreadStaysWithOwner` |
| a closed run has been announced | `SilentEnd` | `ClosingVisitDecides`, `AnnouncedExactlyWhen` |
| a tick closes every listed run that is reported as finished | `FinishedRunIsNeverAnnounced`, `FailingRunStarvesOthers` | `TickClosesExactlyWhen`, over histories `ReportedRunIsClosed` |
| a provisioned room goes on speaking as its owner | `RoomIsTakenOver` | `DoKeepsOwner`, over histories `RunSpeaksThroughout` |
| normalizing a channel name twice changes nothing more | `TruncationExposesHyphen` | `NormalizeAgain` |
| picking a choice stores its id | `LongMenuIdIsCut` | `ChoiceRoundTrip` |
| straight programs finish | `NinetyNineIsExact` with 100 steps | `NinetyNineIsExact`: exactly those of at most 99 steps |

Points where code and description differ, and the model follows the code: an absent session key compares as the text
`null` in a branch condition (`AbsentKeyReadsNull`); a prompt treats a blank stored value as an answer (`PromptWaitsUnlessAnswered`);
create_channel answering null does not stop luna_cursor, only the sentinel does (`LaunchExactlyWhen`).

## Model

| member | source | states |
|---|---|---|
| Interpolation.Interpolate | src/main/java/com/vinekeepers/workflow/steps/DoneStep.java:20-31 | the replacement loop, in whatever order the hash map yields its keys, computes the in-order replacement; the `contains` test is only a shortcut |
| Interpolation.ReplaceRender | src/main/java/com/vinekeepers/workflow/steps/PromptForFieldStep.java:74-87 | replacing one key in a rendered template fills exactly the holes of that key: no other placeholder, literal or overlap is touched |
| Interpolation.FillVisited | src/main/java/com/vinekeepers/workflow/actions/PostChannelMessageAction.java:61-73 | after any prefix of the loop exactly the visited keys are filled |
| Interpolation.OrderIsIrrelevant | src/main/java/com/vinekeepers/workflow/steps/DoneStep.java:20-31 | for brace-free literals, keys and values, every enumeration of the keys gives the one simultaneous substitution, and unknown placeholders survive verbatim |
| Interpolation.OrderMattersWithBraces | src/main/java/com/vinekeepers/workflow/steps/DoneStep.java:20-31 | a value that spells a placeholder makes two key orders give different texts |
| Steps.FilledTextIgnoresOrder | src/main/java/com/vinekeepers/workflow/steps/PromptForFieldStep.java:74-87 | prompts and done messages come out the same under any two hash orders of the same session data |
| Steps.PromptWaitsUnlessAnswered | src/main/java/com/vinekeepers/workflow/steps/PromptForFieldStep.java:58-72 | a prompt waits if and only if its field is absent or reads `__custom__`; a blank answer counts as an answer |
| Steps.PromptSays | src/main/java/com/vinekeepers/workflow/steps/PromptForFieldStep.java:66-123 | a waiting prompt gives its template filled from the session and, as choices, the provider's answer followed by the configured ones, else the configured ones, else a confirmation, as its intent says |
| Steps.ContentPrecedence | src/main/java/com/vinekeepers/workflow/steps/CaptureFieldFromEventStep.java:40-65 | an event that selects nothing is read by the configured key, then as content, then as text, else as empty |
| Steps.JoinSnoc | src/main/java/com/vinekeepers/workflow/steps/CaptureFieldFromEventStep.java:46-48 | several selected values are read as one text, in order, with a comma and a blank between them |
| Steps.AskInputStores | src/main/java/com/vinekeepers/workflow/steps/AskForInputStep.java:22-27 | ask_input stores the event's content, else its text, else an empty text, whatever an interaction selects |
| Steps.BranchTakesFirstMatch | src/main/java/com/vinekeepers/workflow/steps/BranchStep.java:25-44 | the first entry whose condition holds and whose target is not negative decides; the step falls through exactly when no entry matches |
| Steps.AbsentKeyReadsNull | src/main/java/com/vinekeepers/workflow/steps/BranchStep.java:33-38 | a comparison with an absent key holds if and only if the expected value is the text null, just as if the key held that text |
| Steps.ConditionsRead | src/main/java/com/vinekeepers/workflow/steps/BranchStep.java:33-63 | a comparison reads a held value as its text; a bare key asks for a set flag, a non-blank text or any other value; else always holds |
| Steps.MissingBindingSilencesAction | src/main/java/com/vinekeepers/workflow/WorkflowActionRegistry.java:30-39 | a bound placeholder naming a key the session lacks makes the argument copy fail, so the registered action never runs and the step goes on without a result |
| Steps.RegisteredAnswer | src/main/java/com/vinekeepers/workflow/WorkflowActionRegistry.java:30-39 | the answer of a registered action is the step's result; a failing or unknown action leaves the step without one |
| Steps.ToolAnswer | src/main/java/com/vinekeepers/workflow/steps/CallActionStep.java:44-49 | the answer of a tool is the step's result, its failure the step's failure |
| Steps.NullArgumentExactlyWhen | src/main/java/com/vinekeepers/workflow/steps/CallActionStep.java:52-83 | some argument is null if and only if some binding is a placeholder of a key the session does not hold |
| Steps.MetadataCarriesEvent | src/main/java/com/vinekeepers/workflow/steps/CallActionStep.java:64-72 | actions see the event's payload with its source and kind, which win over entries of the same names |
| Steps.ArgumentPrecedence | src/main/java/com/vinekeepers/workflow/steps/CallActionStep.java:52-62 | the arguments are session data, event metadata and bindings, later ones winning, every binding with its resolved value |
| Steps.BoundText | src/main/java/com/vinekeepers/workflow/steps/CallActionStep.java:74-83 | a bound placeholder reads the session under its trimmed key or is null, any other text stands for itself |
| BotsConfig.RoomIsBoundToArrietty | config/bots.yaml:126-143 | create_channel and create_lifecycle_context always get arrietty as owner, whatever the session holds |
| Runner.FillArgs | src/main/java/com/vinekeepers/workflow/steps/CallActionStep.java:52-83 | filling the argument map entry by entry in any order gives the argument map of the specification |
| SessionKeys.ChannelUserKeyInjective | src/main/java/com/vinekeepers/workflow/SessionKeyStrategies.java:35-50 | with colon-free bot and channel ids, and any actor ids, two channel_user keys are equal if and only if bot, channel and effective non-blank actor agree |
| SessionKeys.UserKeysInjective | src/main/java/com/vinekeepers/workflow/SessionKeyStrategies.java:13-50 | by default on Discord, and under any configured name but channel and thread, and with colon-free bot and channel ids, two session keys are equal if and only if bot, channel and effective actor agree |
| SessionKeys.RoomKeysInjective | src/main/java/com/vinekeepers/workflow/SessionKeyStrategies.java:13-41 | by default outside Discord, and under the name channel, two session keys are equal if and only if bot and non-blank channel agree |
| SessionKeys.ThreadKeysInjective | src/main/java/com/vinekeepers/workflow/SessionKeyStrategies.java:52-58 | under the name thread, two session keys are equal if and only if bot and present thread agree, or without threads bot, channel and actor |
| SessionKeys.DefaultKeysSpelled | src/main/java/com/vinekeepers/workflow/SessionKeyStrategies.java:27-50 | the stored key of an unconfigured bot, in full: with the author on Discord, without elsewhere |
| SessionKeys.SourceTypeReads | src/main/java/com/vinekeepers/bot/NormalizedEventContext.java:64-68 | an event is from Discord if and only if its source is discord or begins with discord and a colon |
| SessionKeys.EventIds | src/main/java/com/vinekeepers/bot/NormalizedEventContext.java:69-72 | each id of an event is read under its own name first, then under its short one |
| SessionKeys.KeysCollideWithColons | src/main/java/com/vinekeepers/workflow/SessionKeyStrategies.java:35-50 | a channel id containing a colon collides with a channel plus an actor |
| SessionKeys.WritesMissSessions | src/main/java/com/vinekeepers/workflow/actions/LaunchCursorRunAction.java:118-124 | no key written by an action equals any session key, whatever the ids |
| SessionKeys.WriteKeysSpelled | src/main/java/com/vinekeepers/workflow/actions/LaunchCursorRunAction.java:102-107 | the keys under which actions write, in full |
| Interpreter.StoreThenClear | src/main/java/com/vinekeepers/workflow/ConfigurableWorkflowRunner.java:85-95 | a key both stored and cleared by one step is gone afterwards; the session key survives every clear list |
| Interpreter.EnterStarts | src/main/java/com/vinekeepers/workflow/ConfigurableWorkflowRunner.java:52-59 | a run starts afresh if there is no session, the last run completed, or the stored position is not in the program; otherwise it goes on with all that the session holds |
| Interpreter.WaitingEndsRun | src/main/java/com/vinekeepers/workflow/ConfigurableWorkflowRunner.java:97-104 | a waiting step saves the session behind itself, waiting for its field, and the user gets its text and choices |
| Interpreter.DoneEndsRun | src/main/java/com/vinekeepers/workflow/ConfigurableWorkflowRunner.java:63-67 | a done step completes the run with its filled message; past the end a run completes with an empty one |
| Interpreter.ThrowEndsRun | src/main/java/com/vinekeepers/workflow/ConfigurableWorkflowRunner.java:73-83 | a throwing step ends the run with its message and changes nothing but the status |
| Interpreter.ErrorEndsRun | src/main/java/com/vinekeepers/workflow/ConfigurableWorkflowRunner.java:115-119 | a step answering with an error ends the run with its message at its own position, its stored value kept |
| Interpreter.HaltingRunWrites | src/main/java/com/vinekeepers/workflow/ConfigurableWorkflowRunner.java:61-127 | a run writes to the shared store exactly what its executed steps write, in their order |
| Interpreter.TraceFixesRun | src/main/java/com/vinekeepers/workflow/ConfigurableWorkflowRunner.java:61-127 | any small-step trace that halts within 100 steps, or takes 100 without halting, determines the run's result and saved session |
| Interpreter.RunLeavesTrace | src/main/java/com/vinekeepers/workflow/ConfigurableWorkflowRunner.java:61-127 | every run leaves such a trace |
| Interpreter.RunRefinesSmallSteps | src/main/java/com/vinekeepers/workflow/ConfigurableWorkflowRunner.java:61-127 | a run ends in a given state and result if and only if the small-step relation halts there within 100 steps, or does not halt within 100 and the end is the limit error; the two cases exclude each other |
| Interpreter.RunIsTruthful | src/main/java/com/vinekeepers/workflow/ConfigurableWorkflowRunner.java:55-127 | for programs that never store into `__sessionKey`: from any stored session, the saved status is never ACTIVE, says the same as the returned result, and `__sessionKey` equals the key |
| Interpreter.FailedStepIsRetried | src/main/java/com/vinekeepers/workflow/ConfigurableWorkflowRunner.java:71-83 | a step that throws or answers with an error is saved with its own index, and the next event of the session starts by executing that step |
| Runner.WorkflowState.constructor | src/main/java/com/vinekeepers/workflow/ConfigurableWorkflowState.java:27-32 | a new session is empty, at step 0, active |
| Runner.WorkflowState.SetActive | src/main/java/com/vinekeepers/workflow/ConfigurableWorkflowState.java:89-94 | marking active forgets the field waited for and the prompt, nothing else |
| Runner.WorkflowState.SetWaiting | src/main/java/com/vinekeepers/workflow/ConfigurableWorkflowState.java:96-101 | marking waiting records field and prompt, nothing else |
| Runner.WorkflowState.SetCompleted | src/main/java/com/vinekeepers/workflow/ConfigurableWorkflowState.java:103-108 | marking completed forgets the field waited for and the prompt, nothing else |
| Runner.WorkflowState.SetError | src/main/java/com/vinekeepers/workflow/ConfigurableWorkflowState.java:110-113 | marking an error changes the status only |
| Runner.WorkflowState.ResetForNewRun | src/main/java/com/vinekeepers/workflow/ConfigurableWorkflowState.java:115-122 | a reset session equals a new one |
| Runner.WorkflowState.ClearKeys | src/main/java/com/vinekeepers/workflow/ConfigurableWorkflowState.java:151-159 | the removal loop removes exactly the listed keys except `__sessionKey` |
| Runner.StateStore.Get | src/main/java/com/vinekeepers/state/StateStore.java:15-20 | an entry of another kind counts as absent |
| Runner.StateStore.Put | src/main/java/com/vinekeepers/state/StateStore.java:22-24 | saving a session changes that key's entry only, and no object is stored under two keys |
| Runner.StateStore.Publish | src/main/java/com/vinekeepers/workflow/actions/LaunchCursorRunAction.java:102-107 | an action's writes leave the running session's object and key alone |
| Runner.WorkflowRunner.Open | src/main/java/com/vinekeepers/workflow/ConfigurableWorkflowRunner.java:52-59 | the run starts from the saved session, restarted when it was completed or its index lies past the program |
| Runner.WorkflowRunner.Accept | src/main/java/com/vinekeepers/workflow/ConfigurableWorkflowRunner.java:85-123 | applying a step's answer to the session object in place has the effect of the small step |
| Runner.WorkflowRunner.Settle | src/main/java/com/vinekeepers/workflow/ConfigurableWorkflowRunner.java:71-123 | an iteration's effect on session object and store, and every halting iteration has saved the session |
| Runner.WorkflowRunner.Iterate | src/main/java/com/vinekeepers/workflow/ConfigurableWorkflowRunner.java:62-123 | one loop iteration is one small step |
| Runner.WorkflowRunner.Loop | src/main/java/com/vinekeepers/workflow/ConfigurableWorkflowRunner.java:61-127 | at most 100 iterations; whatever the exit, the saved session and the result are those of the functional run |
| Runner.WorkflowRunner.RunResult | src/main/java/com/vinekeepers/workflow/ConfigurableWorkflowRunner.java:47-128 | for one event: result and saved session are the run of the session under the event's key, and every other key changes only by what actions published |
| Termination.StepMovesOn | src/main/java/com/vinekeepers/workflow/steps/BranchStep.java:25-44 | in a well structured program a step that does not halt moves strictly forward or arrives at a prompt whose answer it has just cleared |
| Termination.TraceToHalt | src/main/java/com/vinekeepers/workflow/ConfigurableWorkflowRunner.java:61-127 | from any configuration the small-step relation halts within the remaining budget |
| Termination.RunHaltsWithinSize | src/main/java/com/vinekeepers/workflow/ConfigurableWorkflowRunner.java:61-127 | one run of a well structured program takes at most size+1 iterations, from any session, for any event and any answers |
| Termination.LimitUnreachable | src/main/java/com/vinekeepers/workflow/ConfigurableWorkflowRunner.java:125-127 | with at most 99 steps the limit error is unreachable from any stored session |
| Termination.NinetyNineIsExact | src/main/java/com/vinekeepers/workflow/ConfigurableWorkflowRunner.java:61-127 | a straight line of capture steps reports the limit if and only if it has 100 steps or more |
| Termination.BackwardJumpSpins | src/main/java/com/vinekeepers/workflow/steps/BranchStep.java:25-44 | one backward jump that clears nothing exhausts the limit on every event |
| BotsConfig.LunaIsWellStructured | config/bots.yaml:79-162 | every branch of luna_cursor jumps forward or re-asks a prompt it clears |
| BotsConfig.ArriettyIsWellStructured | config/bots.yaml:45-71 | every branch of arrietty_room jumps forward; no step stores into `__sessionKey` |
| BotsConfig.ShippedProgramsHalt | config/bots.yaml:45-162 | no run of either shipped program can report the step limit, and what it saves is truthful |
| BotsConfig.ArriettyAnswers | config/bots.yaml:45-71 | arrietty_room answers every event in one completed run by its trimmed, lower-cased text: status, retry, close, nothing, or the text itself |
| BotsConfig.ArriettyTexts | config/bots.yaml:62-71 | the texts of its five answers |
| LunaHistory.OneRun | config/bots.yaml:79-162 | from every session that stands between two runs: the run follows its itinerary and leaves the session ready again or completed, with repository and request taken from this event or unchanged |
| LunaHistory.RunFollowsItinerary | config/bots.yaml:79-162 | in every event history, each run executes exactly the step positions given by where the session stood and what the event said |
| LunaHistory.OneCapturePerEvent | config/bots.yaml:79-162 | no event is consumed by two capture steps |
| LunaHistory.LaunchIsConfirmed | config/bots.yaml:115-156 | launch_cursor_run executes only in a run whose own event was captured as exactly `launch`; repository and request were captured from two earlier, distinct events, in this order; a stored channel id is not the failure sentinel |
| LunaHistory.LaunchExactlyWhen | config/bots.yaml:115-156 | a run launches if and only if the session stood at the confirmation, the event said `launch`, and create_channel did not answer with its sentinel |
| LunaHistory.RoomIsTheActionsAnswer | src/main/java/com/vinekeepers/workflow/WorkflowActionRegistry.java:30-39 | what the session holds as the room is what the registered create_channel answered, nothing if it failed or is not registered |
| LunaHistory.ActionsInOrder | config/bots.yaml:126-156 | the launch step and no other calls launch_cursor_run, after the provisioning actions in order, each storing under its own key |
| LunaHistory.LaunchHappens | config/bots.yaml:79-162 | a concrete history of four events whose last run executes the launch |
| LunaHistory.ToolFailureLosesConfirmation | src/main/java/com/vinekeepers/workflow/steps/CallActionStep.java:41-50 | were create_channel a tool that throws, the session would be saved in error at step 10 and any next event would launch without a capture step executing |
| ConfirmButtons.ConfirmationIsOffered | config/bots.yaml:103-111 | in every history, whenever a session waits for its confirmation the run before has just shown exactly the four buttons |
| ConfirmButtons.OnlyTheLaunchButtonLaunches | config/bots.yaml:103-125 | at the confirmation, pressing the k-th of the buttons the previous run showed launches if and only if it is the first and the room is not refused |
| ConfirmButtons.ConfirmChoicesAreButtons | config/bots.yaml:103-111 | the four choices are shown as four buttons, in order, with their own ids |
| Isolation.DeliverMissesOthers | src/main/java/com/vinekeepers/workflow/ConfigurableWorkflowRunner.java:52-59 | a run leaves every other session as it was |
| Isolation.DeliverReadsOwn | src/main/java/com/vinekeepers/workflow/ConfigurableWorkflowRunner.java:52-59 | result and saved session depend on the store through the run's own session only |
| Isolation.StepsAreRun | src/main/java/com/vinekeepers/workflow/ConfigurableWorkflowRunner.java:52-127 | serving an event saves and answers what the run from the saved session gives; every other key holds the last write of the run's actions under it, or what it held |
| Isolation.NoStepsNoRun | src/main/java/com/vinekeepers/workflow/ConfigurableWorkflowRunner.java:48-50 | a bot without steps answers with an empty, completed reply and leaves the store alone |
| Isolation.SessionsDoNotInterfere | src/main/java/com/vinekeepers/workflow/ConfigurableWorkflowRunner.java:47-128 | in any interleaving of events of many bots and sessions, a session's final saved state and its replies equal those of its own events run alone |
| Isolation.OtherConversationsDoNotInterfere | src/main/java/com/vinekeepers/workflow/SessionKeyStrategies.java:43-50 | where users are told apart, as by default on Discord, and with colon-free bot and channel ids, an event of another conversation leaves the session untouched |
| Isolation.Serve | src/main/java/com/vinekeepers/core/VinekeepersEngine.java:143-151 | mutable runners serving a list of events over one shared store compute exactly the interleaved semantics |
| LunaAmongOthers.LaunchIsConfirmedAmongOthers | config/bots.yaml:79-162 | in any interleaving with other sessions and bots, a luna_cursor run that launches has its own event captured as exactly launch, and its repository and request were captured from two earlier, distinct events of the same session |
| LunaAmongOthers.BeginsAsAlone | src/main/java/com/vinekeepers/workflow/ConfigurableWorkflowRunner.java:52-59 | a session starts each run, after any interleaving, where its own events alone would have brought it |
| Lifecycle.LifecycleContext.WithDeliveryChannelId | src/main/java/com/vinekeepers/state/LifecycleContext.java:110-113 | the copy is a new object that differs in its delivery target only |
| Lifecycle.LifecycleContextStore.ReleaseTarget | src/main/java/com/vinekeepers/state/LifecycleContextStore.java:21-24 | the old version's target entry is dropped whoever it points to |
| Lifecycle.LifecycleContextStore.PutContext | src/main/java/com/vinekeepers/state/LifecycleContextStore.java:19-36 | primary map and three indexes after a put, with aliased context objects |
| Lifecycle.LifecycleContextStore.SetDeliveryTargetId | src/main/java/com/vinekeepers/state/LifecycleContextStore.java:69-77 | an indexable target re-puts a copy of the context; null, blank and the sentinel change nothing |
| Lifecycle.LifecycleContextStore.BindExternalRunId | src/main/java/com/vinekeepers/state/LifecycleContextStore.java:83-90 | updates the context in place and its run index, and nothing for an unknown context |
| Lifecycle.LifecycleContextStore.GetByChannelId | src/main/java/com/vinekeepers/state/LifecycleContextStore.java:42-46 | finds the stored object the channel index names, or nothing |
| Lifecycle.LifecycleContextStore.GetByDeliveryTargetId | src/main/java/com/vinekeepers/state/LifecycleContextStore.java:51-57 | a room's channel wins over a delivery target of the same id |
| Lifecycle.LifecycleContextStore.GetByExternalRunId | src/main/java/com/vinekeepers/state/LifecycleContextStore.java:59-63 | finds the stored object the run index names, or nothing |
| Lifecycle.VersionsAreStored | src/main/java/com/vinekeepers/state/LifecycleContextStore.java:38-40 | by id the store holds the last version put with the updates since |
| Lifecycle.StoreRefinesHistory | src/main/java/com/vinekeepers/state/LifecycleContextStore.java:19-95 | after any operations, channel and run lookups answer with the current version of the context the history names as the last one put under the channel, or put with or bound to the run; no index entry dangles |
| Lifecycle.BlankKeyFindsNothing | src/main/java/com/vinekeepers/state/LifecycleContextStore.java:42-63 | a null or blank key finds nothing |
| Lifecycle.PlayHistory | src/main/java/com/vinekeepers/state/LifecycleContextStore.java:19-95 | the mutable store driven through a history holds what the replay says |
| Lifecycle.TargetsAreSound | src/main/java/com/vinekeepers/state/LifecycleContextStore.java:19-36 | in every reachable store a target entry points to a context that currently has that target, non-blank and not the sentinel |
| Lifecycle.SentinelIsNeverIndexed | src/main/java/com/vinekeepers/state/LifecycleContextStore.java:32-35 | no reachable target index holds a blank target or the sentinel of a failed thread |
| Lifecycle.PutKeepsExact | src/main/java/com/vinekeepers/state/LifecycleContextStore.java:19-36 | a put keeps the target index the exact inverse of the contexts' field if and only if it brings no target another context holds |
| Lifecycle.TargetsAreExact | src/main/java/com/vinekeepers/state/LifecycleContextStore.java:19-77 | the index is exact all along a history if and only if no operation on a known context ever brings another context's target |
| Lifecycle.SharedTargetIsLost | src/main/java/com/vinekeepers/state/LifecycleContextStore.java:21-24 | when two contexts share a target and the first moves on, the second one's entry is gone although it still has the target |
| Lifecycle.TargetAndRunCommute | src/main/java/com/vinekeepers/state/LifecycleContextStore.java:69-90 | setting the target and binding a run commute if and only if the context's previous run is absent, the same, or still indexed to it |
| Lifecycle.TargetAndRunConflict | src/main/java/com/vinekeepers/state/LifecycleContextStore.java:69-90 | a store reached by two puts where the two orders leave a run leading to different contexts |
| Delivery.OutboundDeliveryRouter.RegisterSender | src/main/java/com/vinekeepers/connectors/OutboundDeliveryRouter.java:36-46 | registers what is present and ignores blank bot ids |
| Delivery.OutboundDeliveryRouter.GetGatewayForChannel | src/main/java/com/vinekeepers/connectors/OutboundDeliveryRouter.java:67-79 | an owned place gets its owner's gateway or none, other places the default gateway |
| Delivery.OutboundDeliveryRouter.Send | src/main/java/com/vinekeepers/connectors/OutboundDeliveryRouter.java:100-124 | at most one message leaves, through the owner's sender in an owned place, with no fallback |
| Delivery.Router.RouteEvent | src/main/java/com/vinekeepers/bot/Router.java:66-98 | the owner alone in its room when it handles owned spaces, otherwise the accepting bots without repeats |
| Delivery.DedupeKeepsFirsts | src/main/java/com/vinekeepers/bot/Router.java:100-104 | deduplication keeps every bot once |
| Delivery.DedupeKeepsOrder | src/main/java/com/vinekeepers/bot/Router.java:100-104 | the bots stay in the order of their first occurrences |
| Delivery.AcceptingAppend | src/main/java/com/vinekeepers/bot/Router.java:68-73 | each accepting rule contributes its bot, in the order of the rules |
| Delivery.OwnerAloneExactlyWhen | src/main/java/com/vinekeepers/bot/Router.java:75-90 | over any history, an owner is served alone if and only if the event is a Discord event of a room whose current context names it and it handles owned spaces |
| Delivery.RouteWithoutOwner | src/main/java/com/vinekeepers/bot/Router.java:66-104 | everywhere else a bot is served if and only if one of its rules accepts, and once |
| Delivery.DefaultsElsewhere | src/main/java/com/vinekeepers/connectors/OutboundDeliveryRouter.java:67-124 | over any history, null and blank ids and places that no context claims get exactly the default gateway and sender |
| Delivery.DefaultsWithoutOwner | src/main/java/com/vinekeepers/connectors/OutboundDeliveryRouter.java:67-124 | a place whose context names no non-blank owner gets the defaults too |
| Delivery.TargetLeadsTo | src/main/java/com/vinekeepers/state/LifecycleContextStore.java:50-57 | a target leads to a context if and only if it is that context's room or, being no room, is indexed to it |
| Delivery.OwnerOfRoom | src/main/java/com/vinekeepers/bot/Router.java:75-97 | in any store, an owned room's Discord events go to exactly the owner and messages to the room leave through the owner's sender or gateway or not at all |
| Delivery.OwnerIdentity | src/main/java/com/vinekeepers/connectors/OutboundDeliveryRouter.java:67-124 | in every reachable store, and in an owned room: its Discord events go to exactly the owner, and messages to the room or its indexed thread, or after a failed thread creation, leave through the owner's sender or gateway or not at all |
| Delivery.MonitorAddressesTarget | src/main/java/com/vinekeepers/core/cursor/CursorCloudRunMonitor.java:100-110 | monitor updates go to the thread, as plain messages, exactly when there is one that is neither blank nor the sentinel; else to the room, as replies to the message that started the run |
| Provisioning.CreateLifecycleContext | src/main/java/com/vinekeepers/workflow/actions/CreateLifecycleContextAction.java:26-50 | puts one new context under the fresh id, or answers with the reason and leaves the store alone |
| Provisioning.NewContextIsUnbound | src/main/java/com/vinekeepers/workflow/actions/CreateLifecycleContextAction.java:35-48 | the bound owner wins over the session's, no run is known, the sentinel never becomes a delivery target |
| Provisioning.NewContextTakes | src/main/java/com/vinekeepers/workflow/actions/CreateLifecycleContextAction.java:35-47 | each part of a new context comes from the non-blank binding, else from the session under its own name there, else is absent or provisioning |
| Provisioning.CreateThread | src/main/java/com/vinekeepers/workflow/actions/CreateThreadAction.java:31-61 | the thread id becomes the context's target; any failure answers with the sentinel and leaves the store alone |
| Provisioning.ThreadIsCreatedWhen | src/main/java/com/vinekeepers/workflow/actions/CreateThreadAction.java:35-52 | a thread is what the owner's, else the default, connected gateway creates in the room under the given name or Room updates; without room, gateway or connection there is none |
| Provisioning.ThreadLeadsToContext | src/main/java/com/vinekeepers/state/LifecycleContextStore.java:69-77 | once it is set as target, a created thread leads to its context and owner |
| Provisioning.ThreadStaysWithOwner | src/main/java/com/vinekeepers/workflow/actions/CreateThreadAction.java:39-47 | in an owned room the thread is created through the owner's gateway or not at all if and only if the owner has a gateway or there is no default one |
| Provisioning.ThreadLeavesOwner | src/main/java/com/vinekeepers/workflow/actions/CreateThreadAction.java:42-44 | a room whose thread is created through the default gateway although none of its messages may leave there |
| Provisioning.LaunchCursorRun | src/main/java/com/vinekeepers/workflow/actions/LaunchCursorRunAction.java:39-116 | missing dependencies, a refused or a failed launch change nothing and answer why; a launch yields one record, the listed writes, the bound run and the status active |
| Provisioning.RefusedExactlyWhen | src/main/java/com/vinekeepers/workflow/actions/LaunchCursorRunAction.java:43-69 | a launch goes ahead if and only if repository, request and session are there and the repository is known; otherwise the first missing one is named |
| Provisioning.RepositoryIsKnownWhen | src/main/java/com/vinekeepers/workflow/actions/LaunchCursorRunAction.java:170-176 | GitHub addresses and owner/name paths are known, anything else is not |
| Provisioning.LaunchedRecordHolds | src/main/java/com/vinekeepers/workflow/actions/LaunchCursorRunAction.java:87-101 | the record holds the launch's answer, the request's branch if none is answered, and the bound room or the event's channel |
| Provisioning.LaunchWritesThese | src/main/java/com/vinekeepers/workflow/actions/LaunchCursorRunAction.java:102-107 | a launch writes the run's record, the session's last run, and the author's last repository if there is an author |
| Provisioning.AcknowledgementNames | src/main/java/com/vinekeepers/workflow/actions/LaunchCursorRunAction.java:135-146 | the acknowledgement names repository, branch and, if there is one, the agent's address |
| Provisioning.PostTargetIsMessageTarget | src/main/java/com/vinekeepers/workflow/actions/PostChannelMessageAction.java:26-34 | posted messages choose the same target as monitor updates |
| Provisioning.ProvisioningConverges | src/main/java/com/vinekeepers/workflow/actions/LaunchCursorRunAction.java:86-112 | from any store and with fresh ids, lookups by room, by run and by thread all answer with the same active context of the bound owner and other contexts stay; the target index stays exact if it was and no target is shared |
| Provisioning.ProvisionRoom | src/main/java/com/vinekeepers/workflow/actions/LaunchCursorRunAction.java:55-112 | the three actions run in program order on the mutable store, each on what the ones before stored in the session, reach that state; the launched record addresses the room or its thread, and in the store at return every update for it leaves through the owner's sender or not at all |
| Provisioning.ProvisionedRoomSpeaksAsOwner | src/main/java/com/vinekeepers/connectors/OutboundDeliveryRouter.java:67-124 | from any store: after provisioning, whether or not the thread was created, the room's events and messages are its owner's alone |
| Ownership.DoKeepsOwner | src/main/java/com/vinekeepers/state/LifecycleContextStore.java:19-90 | in a reachable store one operation leaves a room or thread with its owner if and only if it puts no context of another owner there and re-puts no context that had it as target without it |
| Ownership.OwnedThroughout | src/main/java/com/vinekeepers/state/LifecycleContextStore.java:19-90 | over any stretch of any history a place belongs to its owner all along if and only if no operation takes it over |
| Ownership.SpeaksExactlyWhenOwned | src/main/java/com/vinekeepers/connectors/OutboundDeliveryRouter.java:100-124 | under every table of senders all updates of a run leave as the owner if and only if the run's place belongs to it |
| Ownership.RunSpeaksThroughout | src/main/java/com/vinekeepers/core/cursor/CursorCloudRunMonitor.java:100-110 | from its provisioning on, a run's updates leave as the owner at every later moment if and only if no later operation takes its place over |
| Ownership.OtherRoomsMissPlace | src/main/java/com/vinekeepers/workflow/actions/CreateLifecycleContextAction.java:41-49 | provisioning any number of other rooms with fresh ids changes nothing about what a place leads to |
| Ownership.RoomIsTakenOver | src/main/java/com/vinekeepers/state/LifecycleContextStore.java:26-28 | putting another context under a room's channel hands the room to that context's owner |
| RunMonitor.LifecycleRunRecord.ApplyAgentDetails | src/main/java/com/vinekeepers/core/cursor/LifecycleRunRecord.java:139-150 | null details change nothing; completion time is set at the first terminal status only |
| RunMonitor.CursorCloudRunMonitor.SendUpdate | src/main/java/com/vinekeepers/core/cursor/CursorCloudRunMonitor.java:100-110 | without a sender nothing is sent; no update is ever suppressed as blank |
| RunMonitor.CursorCloudRunMonitor.PollRun | src/main/java/com/vinekeepers/core/cursor/CursorCloudRunMonitor.java:71-98 | one poll of the mutable record, including a remote failure half way, is the functional poll |
| RunMonitor.CursorCloudRunMonitor.Tick | src/main/java/com/vinekeepers/core/cursor/CursorCloudRunMonitor.java:57-69 | one tick over all records in any key order: closed records are skipped, a failure ends the tick |
| RunMonitor.RenderIsNotBlank | src/main/java/com/vinekeepers/core/cursor/CursorCloudRunMonitor.java:112-145 | no message text is blank |
| RunMonitor.LatestAssistantIsLast | src/main/java/com/vinekeepers/core/cursor/CursorAgentConversation.java:19-24 | the latest assistant message is m if and only if m stands at some position, is from the assistant, and no later one is; there is none if and only if no message is from the assistant |
| RunMonitor.TerminalExactlyWhen | src/main/java/com/vinekeepers/core/cursor/LifecycleRunRecord.java:169-176 | an ASCII status is terminal if and only if it reads finished, error or expired in any mixture of cases |
| RunMonitor.MessagesSay | src/main/java/com/vinekeepers/core/cursor/CursorCloudRunMonitor.java:79-92 | the texts of status, pull request and feedback messages |
| RunMonitor.EndsSay | src/main/java/com/vinekeepers/core/cursor/CursorCloudRunMonitor.java:126-145 | the texts of final messages: a finished run shows pull request and summary, another one its summary, else the last feedback |
| RunMonitor.PollStampsTime | src/main/java/com/vinekeepers/core/cursor/LifecycleRunRecord.java:139-159 | a record carries the time of the last poll that learned something; a failed agent call leaves it as it was |
| RunProtocol.PollShape | src/main/java/com/vinekeepers/core/cursor/CursorCloudRunMonitor.java:71-98 | a poll sends its terminal message last, and exactly when it leaves the record closed |
| RunProtocol.MessagesAreCurrent | src/main/java/com/vinekeepers/core/cursor/CursorCloudRunMonitor.java:79-97 | every message carries what the remote side answered in that very poll |
| RunProtocol.MessagesAreOrdered | src/main/java/com/vinekeepers/core/cursor/CursorCloudRunMonitor.java:79-97 | a poll sends status, pull request, feedback and end in this order, each at most once |
| RunProtocol.CompletedAtIsFirstSeen | src/main/java/com/vinekeepers/core/cursor/LifecycleRunRecord.java:147-149 | the completion time is that of the poll which first sees a terminal status |
| RunProtocol.TerminalPollCloses | src/main/java/com/vinekeepers/core/cursor/CursorCloudRunMonitor.java:94-97 | a poll with a terminal status and a fetched conversation leaves the notification sent |
| RunProtocol.TerminalProtocol | src/main/java/com/vinekeepers/core/cursor/CursorCloudRunMonitor.java:57-98 | over any visits: sent implies terminal, a terminal message is the last one and closes the record |
| RunProtocol.MarkedMeansSent | src/main/java/com/vinekeepers/core/cursor/CursorCloudRunMonitor.java:94-97 | over any visits with a sender, a record is marked as announced if and only if its terminal message has been sent |
| RunProtocol.ClosingVisitDecides | src/main/java/com/vinekeepers/core/cursor/CursorCloudRunMonitor.java:94-103 | whether the end of a run is ever announced is decided by whether a sender is set at the visit that closes the record |
| RunProtocol.AnnouncedExactlyWhen | src/main/java/com/vinekeepers/core/cursor/CursorCloudRunMonitor.java:94-103 | over any visits a terminal message is sent if and only if some visit closes the record while a sender is set |
| RunProtocol.SilentEnd | src/main/java/com/vinekeepers/core/cursor/CursorCloudRunMonitor.java:94-103 | a run that ends while no sender is set is marked as announced and nothing is sent |
| RunProtocol.NothingAfterTerminal | src/main/java/com/vinekeepers/core/cursor/CursorCloudRunMonitor.java:64-66 | after the terminal message nothing is sent and the record is frozen, whatever the remote side answers |
| RunProtocol.CompletedAtWrittenOnce | src/main/java/com/vinekeepers/core/cursor/LifecycleRunRecord.java:147-149 | the completion time is written at most once over any visits |
| RunProtocol.StatusLog | src/main/java/com/vinekeepers/core/cursor/CursorCloudRunMonitor.java:79-81 | announced statuses are the polled statuses without consecutive repeats, starting from the launch status |
| RunProtocol.PullRequestLog | src/main/java/com/vinekeepers/core/cursor/CursorCloudRunMonitor.java:82-84 | pull request messages are exactly the changes to a present URL |
| RunProtocol.FeedbackLog | src/main/java/com/vinekeepers/core/cursor/CursorCloudRunMonitor.java:86-92 | relayed feedback ids are the latest assistant messages' ids without consecutive repeats |
| RunProtocol.RunsAreLives | src/main/java/com/vinekeepers/core/cursor/CursorCloudRunMonitor.java:57-69 | any sequence of launches and ticks is, for each run, a sequence of visits to its launched record: records and messages of different runs never mix |
| RunProtocol.PlayRuns | src/main/java/com/vinekeepers/core/cursor/CursorCloudRunMonitor.java:57-69 | the mutable records and monitor driven through launches and ticks hold and send exactly what the history says |
| RunProtocol.MonitorTerminalProtocol | src/main/java/com/vinekeepers/core/cursor/CursorCloudRunMonitor.java:57-98 | over any launches and ticks each run gets at most one terminal message and nothing afterwards; it gets one if and only if a sender is set when its record is closed |
| RunProtocol.MonitorLogs | src/main/java/com/vinekeepers/core/cursor/CursorCloudRunMonitor.java:71-92 | with a sender set since its launch, a run's announced statuses, pull requests and feedback ids are what its own visits answered without consecutive repeats, whatever other runs do |
| RunProtocol.TickThrowsExactly | src/main/java/com/vinekeepers/core/cursor/CursorCloudRunMonitor.java:57-98 | a tick fails if and only if one of its keys is an open run whose remote side fails, in whatever order and with whatever repetitions the keys come |
| RunProtocol.TickClosesExactlyWhen | src/main/java/com/vinekeepers/core/cursor/CursorCloudRunMonitor.java:57-98 | a tick closes an open run that is reported as terminal if and only if it gets to the run before any failing one |
| RunProtocol.FailingRunStarvesOthers | src/main/java/com/vinekeepers/core/cursor/CursorCloudRunMonitor.java:49-69 | a run that always comes first and always fails keeps every record and the log as they are for any number of ticks |
| RunProtocol.FinishedRunIsNeverAnnounced | src/main/java/com/vinekeepers/core/cursor/CursorCloudRunMonitor.java:49-69 | two launched runs, the first unreachable and the second finished: the second stays open and unannounced after any number of ticks |
| RunProtocol.ReportedRunIsClosed | src/main/java/com/vinekeepers/core/cursor/CursorCloudRunMonitor.java:57-98 | after any launches and ticks, one tick with a terminal report leaves the run closed if and only if it was or the tick gets to it before a failing run; closed is then announced when a sender has been set since the launch |
| ChannelName.NormalizedIsNormal | src/main/java/com/vinekeepers/workflow/actions/CreateChannelAction.java:104-116 | every output has 1 to 100 characters from a-z, 0-9, `_`, `-`, no double hyphen and no leading hyphen |
| ChannelName.TrimIsRedundant | src/main/java/com/vinekeepers/workflow/actions/CreateChannelAction.java:106-110 | leaving out the initial trim changes no result |
| ChannelName.NormalizeAgain | src/main/java/com/vinekeepers/workflow/actions/CreateChannelAction.java:104-116 | three applications equal two; two equal one if and only if the first result does not end in a hyphen |
| ChannelName.HyphenComesFromTruncation | src/main/java/com/vinekeepers/workflow/actions/CreateChannelAction.java:112-114 | a result ends in a hyphen if and only if the cleaned name is longer than 100 and has a hyphen at position 100 |
| ChannelName.TruncationExposesHyphen | src/main/java/com/vinekeepers/workflow/actions/CreateChannelAction.java:112-114 | such a name exists |
| ChannelName.WordsAreJoined | src/main/java/com/vinekeepers/workflow/actions/CreateChannelAction.java:106-110 | words of letters, digits and underscores stay, in lower case, and whatever stands between two of them becomes one hyphen |
| ChannelName.WordIsItsName | src/main/java/com/vinekeepers/workflow/actions/CreateChannelAction.java:104-116 | a word becomes its lower-case form, cut at 100 characters |
| ChannelName.NoWordNoName | src/main/java/com/vinekeepers/workflow/actions/CreateChannelAction.java:105-111 | null, and any text without a word, becomes the fallback name |
| ChannelName.SegmentIsTheRepository | src/main/java/com/vinekeepers/workflow/actions/CreateChannelAction.java:145-164 | a path, or an address with or without a query, gives the repository's own name in lower case |
| ChannelName.OtherProjectsAreCleaned | src/main/java/com/vinekeepers/workflow/actions/CreateChannelAction.java:145-164 | a project that is neither, or an address ending in a slash, is cleaned as a whole |
| ChannelName.PathIsTwoNames | src/main/java/com/vinekeepers/workflow/actions/CreateChannelAction.java:153 | a path is exactly two non-empty names around one slash |
| ChannelName.SlugJoinsWords | src/main/java/com/vinekeepers/workflow/actions/CreateChannelAction.java:166-173 | two words of a request become both, joined by one hyphen and cut at 32 characters |
| ChannelName.BuiltNameSpelled | src/main/java/com/vinekeepers/workflow/actions/CreateChannelAction.java:122-139 | for a plain repository and request the built name is repository, request and suffix, cut at 100 characters |
| ChannelName.BuiltIsNormal | src/main/java/com/vinekeepers/workflow/actions/CreateChannelAction.java:122-139 | names built from any repository and request are valid |
| ChannelName.SuffixSurvives | src/main/java/com/vinekeepers/workflow/actions/CreateChannelAction.java:127-137 | the distinguishing suffix ends the cleaned name, which is then only cut at 100 characters |
| ChannelName.BuiltNameEndsWithSuffix | src/main/java/com/vinekeepers/workflow/actions/CreateChannelAction.java:122-139 | a built name ends in its suffix whenever repository, request and suffix have at most 98 characters together |
| Choices.IntentToComponents | src/main/java/com/vinekeepers/connectors/DiscordAppReplySink.java:186-221 | the rendering loops compute buttons for up to five short choices and one menu of the first 25 otherwise |
| Choices.ToJdaActionRows | src/main/java/com/vinekeepers/connectors/JdaDiscordGateway.java:245-283 | the building loops truncate captions and values, cap options at 25 and drop empty menus and rows |
| Choices.ChoicesAreShownInOrder | src/main/java/com/vinekeepers/connectors/DiscordAppReplySink.java:186-209 | after rendering and building, the user sees all choices as buttons, or exactly the first 25 in one menu, in the given order |
| Choices.ShownWithinLimits | src/main/java/com/vinekeepers/connectors/JdaDiscordGateway.java:245-283 | one row of at most 5 buttons or one menu of 1 to 25 options, captions within 80 and 100 characters, values within 100 |
| Choices.ChoicesShowTheirLabels | src/main/java/com/vinekeepers/connectors/DiscordAppReplySink.java:186-209 | buttons if and only if there are at most five choices with labels of at most 80 characters; each shows its label, or its id without one, cut to 80 or 100 characters |
| Choices.ConfirmationShowsTwoButtons | src/main/java/com/vinekeepers/connectors/DiscordAppReplySink.java:210-219 | a confirmation shows two buttons with the given or standard labels |
| Choices.ReadInteraction | src/main/java/com/vinekeepers/workflow/steps/CaptureFieldFromEventStep.java:40-53 | selected values, joined in order, win over the component id, for both payload shapes |
| Choices.ChoiceRoundTrip | src/main/java/com/vinekeepers/bot/NormalizedEventContext.java:89-105 | picking the i-th thing shown makes the capture step store exactly the i-th choice's id: always for a button with a non-blank id, for a menu option if and only if the id has at most 100 characters |
| Choices.LongMenuIdIsCut | src/main/java/com/vinekeepers/connectors/JdaDiscordGateway.java:245-283 | in a menu of six choices an id of 101 characters comes back as another text |
| TinySegmenter.Segment | site/assets/javascripts/lunr/tinyseg.js:108-201 | the sliding-window loop with its three fed-back decisions computes the segments of the specification; no input gives no segments |
| TinySegmenter.SegmentsPartition | site/assets/javascripts/lunr/tinyseg.js:108-201 | segments are non-empty and concatenate to exactly the input |
| TinySegmenter.CutsAreDecisions | site/assets/javascripts/lunr/tinyseg.js:187-197 | a word starts at an inner position if and only if the score there is positive |
| TinySegmenter.WindowLooksAt | site/assets/javascripts/lunr/tinyseg.js:112-143 | each decision looks at the three decisions before it in their order, and at the six units around it with their classes, markers standing beyond both ends |
| TinySegmenter.PrefixStability | site/assets/javascripts/lunr/tinyseg.js:126-198 | inputs agreeing on k characters have the same decisions up to position k-3 and the same words finished by then, although each decision feeds back the previous three |
| TinySegmenter.LookaheadIsTight | site/assets/javascripts/lunr/tinyseg.js:130-143 | the decision at k-2 can already differ |

## Left out

- Building steps from YAML maps (default prompts, keys and messages, unknown step types): programs are given as typed steps.
- Steps that change the session themselves: the interface would allow it, no shipped step does; a custom step here only answers.
- The reasoner that may patch session data between runs, audit records and reply delivery of the engine.
- The engine's extension of the routed bot list for waiting sessions: the router may return an immutable list there.
- Choice providers reading the last repository of an author from the shared store: their choices are inputs of the run, so isolation speaks about a session's state and replies given those choices.
- Session objects' update times, record fields that never change what is sent (project, repository, base branch, launch time), context creation through convenience constructors.
- Real threads: operations on the concurrent maps are sequential here.
- Routing filters (mention patterns, author lists, labels) and Unicode lower-casing: arbitrary functions.
- Discord connections, deferral, permission overrides and guild lookup of create_channel, HTTP and YAML parsing, health server, scripts: input and output.
- Instruction text and branch name of a launch, environment settings: the branch name is a parameter.
- UTF-16: a character here is a Unicode scalar value, so length limits count scalar values.
- The weight tables and character classes of the segmenter: one arbitrary score function over the whole window.
- Component maps with missing keys and the component library's own checks: components are typed.
- RunProtocol.RunsAreLives: takes run ids to be launched once, as the remote service gives fresh ids; a second launch under one id would replace the record.
- RunProtocol.StatusLog: needs a reply sender to be set throughout; without one the record moves on and nothing is announced.
- ChannelName.SuffixSurvives: does not claim distinct names once the cleaned name exceeds 100 characters, because the cut removes the suffix.
- Isolation.SessionsDoNotInterfere: takes the answers of actions as inputs of each event, so two sessions meeting inside one external service are outside the model.
