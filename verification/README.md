# The approval-gated workflow engine, modelled and verified

The agent runs one user message as a workflow: it plans, proposes a tool call, infers the call's effects,
lets a policy decide between executing, asking and denying, pauses for an approval where one is needed,
executes, and plans again until it answers or its budget is spent. The run is persisted step by step, so it
survives pauses and restarts. This project models that engine and proves what a user of it relies on:
that no approval is ever used twice, that nothing runs without a decision or an approval, that a pause can be
resumed by another process with the same result, that the step log has a known shape and length, that the
budget holds, and what exactly the policy decides.

How the files fit together:

* `Base`, `Json`, `Types` hold the vocabulary: optional values, strings, dynamically typed maps with their
  JSON copy and hash, and the records that are passed around.
* `Approvals`, `Policy`, `EffectInference`, `Planner`, `RunStates`, `StateStore`, `Evals` and `EvalReports` follow the
  program file by file. Objects that change are classes (`ApprovalCenter`, `PolicyEngine`,
  `InMemoryRunStateStore`, `PersistentRunStateStore`); loops are loops, proved against specification
  functions, about which the lemmas then speak.
* `Machine` specifies the runtime and the router as functions on a `World`: the durable snapshot, the durable
  step log, the volatile approval store and the trace of everything observable. Planner, chat model,
  executors, inferrer, context builder, message store, the success of each write and the death of the process are
  oracles that may answer differently at every tick. A crash stops the process at its tick, and nothing more happens
  until a restart, which empties the approval store; the calls after it go on from what is stored, and may crash
  again. A write to the store may be kept and still be reported as failed. A write to the run log that fails leaves
  no event, and nobody is told: the trace has it as lost.
* `AgentRuntime` is the runtime and the router as the program has them: objects whose methods update the run's
  state, the stores and the event log in place, with the loop of continueWorkflow. Each method is proved to do
  what the function in `Machine` says, so every theorem about sessions is a theorem about them (`Runtime.Serve`).
* `History` reads a trace, `Projections` counts in it, `RunLog` is the language of step logs.
* `Safety` is one invariant kept by every effect under arbitrary crashes, restarts and lost writes, and `CrashSafety`
  its consequences. `EventLog` is a ledger of decisions, approvals, executions and planner calls kept under the
  same conditions, `PauseRecords` shows that the step log only grows and that every stored pause can be resumed,
  `Finality` what a stored pause is still good for and that a stored verdict is never acted on by another call, and
  `EndToEnd` composes the ledger with the inferrer and the policy.
* `Conformance` is the invariant without crashes and lost writes (to the store or to the run log); `Lifecycle`
  and `Outcomes` are its consequences. `RestartTransparency` is a simulation between two runs. `DefaultBudget` composes the planner's
  ranking with the machine, `InferencePolicy` inference with policy, `Routing` compares the router's entry
  points, `CancelDurability` says how far a cancellation reaches, and `Lookup` finds the run of an approval.
* `Interleaving` is a small-step machine for concurrent callers, and `SoloCallers` shows that each of its callers,
  left alone, does what the call in `Machine` does.
* `Evals` runs and judges one evaluation case, `EvalReports` a set of them, with the report.
* `Witnesses` builds concrete sessions in which the exceptions below really happen, the bounds are reached, and
  processes die and are followed by others.

Where the code does not meet an expectation a reader might have, the project keeps the code and proves the exact
condition, with an input at which it fails: `CancelDurability.CancelIsDurableExactly` (a cancellation whose last,
unchecked save is lost does not survive a restart although it reported success; `Witnesses.CancelledYetExecuted`),
`CancelDurability.CancelHoldsInProcessExactly` (nor does such a cancellation bind the process that made it, when that
process never had the approval in its store; `Witnesses.CancelledInProcess`),
`RestartTransparency.RestartIsTransparentExactly` (a verdict that reached only the volatile store is forgotten by a
restart; `Witnesses.PauseForgotten`), `Finality.PauseRunsExactly` (a run stored as paused executes nothing when it is
approved if a verdict is already recorded, as it is when the process died between storing the verdict and executing;
`Witnesses.ApprovedNeverExecuted`), `Interleaving.AtMostOnceExactly` (two callers that both rebuild an approval from
the log can execute it twice; `Interleaving.Race`), `Routing.ReadOnlyAgreesExactly` (ExecuteReadOnly never reads
whether the decision allows anything; `Witnesses.DeniedYetExecuted`), `Policy.DenialOrderFreeExactly` (an unknown
effect can hide a denial behind it; `InferencePolicy.OfflineDenialDependsOnOrder`), `EventLog.EventsNameTheCreated`
(an approval whose announcement is lost to a failed write or a crash is named by no event;
`Witnesses.ApprovalUnnamed`), and `RunLog.MissingEdges` (failures, refusals and cancellations follow edges the
documented graph does not have; a failure after a summary happens to follow one it has).

## Model

| member | source | states |
|---|---|---|
| CrashSafety.AtMostOnce | internal/agent/runtime.go:232-264 | in every session with any crashes, restarts and lost writes, also writes that are kept and reported as failed, each approval reaches the executor at most once |
| CrashSafety.VerdictIsUnique | internal/agent/runtime.go:166-264 | the durable log never holds two verdicts on one approval, and an approval that was executed is there as approved |
| Finality.VerdictIsFinal | internal/agent/runtime.go:232-264 | once the durable log holds a verdict on an approval, no later calls execute it, by this process or after any crashes and restarts: only the very call that approved it ever does |
| Finality.PauseRunsExactly | internal/agent/runtime.go:232-289 | whatever crashes, restarts and lost writes led to a stored pause, approving it in a process that now lives executes the call once more if and only if neither log nor store holds a verdict and both writes of the new one are reported as done; and then it had never been executed before |
| CrashSafety.EveryExecutionIsMediated | internal/tools/router.go:61-166 | every execution follows a decision that let this very call run with the input decided on, or the creation and approval of a record for it, and then runs that record's stored snapshot, plain JSON whose hash verifies |
| CrashSafety.EveryStartIsMediated | internal/tools/router.go:184-199 | every tool.started event in the run log is preceded by such a decision or such an approval for the same call |
| CrashSafety.EveryApprovalWasAsked | internal/tools/router.go:85-115 | an approval is created only for a call whose last policy decision asked for it, and stores the normalized input that was decided on |
| EndToEnd.ShellNeverRunsFree | internal/agent/effect_inference.go:701-815 | in every session, under every configuration and every profile a proposal may name, whatever skills and servers are registered when, with any crashes, no shell command runs without an approval |
| EndToEnd.FreeRunsOnlyRead | internal/agent/effect_inference.go:45-433 | apart from MCP tools and skills, whatever a session runs without an approval only reads: all its inferred effects are reading effects and none is sensitive |
| EndToEnd.FreeRunsAreClear | internal/agent/policy.go:24-95 | whatever a session runs without an approval was inferred to need none, with enough confidence for the profile in force, which neither denies nor asks for any of its effects |
| EventLog.EveryFreeRunIsDecided | internal/tools/router.go:61-143 | every execution without an approval is of a proposal with exactly that input, for which the policy decides to execute on something the inferrer said of it |
| EventLog.EveryDecisionIsThePolicys | internal/tools/router.go:61-83 | every answer of the policy, and every policy.decided event in the run log, is what the policy decides about that call on something the inferrer said of it |
| EventLog.EventsNameTheCreated | internal/tools/router.go:85-105 | in every session approvalsFromEvents names, in order and each once, exactly the approvals whose announcement was swallowed neither by a crash right after the creation nor by a failed write to the run log; so all of them if and only if that befell none |
| EventLog.ExecutorsNeverOutrunPlanner | internal/agent/runtime.go:358-441 | with any crashes and lost writes, executor calls never exceed planner calls |
| PauseRecords.LogOnlyGrows | internal/agent/runtime.go:702-729 | no step once stored is changed or lost by any later calls of this or another process, wherever processes die and whichever writes fail |
| PauseRecords.PausedHasRecord | internal/agent/runtime.go:525-578 | with any crashes and lost writes, a stored pause has its approval's record in the durable log, of this run, with a verifying hash, and pending unless the log also holds the verdict |
| PauseRecords.EveryPauseRestarts | internal/agent/runtime.go:140-308 | every stored pause of every session is resumed by a new process exactly as by the old one, unless the old one had settled the approval behind the log's back |
| Lookup.FindRun | internal/agent/runtime.go:115-138 | the run an approval belongs to; a run that waits for it is missed only if a hundred other paused runs are at least as recent |
| Safety.SessionKeeps | internal/agent/runtime.go:140-346 | the invariant relating trace, step log, approval store and state holds at the end of every session, wherever processes died and were followed by others |
| Safety.LatestSound | internal/agent/runtime.go:866-874 | the last listed record of an approval is a genuine one of this run, and is pending only if the log holds no verdict |
| Safety.LogGrows | internal/agent/runtime.go:702-729 | a new step leaves every pending copy of an approval before every verdict on it |
| RestartTransparency.RestartIsTransparentExactly | internal/agent/runtime.go:854-876 | from every reachable paused state, resuming after losing the approval store gives the same outcome, state, steps, executions, inputs, planner calls and events as resuming without, if and only if the store had not settled the approval behind the log's back |
| RestartTransparency.RestartIsTransparent | internal/agent/runtime.go:140-308 | without crashes and lost writes every pause of every session can be resumed by a new process with the same result |
| RestartTransparency.LogMatchesStore | internal/agent/workflow_state.go:590-592 | the record in the log equals the record in the approval store while neither is resolved, and both verify |
| RestartTransparency.ContinueTwin | internal/agent/runtime.go:358-625 | the planning loop never reads the approval store: two worlds that differ only there do the same |
| CancelDurability.CancelIsDurableExactly | internal/agent/runtime.go:326-356 | a cancelled paused run is safe from a later approval by a new process if and only if the cancellation's last save succeeded; otherwise it executes once |
| CancelDurability.CancelHoldsInProcessExactly | internal/agent/runtime.go:335-339 | in the process that cancelled, the approval is safe from a later approval if and only if that save succeeded or its store held the approval; otherwise it executes once |
| CancelDurability.UpsertSilent | internal/agent/workflow_state.go:212-235 | a step that carries no approval does not change the last record the log has of any approval |
| Interleaving.AtMostOneVerdict | internal/agent/approval.go:210-232 | for any number of callers approving, rejecting and cancelling in any interleaving with any writes failing or only reported as failed, at most one resolution succeeds, and the executor runs at most once and only for the caller whose approval succeeded |
| Interleaving.AtMostOnceExactly | internal/agent/runtime.go:854-876 | two approvers can never execute one approval twice if and only if it is in the approval store when they start |
| Interleaving.Race | internal/agent/approval.go:200-208 | when both have to rebuild the approval from the log, there is a schedule that executes it twice |
| SoloCallers.CancelAlone | internal/agent/runtime.go:326-356 | a canceller nobody interrupts leaves the store and the run's status exactly as CancelRun does, whichever writes fail or are only reported as failed, and wins the approval exactly when it was pending |
| SoloCallers.RejectAlone | internal/agent/runtime.go:166-230 | the same for a rejecter, also when it has to rebuild the approval from the log |
| SoloCallers.ApproveAlone | internal/agent/runtime.go:232-289 | an approver nobody interrupts wins exactly when the approval was pending, settles it as the store does, and executes exactly as often as ResumeRun: once if it won and the verdict was written and reported as written, else never |
| Conformance.SessionRests | internal/agent/runtime.go:56-346 | without crashes and lost writes, state, step log and event log agree at the end of every call of every session |
| Lifecycle.StepLogIntegrity | internal/agent/runtime.go:702-742 | the stored steps are exactly 1..n in order, the state points at n, and its status is the one the log leads to |
| Lifecycle.BudgetAcrossPauses | internal/agent/runtime.go:358-441 | StepCount is the number of planner calls, never above the budget, and in paused and completed runs the number of plan steps; executor calls never exceed planner calls; the log has at most 7*MaxSteps+3 steps |
| Lifecycle.ConformsToGraph | internal/einoapp/graph.go:38-52 | the log of a paused or completed run is a walk of the documented graph from BuildContextNode, ending at the interrupt node or at PersistNode |
| Lifecycle.OnlyTheseEdgesAreMissing | internal/einoapp/graph.go:38-52 | the steps of a session that follow no documented edge are exactly failures not after a summary, refusals going to the summary, and cancellations |
| Lifecycle.PauseInvariant | internal/agent/runtime.go:525-578 | a stored status of paused means a last step that asks for exactly the approval the state names, pending, of this run and tool, with a verifying hash, and an approval store that agrees or knows nothing |
| Lifecycle.ProjectionsAgree | internal/evals/replay.go:182-200 | toolsFromEvents and approvalsFromEvents give exactly the tools proposed and the approvals created, each once and in order, and the step log agrees |
| Lifecycle.CreatedOnce | internal/agent/approval.go:32-60 | no approval id is created twice |
| Lifecycle.TerminalIsAbsorbing | internal/agent/runtime.go:148-155 | completed, failed and cancelled runs are not changed, planned for or executed by any further calls |
| Lifecycle.RejectedAbsorbsResume | internal/agent/runtime.go:151-155 | a rejected run cannot be resumed |
| Outcomes.ApprovalExecutesOnce | internal/agent/runtime.go:232-289 | approving a pause of any session executes its tool exactly once, if the tool exists, and it had not been executed before |
| Outcomes.RejectionRunsNothing | internal/agent/runtime.go:166-230 | rejecting a pause executes and plans nothing; the run ends rejected, or failed when the closing message cannot be stored, as the call reports |
| Outcomes.CancellationIsFinal | internal/agent/runtime.go:326-356 | after a cancellation no further calls change the status, plan or execute anything |
| Outcomes.CancelStatus | internal/agent/runtime.go:326-346 | every run but a completed, failed or cancelled one can be cancelled, a rejected one too |
| RunLog.LengthBound | internal/agent/runtime.go:358-625 | every log has at most seven steps for every plan and at most three more, with the exact slack of every phase |
| RunLog.BoundIsReached | internal/agent/runtime.go:358-625 | for every budget the language of logs has one of exactly 7p+3 steps |
| RunLog.GraphConformance | internal/einoapp/graph.go:38-52 | every log under way, paused or completed walks the documented graph and ends at its last step's node |
| RunLog.MissingEdges | internal/einoapp/graph.go:38-52 | which consecutive steps of an arbitrary log are not an edge of the graph |
| DefaultBudget.DefaultBudgetSuffices | internal/agent/runtime.go:847-852 | with the program's planner no session ever fails for exceeding a budget of six or more, with any crashes and lost writes, nor counts more than six planner calls |
| DefaultBudget.AtMostSixPlannerCalls | internal/agent/hybrid_planner.go:43-63 | without crashes and lost writes the planner is really called at most six times |
| DefaultBudget.TurnoverInBudget | internal/agent/runtime.go:358-441 | one pass of the loop keeps the calls that can still follow within the budget |
| Planner.RankFalls | internal/agent/planner.go:80-215 | whatever the user wrote and the tool returned, the next tool is strictly lower in the ranking, or there is none |
| Planner.RankIsTight | internal/agent/planner.go:80-213 | one message and suitable results lead from every rank, a runbook plan's included, to the next lower one |
| Witnesses.FiveCallsAreTooFew | internal/agent/planner.go:80-215 | with this program's planner and a budget of five, a session in which nothing goes wrong fails for exceeding it |
| Witnesses.SomeLogIsFull | internal/agent/runtime.go:358-625 | for every budget some session in which nothing goes wrong ends with exactly 7*MaxSteps+3 steps |
| Witnesses.CancelledYetExecuted | internal/agent/runtime.go:326-356 | a session that pauses, is cancelled with success reported, loses the cancellation's last save, restarts, and executes the call |
| Witnesses.CancelledInProcess | internal/agent/runtime.go:326-356 | a session that pauses, restarts, is cancelled with success reported, loses the cancellation's last save, and executes the call in that same process |
| Witnesses.PauseSurvivesCrash | internal/agent/runtime.go:140-308 | a session whose process dies right after the pause is stored: the next process finds the approval in the log and executes the call once |
| Witnesses.ApprovedNeverExecuted | internal/agent/runtime.go:232-264 | a session whose process dies after the approved step is stored and before the execution: still stored as paused, and executed by no later calls whatsoever |
| Witnesses.PauseForgotten | internal/agent/runtime.go:232-264 | a session whose approval reached the store but neither the log nor the state: still paused, and resumed differently by a new process |
| Witnesses.ApprovalUnnamed | internal/tools/router.go:85-105 | a session in which an approval is created and waited for, and no event of the run log names it |
| Witnesses.DeniedYetExecuted | internal/tools/router.go:168-182 | under the offline profile a call that is denied when proposed and executed by ExecuteReadOnly |
| Policy.DecideExactly | internal/agent/policy.go:24-95 | with k the first denied or unknown effect: denied exactly when k is denied, otherwise asking exactly under the six listed conditions; never both; and the traced name is the branch taken |
| Policy.AutoExecutesExactly | internal/agent/policy.go:24-95 | executing without approval takes every condition at once |
| Policy.AutoExecutesIsOrderFree | internal/agent/policy.go:47-69 | it does not depend on the order of the effects |
| Policy.AutoExecutesIsMonotone | internal/agent/policy.go:47-69 | it can only turn false when effects or patterns are added, confidence drops or the threshold rises |
| Policy.DenialOrderFreeExactly | internal/agent/policy.go:47-58 | denial does not depend on the order exactly when no unknown effect stands beside a denied one, or nothing is denied |
| Policy.OrderDecides | internal/agent/policy.go:47-58 | with both present the order decides between denying and asking |
| Policy.PolicyEngine.DecideProposal | internal/agent/policy.go:24-95 | the engine's method decides as specified |
| Policy.PolicyEngine.Walk | internal/agent/policy.go:47-64 | the loop over the effects with its two early exits |
| Policy.NormalizePolicy | internal/config/config.go:380-406 | the configuration is filled in as specified, whatever order the map yields |
| Policy.NormalizedIsFixed | internal/config/config.go:380-406 | normalizing is idempotent and leaves no profile without a positive threshold, nor without a name except one stored under the empty key |
| Routing.ReadOnlyAgreesExactly | internal/tools/router.go:168-182 | ExecuteReadOnly and Propose, called for the same proposal at any two points at which the inferrer says the same and both or neither call is survived, agree on executing exactly when the call was out of reach or the decision is no denial |
| Routing.ProposeReaches | internal/tools/router.go:32-143 | Propose calls the executor exactly once when the inferrer answers, the decision executes automatically, the tool exists and the process lives through the six effects until then, and otherwise not |
| Routing.ExecuteApprovedReaches | internal/tools/router.go:148-166 | ExecuteApproved calls the executor exactly when the record is approved, its hash verifies, the tool exists and the process lives that long |
| EffectInference.InferOps | internal/agent/effect_inference.go:230-327 | an ops call asks for approval or is known with confidence only to read |
| EffectInference.InferRunbook | internal/agent/effect_inference.go:329-354 | the same for runbook calls |
| EffectInference.InferCodeTest | internal/agent/effect_inference.go:366-433 | the same for test commands, however the command parses |
| EffectInference.InferCode | internal/agent/effect_inference.go:45-228 | the same for code tools |
| EffectInference.InferGit | internal/agent/effect_inference.go:141-170 | the same for git tools |
| EffectInference.InferKnowledge | internal/agent/effect_inference.go:65-102 | the same for knowledge and memory tools |
| EffectInference.InstallLoop | internal/agent/effect_inference.go:524-545 | the loop finds an installing or mutating word exactly when there is one in the position that counts |
| EffectInference.UniqLoop | internal/agent/effect_inference.go:929-943 | the loop keeps first occurrences and drops the empty string |
| EffectInference.UniqMembers | internal/agent/effect_inference.go:929-943 | nothing but the empty string is lost, and nothing is repeated |
| EffectInference.InferShell | internal/agent/effect_inference.go:701-815 | the accumulation over redirects, targets, command and expected effects |
| EffectInference.InferMcp | internal/agent/effect_inference.go:552-615 | the loop over an MCP tool's effects, and the error of the registry |
| EffectInference.InferSkill | internal/agent/effect_inference.go:617-699 | the loop over a skill's effects and the manifest's last word |
| InferencePolicy.AutoExecutesWhenInferred | internal/agent/effect_inference.go:45-433 | for every tool but MCP and skills, under default, developer, ops and offline, the call runs without asking exactly when inference requires no approval |
| InferencePolicy.DecidesAsInferred | internal/agent/policy.go:24-115 | with the built-in profiles, whichever is active and whichever the call names, the policy executes such a call without asking exactly when inference requires no approval and the profile in force is not the strict one |
| EndToEnd.RouterRunsAsInferred | internal/tools/router.go:32-143 | the same of the router: a proposal reaches the executor, once, exactly under these conditions, if the tool exists and the process lives that long |
| InferencePolicy.OfflineDenialDependsOnOrder | internal/config/config.go:338-376 | the offline profile denies a post to the network beside an unknown effect in one order of the two and asks in the other |
| InferencePolicy.ShellNeverAutoExecutes | internal/agent/effect_inference.go:701-815 | a shell command never runs without approval, for any command, expected effects and profile |
| InferencePolicy.StrictNeverAutoExecutes | internal/config/config.go:338-376 | the strict profile executes nothing automatically |
| InferencePolicy.ReadingIsClean | internal/config/config.go:338-376 | no built-in profile denies or asks for any effect of a reading call |
| InferencePolicy.McpApprovalExactly | internal/agent/effect_inference.go:552-615 | an MCP call needs approval exactly for the profile's flag, a "require", or some effect that is unknown, dangerous or needs approval |
| InferencePolicy.McpFoldExactly | internal/agent/effect_inference.go:588-609 | closed forms of approval, sensitivity and confidence |
| InferencePolicy.McpIsOrderFree | internal/agent/effect_inference.go:588-609 | approval, sensitivity and confidence do not depend on the order of the effects |
| InferencePolicy.McpRiskIsLast | internal/agent/effect_inference.go:588-609 | the last effect that asks sets the risk level |
| InferencePolicy.McpRiskStays | internal/agent/effect_inference.go:588-609 | when no effect asks, the loop over the effects changes nothing |
| InferencePolicy.SkillExactly | internal/agent/effect_inference.go:617-699 | when a skill needs approval, and its confidence |
| InferencePolicy.CopiesAgree | internal/agent/effect_inference.go:901-918 | the inferrer's and the policy's reading of an effect agree, but for the unknown effect |
| Approvals.NormalizationIdempotent | internal/agent/approval.go:62-81 | normalizing a normalized input changes nothing |
| Approvals.GitCommandIgnoresCaller | internal/agent/approval.go:62-106 | the stored command and args of the known git operations depend on operation, paths and message only |
| Approvals.DraftIsSound | internal/agent/approval.go:32-60 | a new record's hash verifies before and after copying, and the record matches its own proposal |
| Approvals.ResolveOnce | internal/agent/approval.go:210-232 | after a resolution every further one is refused and changes nothing |
| Approvals.ApprovalCenter.Create | internal/agent/approval.go:32-60 | the record stored and the copy returned, or nothing when the input does not encode |
| Approvals.ApprovalCenter.AllPending | internal/agent/approval.go:147-158 | each pending record once and nothing else |
| Approvals.ApprovalCenter.Resolve | internal/agent/approval.go:210-232 | compare-and-set: only a pending record changes |
| Approvals.ApprovalCenter.Hydrate | internal/agent/approval.go:200-208 | overwrites whatever is stored under the id, and refuses the empty id |
| Approvals.ApprovalCenter.VerifySnapshotHash | internal/agent/approval.go:182-197 | whether the stored snapshot still has the stored hash |
| Approvals.ApprovalCenter.SnapshotMatches | internal/agent/approval.go:170-180 | same tool and equal inputs as JSON |
| Json.CloneIdempotent | internal/core/maps.go:10-35 | the JSON copy of a copy is the copy, and copying an object keeps its hash |
| Json.HashSurvivesRounds | internal/core/maps.go:10-54 | a stored hash verifies after any number of copies, and a nil map's does not |
| RunStates.UpsertRefinesMap | internal/agent/workflow_state.go:212-235 | saving a step is an update of the map from ids to steps, listed by ascending index |
| RunStates.UpsertFresh | internal/agent/workflow_state.go:212-235 | a step with a new id joins the log and nothing else comes or goes; at the highest index it is appended |
| RunStates.StoredStateKeepsControl | internal/agent/workflow_state.go:531-570 | whatever redaction does, identity, status, counters and approval id come back exactly, and a proposal that comes back names the same tool |
| RunStates.StoredApprovalIsExact | internal/agent/workflow_state.go:590-592 | a step's approval comes back exactly |
| StateStore.InMemoryRunStateStore.ListByStatus | internal/agent/workflow_state.go:183-209 | the limit most recently updated matching runs, newest first, each once |
| StateStore.InMemoryRunStateStore.SaveStep | internal/agent/workflow_state.go:212-235 | the upsert loop and the sort refine the map update |
| StateStore.InMemoryRunStateStore.Replace | internal/agent/workflow_state.go:220-231 | the loop overwrites the first step with the same id, or appends |
| StateStore.InMemoryRunStateStore.ListSteps | internal/agent/workflow_state.go:238-253 | copies of the steps in index order |
| StateStore.PersistentRunStateStore.Save | internal/agent/workflow_state.go:268-273 | afterwards the run reads back as its redacted form and no other run changed |
| StateStore.PersistentRunStateStore.SaveStep | internal/agent/workflow_state.go:316-321 | afterwards the log is the upsert of the redacted step and no other log changed |
| StateStore.RunRecordRoundTrip | internal/agent/workflow_state.go:531-570 | reading the record of a state gives its durable form |
| StateStore.RoundTripSettles | internal/agent/workflow_state.go:531-570 | for a redaction that is done with its own output, a second round trip changes nothing |
| AgentRuntime.Runtime.Serve | internal/agent/runtime.go:56-346 | a whole session on the objects is the session of the specification, and executes no approval twice |
| AgentRuntime.Runtime.Run | internal/agent/runtime.go:56-112 | the run's first call |
| AgentRuntime.Runtime.ResumeRun | internal/agent/runtime.go:140-308 | a resumption, up to the answer or the next pause |
| AgentRuntime.Runtime.CancelRun | internal/agent/runtime.go:326-356 | a cancellation, which looks before it rejects |
| AgentRuntime.Runtime.ContinueWorkflow | internal/agent/runtime.go:358-625 | the loop, which ends for every planner |
| AgentRuntime.Runtime.CompleteWithMessage | internal/agent/runtime.go:627-661 | summary, message and final step |
| AgentRuntime.Runtime.RecordStep | internal/agent/runtime.go:702-729 | step first, then state; an error of either is reported |
| AgentRuntime.Runtime.Transition | internal/agent/runtime.go:731-774 | the save whose error is ignored, and the event |
| AgentRuntime.Runtime.Fail | internal/agent/runtime.go:776-796 | the failed final step, the transition only if it was recorded, and the event |
| AgentRuntime.Runtime.HydrateApproval | internal/agent/runtime.go:854-876 | the loop from the end of the log to the last record of the approval |
| AgentRuntime.LocalRouter.Propose | internal/tools/router.go:32-143 | events, inference, decision and the three branches |
| AgentRuntime.LocalRouter.ExecuteApproved | internal/tools/router.go:148-166 | status, hash and the stored snapshot |
| AgentRuntime.LocalRouter.ExecuteReadOnly | internal/tools/router.go:169-182 | executes unless approval is required |
| AgentRuntime.LocalRouter.Execute | internal/tools/router.go:184-239 | the events around an execution, and the call id filled in |
| Evals.RunCase | internal/evals/runner.go:78-213 | a case with secrets in its input is not run; every other is judged by what its own course called and asked approval for: its status, calls, approvals, findings and forbidden calls; and of the gated calls only expected ones were executed, in the one mode that approves any |
| Evals.Conclude | internal/evals/runner.go:85-213 | the verdict: passed exactly when the score is 1, at most fourteen assertions, which inputs lead to which status, and the findings |
| Evals.RunSteps | internal/evals/runner.go:104-188 | the loop makes at most one call a step, asks at most once a call, and executes only what the approval mode lets it |
| Evals.AssertCase | internal/evals/runner.go:326-397 | between one and thirteen assertions, all of which pass exactly when every expectation is met |
| Evals.PerfectScoreExactly | internal/evals/runner.go:408-420 | rounding turns failures into a score of 1 exactly when there is at most one in two thousand |
| Evals.AssertionScore | internal/evals/runner.go:408-420 | the rounded share, counted by the loop |
| Evals.ReplansUntilTheEnd | internal/evals/runner.go:144-156 | a pending approval does not end a case: it plans again until the steps run out |
| EvalReports.RunAll | internal/evals/runner.go:20-76 | a request without cases is refused; otherwise every result is that of its case's course, passed, failed and errors add up to the cases, the worst of them is the run's status, and the report is this run's |
| EvalReports.RunPassesExactly | internal/evals/runner.go:20-76 | a run passes exactly when every case has no secrets in its input, leaks nothing, meets no error, and meets its expectations by its own course |
| EvalReports.BuildReport | internal/evals/report.go:15-68 | the nested loops give the statistics per category, the pass rate, the findings, the forbidden calls, and the failed assertions sorted by case and name |
| EvalReports.SortedIsUnique | internal/evals/report.go:62-67 | there is only one sorted list of the same failures, so it does not matter that the sort is not stable |
| EvalReports.PassRateExactly | internal/evals/report.go:27-29 | the pass rate is a share, and full exactly when there are cases and all passed |
| EvalReports.CategoryExactly | internal/evals/report.go:30-41 | each category's entry counts exactly the results of that category |
| EvalReports.ReportConserves | internal/evals/report.go:27-61 | every category balances, and together they sum to the run's numbers |
| EvalReports.NoFailuresExactly | internal/evals/report.go:43-60 | no failure is listed exactly when every assertion passed |

## Left out

- HTTP and WebSocket handlers, the command line, bootstrap, configuration files, JSONL files and the Postgres
  adapters: wiring. The durable repositories are a map and an index-ordered list. Of the run log's files, only that
  an append may fail, without anyone being told, is modelled; the day's audit file is not.
- Reads of the state store, of the step log and of the approval store never fail, and the process does not die
  between two of them. RestartTransparency.RestartIsTransparentExactly rests on this: only a restarted process lists
  the steps to find an approval.
- First-pass planning: an oracle that returns a tool plan or an answer; only the shape of its result is used.
- The regular expressions of redaction and of secret scanning: redaction is an arbitrary function, and only the
  fields it is applied to are modelled.
- Reading paths out of proposals and diffs, and the shell parser: arbitrary functions that the inferrer consults.
- Keyword tables and the formatting of values as text in the planner: arbitrary functions of the message and of
  the value. A runbook plan held as a typed structure is represented by the map it encodes to.
- Texts of messages, summaries, explanations and reasons, and the wording of errors, which are represented by
  their causes; the risk trace inside a denial's output; usage rows.
- Timestamps are values of the clock; identifiers are fresh values of it.
- Plan, inference and policy snapshots inside a stored state: a resumption never reads them.
- Several runs sharing one runtime: sessions are about one run, with the approvals of others present in the
  store.
- Approvals without a run and the direct approve path.
- Go's sort is not stable: among steps of equal index the model keeps the order of arrival. Equal indices arise when
  a call goes on from a stored state that is behind the log: when the process died between saving a step and saving
  the state, when that save of the state failed, or when the step was kept and reported as failed.
- Floating point: confidence, scores and shares are real numbers. Upper-casing of HTTP methods is that of ASCII.
- The rendering of an evaluation report as Markdown. What assertions found is represented for forbidden tools only.
- Base.TrimSpace trims blank, tab, newline and carriage return; Go's TrimSpace knows every Unicode space.
- Json.CloneIdempotent: integers keep their exact value in a JSON copy, while Go's copy goes through float64 and rounds
  integers beyond 2^53; so that a copy keeps the hash is stated for maps without such integers.
- Json.HashSurvivesRounds: the same; with such an integer the first copy in Go already has another hash.
- Approvals.DraftIsSound: the same, for the comparison with the input as the planner wrote it, and for an input that
  JSON refuses as a whole but whose refused part a git tool's own arguments replace.
- The records that replaying a run produces, beyond the two projections of the run log.
- Interleaving.AtMostOneVerdict: the callers' later work, once this approval is behind them, is any sequence of
  writes to the run's state; the planning they go on with may create other approvals, which are not followed.
- StateStore.InMemoryRunStateStore.ListByStatus: the sort happens as the items are collected.
- RunLog.BoundIsReached: is about the language of logs; that a session produces such a log is Witnesses.SomeLogIsFull.
- SoloCallers.ApproveAlone: compares store, verdict and executions; what the run goes on to do after the execution is
  any sequence of writes in Interleaving.
- Lifecycle.ProjectionsAgree: a proposal that cannot be stored as JSON is compared by position only.
