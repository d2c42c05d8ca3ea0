# AlloyPort: a verified model

AlloyPort migrates CUDA kernels to Ascend C with an untrusted model and trusted gates. This project
models the parts of it whose correctness is hardest to see, and proves what they promise.

**The durable agent episode** (`Episode*.dfy`). An episode is a versioned record in a
compare-and-swap repository. A runner loads a clone, may commit a dispatch, calls the model or a tool
once, and commits the answer; it may crash between any two of these, and other runners and operators
may act in between. `EpisodeReducer` gives each stretch between two boundaries as a function,
`EpisodeInvariant` one inductive invariant of the record, `EpisodeWorld` the interleavings of any
number of runners with a log of the external calls, and `EpisodeTheorems`, `EpisodeBudgets`,
`EpisodeTermination`, `EpisodeCancellation` and `EpisodeBinding` what follows for every run.
`EpisodeLifecycle` says without the reducer which state may follow which, and `EpisodeHistory` what
the record of a reachable episode therefore tells about its past. `EpisodeRuntime` is the runner
itself: classes whose methods change the repository in place and are runs of that world; `EpisodeSolo`
composes such calls, and `EpisodeExamples` runs the ones in which a promise fails.

**The gates** (`Candidate*.dfy`, `GateStatuses.dfy`, `Source*.dfy`, `Oracle*.dfy`). Which answers of the
candidate gateway may complete a migration, and what each status says; which sources the build reaches;
and the differential oracle that measures the authority's own spread, derives a tolerance from it and
compares a candidate run. `CandidateExample` carries one migration through to success.

**The candidate record** (`Record*.dfy`). Candidates are read out of an episode and printed as a git
fast-import stream. `RecordImport` reads the stream back.

**The artifact store** (`Upload*.dfy`, `Sums.dfy`). Upload sessions, quotas, references and garbage
collection, as a class proved against a specification of each operation, and the laws of whole runs.

**Bundle identity** (`BundleIdentity.dfy`, `ByteOrder.dfy`). The bytes that are hashed for a bundle.

SHA-256 and JSON are injective or arbitrary functions. Clocks, workers, stores and crashes are
parameters, so a theorem over them holds whatever they do.

## Findings

Where a promise does not hold of the code, the code is modelled as it is, a lemma runs it to the
failure, and another says exactly when the promise holds.

- A runner that stalls between its dispatch commit and its call lets another runner reconcile the
  operation first, so an `execute` can follow a `reconcile` (`ExecuteAfterReconcile`). While its
  dispatch is the newest revision, it comes first (`FreshExecuteComesFirst`). Each effect still happens
  at most once.
- Cancellation does not always withdraw the rest of a turn: calls that were only requested can still be
  executed after `resume_reconciliation` (`CancelledTurnGoesOn`). They are withdrawn exactly when no
  tool was in doubt or nothing was left that was only requested (`RestOfTurnWithdrawnExactly`).
- A tool gateway that answers `Denied` makes the reducer attempt an illegal transition
  (`DeniedIsNotRecorded`); `AfterToolKeeps` gives the exact set of acceptable answers.
- Reopening an Incomplete episode, or one whose last turn was refused for its number of operations,
  leaves the previous input bound; the next attempt repeats it (`IncompleteAsksAgain`,
  `RefusedTurnAsksAgain`). `ResumeBindsExactly` gives the condition by status and last turn.
- `repeats_the_last_failure` is documented as comparing with the previous attempt; the code compares
  with the newest recorded diagnostic (`FailsWithoutARepeat`, `RepeatsAsDocumented`).
- The branch of `drive_model` for a dispatching attempt with a requested cancellation cannot be
  reached (`PendingFacts`), and `resume` never finds the flag it clears (`ResumableFacts`).
- A candidate that names itself as parent prints a `from` line with its own, undefined mark
  (`SelfParentDoesNotImport`); the stream imports exactly when there is none (`StreamRoundTrip`).
- A reference granted under an `upload:` name is replaced when that upload completes, with its
  retention (`RetentionCanBeLost`, `RetainedSurvivesExactly`).
- Recording a local artifact checks no quota, although it is documented to count against it
  (`LocalArtifactExceedsQuota`); the quota holds afterwards exactly when there was room
  (`RecordLocalQuota`).
- A change without files is accepted, although it is documented as an error (`EmptyChange`);
  `NewChange` says exactly what is accepted.
- With three repetitions per case the rotated authority can be refused, because only adjacent
  repetitions are measured (`ThreeRepetitionsCanBeRefused`); `RotatedAuthorityAdmitted` gives the
  condition. A second summation order is documented as correct by construction, and can be refused with
  two repetitions (`SecondOrderCanBeRefused`); `SecondOrderAdmitted` gives the condition.

## Model

| member | source | states |
|---|---|---|
| EpisodeReducer.FirstUnfinished | crates/alloyport-core/src/agent_runtime_tools.rs:156-160 | the first operation without a result; everything before it is finished |
| EpisodeReducer.FirstDispatching | crates/alloyport-core/src/agent_runtime.rs:222-232 | the first committed dispatch without a recorded doubt |
| EpisodeReducer.BackoffDoubles | crates/alloyport-core/src/agent_runtime_model.rs:266-277 | the retry delay is 250 ms doubled for every failure, up to 30 s, for any number of failures |
| EpisodeReducer.RepeatsAsDocumented | crates/alloyport-core/src/agent_runtime_model.rs:237-252 | code and documentation differ exactly when the previous attempt recorded nothing and the newest earlier diagnostic is this one |
| EpisodeInvariant.InitialStateInv | crates/alloyport-core/src/agent_runtime_state.rs:10-31 | a new episode satisfies the invariant |
| EpisodeInvariant.EvolvesTransitive | crates/alloyport-core/src/agent_runtime.rs:50-80 | history only grows, over any number of commits |
| EpisodeToolWork.PlannedInOrder | crates/alloyport-core/src/agent_runtime_tools.rs:81-134 | planned operations come after everything recorded, in call order |
| EpisodeToolWork.ToolsPlannedInv | crates/alloyport-core/src/agent_runtime_tools.rs:51-134 | admitting a turn's calls keeps the invariant, with the operation budget |
| EpisodeToolWork.OperationMovedInv | crates/alloyport-core/src/agent_runtime_tools.rs:194-237 | moving the first unfinished operation keeps the invariant |
| EpisodeToolWork.OperationFinishedInv | crates/alloyport-core/src/agent_runtime_tools.rs:239-265 | finishing it keeps the invariant, including what `satisfied` rests on |
| EpisodeToolWork.ReopenedInv | crates/alloyport-core/src/agent_runtime.rs:161-186 | reopening under a new allowance keeps the invariant |
| EpisodeToolWork.ToolCancelledInv | crates/alloyport-core/src/agent_runtime.rs:193-253 | cancelling with a tool in flight parks the episode and keeps the invariant |
| EpisodeSegments.PendingFacts | crates/alloyport-core/src/agent_runtime_model.rs:34-76 | a pending attempt is prepared or dispatching, carries the bound input, and no cancellation is requested |
| EpisodeSegments.PrepareAttemptKeeps | crates/alloyport-core/src/agent_runtime.rs:297-350 | preparing an attempt is always legal and keeps the invariant |
| EpisodeSegments.BeginModelKeeps | crates/alloyport-core/src/agent_runtime_model.rs:34-100 | dispatching, or recovering a dispatch, is always legal and keeps the invariant |
| EpisodeSegments.ReviewStopKeeps | crates/alloyport-core/src/agent_runtime.rs:362-388 | reviewing a stop is always legal and keeps the invariant |
| EpisodeSegments.PlanToolsKeeps | crates/alloyport-core/src/agent_runtime_tools.rs:23-142 | planning fails exactly for a turn that fits both budgets and lacks a label, and otherwise keeps the invariant |
| EpisodeSegments.BeginToolKeeps | crates/alloyport-core/src/agent_runtime_tools.rs:145-237 | dispatching a tool or rebinding the input is always legal; fresh work executes, anything else reconciles |
| EpisodeSegments.BeginAdvanceKeeps | crates/alloyport-core/src/agent_runtime.rs:100-146 | the first half of `advance` fails exactly when it plans such a turn, and otherwise keeps the invariant |
| EpisodeAnswers.AfterModelKeeps | crates/alloyport-core/src/agent_runtime_model.rs:106-197 | recording a model answer fails exactly for a turn too wide for 32 bits, and otherwise keeps the invariant |
| EpisodeAnswers.AfterToolKeeps | crates/alloyport-core/src/agent_runtime_tools.rs:239-291 | recording a tool answer succeeds exactly when the answer is acceptable, and keeps the invariant |
| EpisodeAnswers.ResumeKeeps | crates/alloyport-core/src/agent_runtime.rs:161-186 | a granted resume keeps the invariant and the history |
| EpisodeAnswers.ResumeAccepts | crates/alloyport-core/src/agent_runtime.rs:161-186 | a resume is accepted exactly when recorded turns are valid and a finished episode can be reopened under the grant |
| EpisodeAnswers.ResumableFacts | crates/alloyport-core/src/agent_runtime.rs:172-184 | no episode that can be reopened carries a cancellation request |
| EpisodeAnswers.ReconciliationKeeps | crates/alloyport-core/src/agent_runtime.rs:260-285 | resuming reconciliation is legal exactly when suspended, and keeps the invariant |
| EpisodeAnswers.CancelKeeps | crates/alloyport-core/src/agent_runtime.rs:193-253 | cancelling is legal in every reachable state and keeps the invariant |
| EpisodeWorld.OperationIdsDistinct | crates/alloyport-core/src/agent_runtime_helpers.rs:81-96 | no two operations of an episode share an identity |
| EpisodeWorld.NextKeeps | crates/alloyport-core/src/agent_runtime_support.rs:71-92 | every action of every runner keeps the invariant of records, holders, permits and call log |
| EpisodeWorld.RunKeeps | crates/alloyport-core/src/agent_runtime_support.rs:71-92 | so does every run |
| EpisodeTheorems.ReachableInv | crates/alloyport-core/src/agent_runtime.rs:100-146 | every world that a new episode can reach satisfies the invariant |
| EpisodeTheorems.EffectsAtMostOnce | crates/alloyport-core/src/agent_runtime_tools.rs:194-237 | over every interleaving, no attempt is invoked twice, no operation is executed twice, and all calls for one operation carry the identical invocation |
| EpisodeTheorems.FreshExecuteComesFirst | crates/alloyport-core/src/agent_runtime_tools.rs:194-237 | a runner whose dispatch is the newest revision calls before anyone has executed or reconciled |
| EpisodeTheorems.StalledExecuteFollowsReconcile | crates/alloyport-core/src/agent_runtime_tools.rs:194-237 | a stalled runner's execute can follow another runner's reconcile |
| EpisodeTheorems.ReachableWorkIsLegal | crates/alloyport-core/src/agent.rs:34-107 | in every reachable world whatever a runner is about to do is legal, with exactly the listed exceptions, each an if and only if |
| EpisodeTheorems.NextEvolves | crates/alloyport-core/src/agent_runtime.rs:287-295 | every action only extends history; terminal records are frozen |
| EpisodeTheorems.RunEvolves | crates/alloyport-core/src/agent_runtime.rs:287-295 | so does every run |
| EpisodeBudgets.ResumeExtends | crates/alloyport-core/src/agent_runtime.rs:161-186 | a committed resume adds exactly its grant to the allowances that were in force |
| EpisodeBudgets.NextBudget | crates/alloyport-core/src/agent_runtime.rs:100-186 | no other step touches the budget |
| EpisodeBudgets.RunBudget | crates/alloyport-core/src/agent_runtime.rs:100-186 | over every run the allowances grow by exactly what was granted, in order |
| EpisodeBudgets.BudgetsHold | crates/alloyport-core/src/agent_runtime.rs:309-341 | attempts, turns, operations, feedback and ambiguity stay within the unchanging rules and the largest allowance ever in force, which is the first one or one that a resume of this run granted |
| EpisodeTheorems.ToolWorkIsSequential | crates/alloyport-core/src/agent_runtime_tools.rs:145-192 | unfinished work belongs to the last turn, one operation is in flight and it is the first unfinished, and results exist exactly for finished ones |
| EpisodeTheorems.FeedbackIsComplete | crates/alloyport-core/src/agent_runtime_tools.rs:161-191 | a finished turn feeds back one result for each call, in call order |
| EpisodeLifecycle.CreatesExactly | crates/alloyport-core/src/agent_runtime_policy.rs:111-130 | an episode is created exactly under positive limits with no fewer attempts than turns, and starts with nothing done |
| EpisodeLifecycle.NextIsLawful | crates/alloyport-core/src/agent_runtime.rs:100-388 | every commit of every interleaving is in a lifecycle relation that is written without the reducer: which state follows which, field by field, and exactly when |
| EpisodeLifecycle.PlanRefusesExactly | crates/alloyport-core/src/agent_runtime_tools.rs:51-120 | planning refuses exactly a turn within both budgets with a blank identity, name or declared version |
| EpisodeLifecycle.RetryDelay | crates/alloyport-core/src/agent_runtime_model.rs:208-236 | a retried failure waits as long as the transport asks, or else 250 ms doubled for every failure on record up to 30 s; every other answer is reported without a delay |
| EpisodeLifecycle.ReportLaw | crates/alloyport-core/src/agent_runtime.rs:100-146 | an advance reports an end as an end, a suspension as one, and otherwise where the episode stands |
| EpisodeLifecycle.OperatorReports | crates/alloyport-core/src/agent_runtime.rs:161-253 | a resume reports what it resumed from, a cancellation where it leaves the episode |
| EpisodeLifecycle.ResumedIsWellFormed | crates/alloyport-core/src/agent_runtime_state.rs:56-73 | a record is resumed only if the calls of each turn carry distinct identities and names |
| EpisodeHistory.HistoryIsTrue | crates/alloyport-core/src/agent_runtime.rs:297-388 | in every reachable state: whatever ended the episode is on record, the ambiguity counter is the number of ambiguous attempts, and attempts and turns form one chain |
| EpisodeHistory.StopIsReviewed | crates/alloyport-core/src/agent_runtime.rs:362-388 | in every reachable world a stop ends in Succeeded if and only if a gate is satisfied, in Incomplete exactly when it is not and no feedback is left, and otherwise spends one feedback |
| EpisodeHistory.SatisfiedIsNotSentBack | crates/alloyport-core/src/agent_runtime.rs:362-388 | once satisfied, over every continuation, no stop is answered with feedback and the episode never ends Incomplete |
| EpisodeCancellation.CancellationIsFinal | crates/alloyport-core/src/agent_runtime.rs:193-253 | once cancellation is requested no attempt is prepared or dispatched again, no operation is added, and only Cancelled can end the episode |
| EpisodeCancellation.CallsAreForeseen | crates/alloyport-core/src/agent_runtime.rs:193-285 | over every continuation the log holds only model calls whose attempt was dispatched before the cancellation, and tool calls that were dispatched before it or that it did not withdraw |
| EpisodeCancellation.RunWithdrawn | crates/alloyport-core/src/agent_runtime.rs:193-285 | after a cancellation without a tool in doubt, or with nothing only requested, no continuation dispatches anything that was only requested |
| EpisodeCancellation.GoesOn | crates/alloyport-core/src/agent_runtime.rs:260-285 | after any other cancellation some continuation does |
| EpisodeCancellation.RestOfTurnWithdrawnExactly | crates/alloyport-core/src/agent_runtime.rs:193-285 | so the rest of the turn is withdrawn exactly under that condition |
| EpisodeTermination.NextMeasure | crates/alloyport-core/src/agent_runtime.rs:100-146 | without a resume, a measure falls on every definite commit and never rises |
| EpisodeTermination.RunMeasure | crates/alloyport-core/src/agent_runtime.rs:100-146 | over a run with any resumes, definite commits are paid for by the measure and by what each grant is worth |
| EpisodeTermination.DefiniteStepsAreBounded | crates/alloyport-core/src/agent_runtime_policy.rs:24-59 | an episode takes at most as many definite steps as its first allowance and the allowances granted to it are worth, however it is interleaved |
| EpisodeTermination.ProgressIsPossible | crates/alloyport-core/src/agent_runtime.rs:100-146 | a runner left alone in a state that is neither terminal nor suspended can take one, exactly unless it would plan a turn in budget that lacks a label |
| EpisodeBinding.ResumeBindsExactly | crates/alloyport-core/src/agent_runtime.rs:161-186 | after a stop that left the last turn open (Incomplete, or a turn refused for its number of operations) the next attempt repeats the last request; after every other stop it asks for exactly what the last turn calls for; bound if and only if not left open, or the last request was its own answer |
| EpisodeBinding.IncompleteResumeRepeats | crates/alloyport-core/src/agent_runtime.rs:362-388 | reopening an Incomplete episode repeats its last request, and is bound only if that request was its own answer |
| EpisodeBinding.RefusedTurnResumeRepeats | crates/alloyport-core/src/agent_runtime_tools.rs:51-80 | so does reopening after a turn was refused for its number of operations |
| EpisodeBinding.RunBinding | crates/alloyport-core/src/agent_runtime_tools.rs:161-191 | every run whose only resumes are from Failed keeps the binding and what each stop holds |
| EpisodeBinding.AttemptsAreBound | crates/alloyport-core/src/agent_runtime.rs:329-340 | in every run whose only resumes are from Failed, each attempt ever prepared asked for the initial input, or the derivation from the last turn and all of its results in call order, and an episode that awaits the model holds that input |
| EpisodeSolo.SoloEmbeds | crates/alloyport-core/src/agent_runtime_support.rs:71-92 | what one runner does alone it does just so in every world in which it holds nothing |
| EpisodeSolo.SessionsCompose | crates/alloyport-core/src/agent_runtime.rs:100-285 | calls of the runtime one after the other are one run of the world, whatever other runners hold |
| EpisodeSolo.CallsAtMostOnce | crates/alloyport-core/src/agent_runtime.rs:100-285 | over any number of calls after creation, no attempt is invoked twice, no operation is executed twice, and all calls for an operation are identical |
| EpisodeExamples.ExecuteAfterReconcile | crates/alloyport-core/src/agent_runtime_tools.rs:194-237 | a run from creation in which an execute follows a reconcile of the same operation |
| EpisodeExamples.CancelledTurnGoesOn | crates/alloyport-core/src/agent_runtime.rs:260-285 | a run from creation in which a call that was only requested is dispatched after the cancellation |
| EpisodeExamples.IncompleteAsksAgain | crates/alloyport-core/src/agent_runtime.rs:362-388 | a run from creation in which a reopened Incomplete episode asks its first question again, unbound |
| EpisodeExamples.RefusedTurnAsksAgain | crates/alloyport-core/src/agent_runtime_tools.rs:51-80 | the same after a turn with too many operations |
| EpisodeExamples.FailsWithoutARepeat | crates/alloyport-core/src/agent_runtime_model.rs:237-252 | a run from creation that fails for a repeated diagnostic although the previous attempt recorded none |
| EpisodeExamples.DeniedIsNotRecorded | crates/alloyport-core/src/agent_runtime_tools.rs:238-262 | a run from creation in which a call is executed, answered with Denied, and cannot be recorded |
| EpisodeRuntime.InMemoryEpisodeRepository.Create | crates/alloyport-core/src/agent_runtime_support.rs:54-62 | creates at revision zero unless the identity exists |
| EpisodeRuntime.InMemoryEpisodeRepository.LoadEpisode | crates/alloyport-core/src/agent_runtime_support.rs:64-69 | hands out the stored version |
| EpisodeRuntime.InMemoryEpisodeRepository.SaveEpisode | crates/alloyport-core/src/agent_runtime_support.rs:71-92 | replaces the state exactly when the expected revision is current, and counts |
| EpisodeRuntime.ScriptedToolGateway.InvokeTool | crates/alloyport-core/src/agent_runtime_support.rs:259-274 | answers in script order and remembers which operations it served |
| EpisodeRuntime.OneShotFault.ShouldCrash | crates/alloyport-core/src/agent_runtime_support.rs:359-367 | crashes once, at the chosen point |
| EpisodeRuntime.AdmitCalls | crates/alloyport-core/src/agent_runtime_tools.rs:81-134 | the loop admits exactly the planned records, or fails exactly for a blank label |
| EpisodeRuntime.FindUnfinished | crates/alloyport-core/src/agent_runtime_tools.rs:156-160 | finds the first operation without a result |
| EpisodeRuntime.CollectResults | crates/alloyport-core/src/agent_runtime_tools.rs:169-183 | collects one turn's results in call order |
| EpisodeRuntime.RepeatsFailure | crates/alloyport-core/src/agent_runtime_model.rs:242-252 | true exactly when the newest recorded diagnostic of any attempt is this one |
| EpisodeRuntime.AgentLoopRunner.PrepareAttempt | crates/alloyport-core/src/agent_runtime.rs:297-350 | commits exactly the specified step |
| EpisodeRuntime.AgentLoopRunner.ReviewStop | crates/alloyport-core/src/agent_runtime.rs:362-388 | commits exactly the specified step |
| EpisodeRuntime.AgentLoopRunner.PlanTurnTools | crates/alloyport-core/src/agent_runtime_tools.rs:23-142 | commits exactly the specified step, or crashes after it |
| EpisodeRuntime.AgentLoopRunner.FailDispatch | crates/alloyport-core/src/agent_runtime_model.rs:208-234 | fails or goes back to ready, with the retry delay |
| EpisodeRuntime.AgentLoopRunner.RecordModelAnswer | crates/alloyport-core/src/agent_runtime_model.rs:106-197 | commits exactly what the answer calls for |
| EpisodeRuntime.AgentLoopRunner.RecordToolAnswer | crates/alloyport-core/src/agent_runtime_tools.rs:239-291 | commits exactly what the answer calls for |
| EpisodeRuntime.AgentLoopRunner.DriveModel | crates/alloyport-core/src/agent_runtime_model.rs:22-197 | with every crash point, changes repository and call log as a run of this runner without operator commands does, and calls the model at most once |
| EpisodeRuntime.AgentLoopRunner.DriveTools | crates/alloyport-core/src/agent_runtime_tools.rs:145-291 | with every crash point, changes repository and call log as a run of this runner without operator commands does, and calls one tool at most once |
| EpisodeRuntime.AgentLoopRunner.Advance | crates/alloyport-core/src/agent_runtime.rs:100-146 | one call of `advance` is a run of this runner alone, without operator commands, with one step of the reducer and one external call at most; no other episode is touched |
| EpisodeRuntime.AgentLoopRunner.Resume | crates/alloyport-core/src/agent_runtime.rs:161-186 | commits exactly the granted resume, as a run of this runner |
| EpisodeRuntime.AgentLoopRunner.ResumeReconciling | crates/alloyport-core/src/agent_runtime.rs:260-285 | commits exactly the resumed reconciliation, as a run of this runner |
| EpisodeRuntime.AgentLoopRunner.RequestCancellation | crates/alloyport-core/src/agent_runtime.rs:193-253 | commits exactly the cancellation, as a run of this runner |
| CandidateGates.SourceGateCompletes | crates/alloyport-candidate-tools/src/gateway.rs:183-251 | a Source Gate answer completes only when no gate is downstream, with the receipt of the cited manifest's tree, which belongs to this migration and which the Source Gate admits |
| CandidateGates.BuildCompletes | crates/alloyport-candidate-tools/src/build_tool.rs:245-340 | a completing build was reported by the worker as bound, complete and successful with exit code zero, for the cited manifest's tree, which the Source Gate admits with exactly the cited receipt |
| CandidateGates.CorrectnessCompletes | crates/alloyport-candidate-tools/src/correctness_tool.rs:126-311 | a completing correctness answer cites a build receipt that passed for the same task, candidate, manifest and source receipt, and the runs that the workers reported for this experiment, of the frozen authority and of the manifest's tree, agree at a calibrated tolerance and are named in its receipt |
| CandidateGates.OnlyTheLastGateCompletes | crates/alloyport-candidate-tools/src/gateway.rs:366-457 | only the most downstream enabled gate completes a migration, and only by passing |
| CandidateGates.LastGateAlwaysCompletes | crates/alloyport-candidate-tools/src/gateway.rs:439-457 | and it does so every time it passes |
| CandidateGates.AnswersAreAcceptable | crates/alloyport-candidate-tools/src/gateway.rs:323-364 | the reducer can record every answer to a call that the gateway declared |
| CandidateGates.AfterToolEarns | crates/alloyport-core/src/agent_runtime_tools.rs:249-260 | the step that sets `satisfied` records the certificate with it |
| CandidateGates.RunGated | crates/alloyport-core/src/agent_runtime_tools.rs:249-260 | every run keeps `satisfied` backed by a certified operation |
| CandidateGates.SuccessIsEarned | crates/alloyport-core/src/agent_runtime.rs:362-388 | over every interleaving, a Succeeded episode holds a verified operation that the last enabled gate passed on what that operation's own call met |
| CandidateGates.SuccessMeansAgreement | crates/alloyport-candidate-tools/src/correctness_tool.rs:230-311 | with correctness enabled, over every interleaving, Succeeded means that the runs of the authority and of a built candidate's own tree, as the workers reported them for this experiment to that operation's call, agree at a calibrated tolerance |
| CandidateExample.CorrectnessAnswers | crates/alloyport-candidate-tools/src/correctness_tool.rs:126-311 | a concrete gateway whose Correctness Gate passes |
| CandidateExample.MigrationSucceeds | crates/alloyport-core/src/agent_runtime.rs:362-388 | a gated run from creation, with correctness enabled, that reaches Succeeded |
| GateStatuses.SourceStatusExactly | crates/alloyport-candidate-tools/src/gateway.rs:183-251 | the Source Gate answers success exactly for an admissible tree, and otherwise that the candidate failed |
| GateStatuses.BuildStatusExactly | crates/alloyport-candidate-tools/src/build_tool.rs:245-340 | a completed build answer is a rejection without the exact passing source receipt, and otherwise what the worker says: success only with a clean exit, and infrastructure failure for anything unclear |
| GateStatuses.CorrectnessStatusExactly | crates/alloyport-candidate-tools/src/correctness_tool.rs:230-311 | success exactly for agreement at a calibrated tolerance, candidate failure exactly for disagreement at one, infrastructure failure exactly without one |
| GateStatuses.ErrorsComeBack | crates/alloyport-candidate-tools/src/gateway.rs:253-282 | a broken citation comes back to the model from every tool but the two remote gates, and reading tools never fail for their surroundings |
| GateStatuses.AnswersAreForThisMigration | crates/alloyport-candidate-tools/src/gateway.rs:48-105 | whatever a gate answers, the cited manifest has this task, migration, symbol, target and inputs |
| GateStatuses.DeclaredExactly | crates/alloyport-candidate-tools/src/gateway.rs:323-364 | which tools are declared, and that exactly the gates may speak for the verified reference |
| GateStatuses.DisabledIsRefused | crates/alloyport-candidate-tools/src/gateway.rs:253-457 | a tool that is not enabled is refused |
| GateStatuses.OtherToolsExactly | crates/alloyport-candidate-tools/src/gateway.rs:253-282 | a stored submission succeeds with its manifest as the one receipt; a reading tool succeeds exactly when its instrument does; neither completes anything |
| SourceGate.NamedInBuild | crates/alloyport-core/src/candidate_source.rs:545-549 | the names that the build text mentions |
| SourceGate.FollowIncludes | crates/alloyport-core/src/candidate_source.rs:557-562 | adds every name that one reached source includes |
| SourceGate.FollowAll | crates/alloyport-core/src/candidate_source.rs:551-563 | one pass grows the set or shows that it is closed |
| SourceGate.BuildableNames | crates/alloyport-core/src/candidate_source.rs:541-569 | exactly the names that a chain of includes reaches, the least closed set, within one pass for each source |
| SourceGate.ReachedByName | crates/alloyport-core/src/candidate_source.rs:546-570 | without include lines exactly the names in the build text are reached |
| SourceGate.QuotedInclude | crates/alloyport-core/src/candidate_source.rs:572-577 | a quoted include on its own line is an include line, whatever surrounds it |
| SourceText.IncludesExactly | crates/alloyport-core/src/candidate_source.rs:572-577 | an include is a line that starts, after blanks, with `#include` and names the target from there on, said by positions in the text |
| SourceText.ContainsExactly | crates/alloyport-core/src/candidate_source.rs:435-456 | a text contains exactly what occurs at some position |
| SourceText.FileNameExactly | crates/alloyport-core/src/candidate_source.rs:527-529 | the file name is the part after the last slash |
| SourceGate.InspectBuild | crates/alloyport-core/src/candidate_source.rs:579-623 | reports exactly the unreached device and host files, in order, and a missing target |
| SourceGate.ReadTexts | crates/alloyport-core/src/candidate_source.rs:379-403 | the texts whose bytes are the manifest's, the last one of each path, and a finding for every other file |
| SourceGate.InspectForbidden | crates/alloyport-core/src/candidate_source.rs:435-456 | one finding for each text that names somebody else's library |
| SourceGate.InspectDevice | crates/alloyport-core/src/candidate_source.rs:459-504 | a missing device source, or one advisory for each unmarked one |
| SourceGate.InspectMapping | crates/alloyport-core/src/candidate_source.rs:625-661 | reports exactly the inputs and files that the mapping does not mention, in order |
| SourceGate.PassesExactly | crates/alloyport-core/src/candidate_source.rs:358-428 | nothing found blocks exactly when the bytes are the manifest's, no text is forbidden, a device source, the entry point and the target are there, the mapping is complete and every device and host source is reached |
| SourceGate.EvaluateSourceGate | crates/alloyport-core/src/candidate_source.rs:358-428 | reports exactly what the inspections find, and passes exactly the admissible candidates |
| SourceAdmission.TextsExactly | crates/alloyport-core/src/candidate_source.rs:379-403 | the inspected texts are the announced ones, the last of each path, and nothing else |
| SourceAdmission.AdmissibleExactly | crates/alloyport-core/src/candidate_source.rs:359-428 | the gate passes exactly when the tree is what the manifest announces, nothing delegates, device and host sides are there, the build reaches them and the mapping covers them, said of manifest, bytes and texts alone |
| SourceAdmission.IdentityFindingsExactly | crates/alloyport-core/src/candidate_source.rs:379-403 | which identity findings there are, file by file |
| SourceAdmission.ForbiddenFindingsExactly | crates/alloyport-core/src/candidate_source.rs:435-456 | which delegation findings there are, and for which nine names |
| SourceAdmission.AdvisoriesExactly | crates/alloyport-core/src/candidate_source.rs:459-504 | which advisories there are, and for which six marks |
| SourceAdmission.UnreachedExactly | crates/alloyport-core/src/candidate_source.rs:579-623 | the build finding lists exactly the unreached device and host files |
| SourceAdmission.UncoveredExactly | crates/alloyport-core/src/candidate_source.rs:625-661 | the mapping finding lists exactly the inputs that it does not mention |
| SourceAdmission.UncoveredFilesExactly | crates/alloyport-core/src/candidate_source.rs:625-661 | and exactly the files, the mapping itself excepted |
| OracleComparison.KeyFailureExact | crates/alloyport-core/src/correctness_evaluation.rs:194-255 | an observation breaks no rule exactly when it matches the authority's |
| OracleComparison.NoFailureMeansAgreement | crates/alloyport-core/src/correctness_evaluation.rs:106-274 | there is no failure exactly when the declared relation holds |
| OracleComparison.LooseningAddsNoFailure | crates/alloyport-core/src/correctness_evaluation.rs:276-287 | a looser tolerance reports nothing new |
| OracleComparison.WithinExactly | crates/alloyport-core/src/correctness_evaluation.rs:276-288 | two finite outputs are in tolerance exactly when they differ by no more than the absolute nanos or than the parts per billion of the expected magnitude |
| OracleComparison.SuccessfulExactly | crates/alloyport-core/src/correctness_evaluation.rs:256-263 | an output counts as successful exactly when its call reported no failure |
| OracleComparison.CompareKeys | crates/alloyport-core/src/correctness_evaluation.rs:194-255 | one failure for exactly the observations that break a rule |
| OracleComparison.CompareRepetitions | crates/alloyport-core/src/correctness_evaluation.rs:256-272 | one failure for exactly the cases whose repetitions disagree with the first |
| OracleComparison.CompareRuns | crates/alloyport-core/src/correctness_evaluation.rs:106-274 | reports exactly the failures there are, and none exactly when the declared relation holds |
| OracleCalibration.MaxBounds | crates/alloyport-core/src/correctness_calibration.rs:51-72 | a measured maximum bounds every pair and is reached by one |
| OracleCalibration.Widen | crates/alloyport-core/src/correctness_tolerance.rs:119-123 | widening is the exact floor of the widened observation, never below it, and is refused exactly when it does not fit |
| OracleCalibration.UnitsCover | crates/alloyport-core/src/correctness_calibration.rs:101-114 | rounding into units never lowers a spread, and adds less than one unit |
| OracleCalibration.DerivedCovers | crates/alloyport-core/src/correctness_tolerance.rs:114-137 | every measured distance lies within the derived tolerance |
| OracleCalibration.DerivedCoversRatio | crates/alloyport-core/src/correctness_calibration.rs:88-98 | whatever differs from an expected output by no larger a share than some measured pair does is in tolerance, at every magnitude |
| OracleCalibration.SteadyFloor | crates/alloyport-core/src/correctness_calibration.rs:36-86 | an authority is found deterministic exactly when all measured pairs are equal, and then has no spread |
| OracleCalibration.NothingToPresent | crates/alloyport-core/src/correctness_calibration.rs:214-244 | there is nothing to present exactly without a second order and without a repeated output |
| OracleAdmission.RotatedAuthorityAdmitted | crates/alloyport-core/src/correctness_calibration.rs:214-256 | for every repetition count the derived tolerance admits the rotated authority exactly when positive zero is reproduced and in each case the first output is within tolerance of the last and every output of the second |
| OracleAdmission.TwoRepetitionsAdmitted | crates/alloyport-core/src/correctness_calibration.rs:214-256 | with two repetitions per case, exactly when outputs are finite and positive zero is reproduced |
| OracleAdmission.RepeatingIsAdmitted | crates/alloyport-core/src/correctness_calibration.rs:214-256 | a concrete authority meets the theorem's conditions and is admitted |
| OracleAdmission.ThreeRepetitionsCanBeRefused | crates/alloyport-core/src/correctness_calibration.rs:64-72 | a concrete authority with three repetitions is measured and refused |
| OracleSecondOrder.SecondOrderAdmitted | crates/alloyport-core/src/correctness_calibration.rs:210-228 | for every repetition count the derived tolerance admits the authority's second order exactly when it keeps positive zeros and its results of each case lie within tolerance of the first of them |
| OracleSecondOrder.SecondOrderCanBeRefused | crates/alloyport-core/src/correctness_calibration.rs:43-72 | a concrete authority with two repetitions is measured and its second order refused |
| OracleGate.MeasureNoiseFloor | crates/alloyport-core/src/correctness_calibration.rs:25-86 | the loops compute the specified floor, or its exact error |
| OracleGate.RotateWithinCases | crates/alloyport-core/src/correctness_calibration.rs:233-255 | hands each observation the next output of its case |
| OracleGate.PresentReordered | crates/alloyport-core/src/correctness_calibration.rs:214-256 | the second order where there is one, the rotation otherwise, or nothing |
| OracleGate.Calibrate | crates/alloyport-core/src/correctness_calibration.rs:132-208 | gives exactly the specified calibration or error |
| OracleGate.CalibrationPasses | crates/alloyport-core/src/correctness_calibration.rs:132-208 | a calibration passes exactly when the floor is measured, the reordered authority is admitted and every mutant is detected |
| OracleGate.PassMeansCalibratedAgreement | crates/alloyport-core/src/correctness_evaluation.rs:21-103 | a Pass over the runner's own calibration means that both runs belong to the experiment and the candidate run to its candidate, and agreement at a measured tolerance that was shown to separate correct from broken |
| OracleGate.OwnVerdictExactly | crates/alloyport-core/src/correctness_evaluation.rs:21-81 | over the own calibration: Pass exactly for agreement, Fail exactly for disagreement, Unverifiable exactly when not calibrated |
| OracleGate.ClaimsNeedEvidence | crates/alloyport-core/src/correctness.rs:403-415 | a stored calibration vouches only with its recorded evidence |
| OracleGate.EveryMutantIsTried | crates/alloyport-core/src/correctness.rs:330-342 | the battery holds every kind of defect |
| OracleGate.EvaluateCorrectness | crates/alloyport-core/src/correctness_evaluation.rs:21-103 | refuses crossed runs; Pass exactly with a passing calibration of this reference, corpus and derived policy and the declared relation; never Fail without one |
| RecordText.DecimalReads | crates/alloyport-candidate-tools/src/record_stream.rs:155-200 | printed numbers are read back |
| RecordText.DataReads | crates/alloyport-candidate-tools/src/record_stream.rs:205-210 | a payload is read back whatever it contains and whatever follows |
| RecordText.UnquoteInverts | crates/alloyport-candidate-tools/src/record_stream.rs:212-231 | unquoting inverts quoting for every path, and no quoted path ends its line early |
| RecordText.QuotePath | crates/alloyport-candidate-tools/src/record_stream.rs:213-231 | the loop writes exactly the quoted path |
| RecordText.QuotesPrintably | crates/alloyport-candidate-tools/src/record_stream.rs:213-231 | a quoted path is printable, and a printable byte but quote and backslash stands for itself |
| RecordText.CommandReads | crates/alloyport-candidate-tools/src/record_stream.rs:151-201 | every command is read back, whatever follows it |
| RecordStream.RefNamesSequence | crates/alloyport-candidate-tools/src/record_stream.rs:98-117 | a ref fits on one line and determines its sequence |
| RecordStream.RefShowsTheEnd | crates/alloyport-candidate-tools/src/record_stream.rs:99-117 | a ref shows the last twelve letters and digits of an identity, and no other character matters |
| RecordStream.ContentsAreWrittenOnce | crates/alloyport-candidate-tools/src/record_stream.rs:144-160 | however many files share a content, a stream writes each content exactly once |
| RecordPrinter.AppendBlobs | crates/alloyport-candidate-tools/src/record_stream.rs:151-159 | one blob for each content without a mark |
| RecordPrinter.AppendChanges | crates/alloyport-candidate-tools/src/record_stream.rs:184-192 | the whole tree, file by file |
| RecordPrinter.AppendCommit | crates/alloyport-candidate-tools/src/record_stream.rs:161-193 | the text of exactly the specified commit |
| RecordPrinter.FastImportStream | crates/alloyport-candidate-tools/src/record_stream.rs:128-203 | the text of exactly the specified commands, or the first error |
| RecordImport.StreamAccepts | crates/alloyport-candidate-tools/src/record_stream.rs:128-146 | refuses exactly an empty history, an empty candidate and a repeated sequence |
| RecordImport.SelfParentRefused | crates/alloyport-candidate-tools/src/record_stream.rs:161-179 | a candidate that names itself cannot be imported |
| RecordImport.SelfParentDoesNotImport | crates/alloyport-candidate-tools/src/record_stream.rs:161-179 | a history of one such candidate prints and does not import |
| RecordImport.HistoryMirrors | crates/alloyport-candidate-tools/src/record_stream.rs:138-201 | the commands import to exactly the history, unless a candidate names itself |
| RecordImport.StreamReads | crates/alloyport-candidate-tools/src/record_stream.rs:128-203 | reading the text gives back exactly the commands |
| RecordImport.StreamRoundTrip | crates/alloyport-candidate-tools/src/record_stream.rs:128-203 | importing the stream gives back each ref, sequence, message, parent and exact tree, exactly when no candidate names itself; parents precede, refs resolve to their own candidate, and the head is the last |
| RecordCollection.ReadSubmission | crates/alloyport-candidate-tools/src/record.rs:105-165 | rehashes every source, or says which disagrees |
| RecordCollection.CollectFromOperations | crates/alloyport-candidate-tools/src/record.rs:59-93 | the loops collect exactly the specified candidates |
| RecordCollection.CollectedFacts | crates/alloyport-candidate-tools/src/record.rs:59-93 | identities are distinct, sequences count from one, and equal digests mean equal bytes |
| RecordProvenance.CollectedIsExact | crates/alloyport-candidate-tools/src/record.rs:59-165 | the candidates are, in order, the first successful submission of each identity; each has its manifest's parent, digests, paths and rehashed bytes, and exactly the verdicts that name it afterwards, in order; none is missing |
| RecordCollection.CollectedRoundTrip | crates/alloyport-candidate-tools/src/record.rs:47-93 | what is collected from any episode is printed and imports back |
| UploadInvariant.BeginKeeps | crates/alloyport-artifacts/src/upload_metadata_contract_tests.rs:533-572 | begin keeps indexes, sessions and quotas |
| UploadInvariant.AppendKeeps | crates/alloyport-artifacts/src/upload_metadata_contract_tests.rs:584-621 | so does append |
| UploadInvariant.FinalizeKeeps | crates/alloyport-artifacts/src/upload_metadata_contract_tests.rs:623-710 | so does finalize, whether it publishes, fails or stays retryable |
| UploadInvariant.GrantKeeps | crates/alloyport-artifacts/src/upload_metadata_contract_tests.rs:781-821 | so does a grant |
| UploadInvariant.RevokeKeeps | crates/alloyport-artifacts/src/upload_metadata_contract_tests.rs:858-874 | so does a revocation |
| UploadInvariant.PruneKeeps | crates/alloyport-artifacts/src/upload_metadata_contract_tests.rs:825-844 | so does pruning |
| UploadInvariant.PrunedReserved | crates/alloyport-artifacts/src/upload_metadata_contract_tests.rs:825-844 | pruning changes no reservation, in total or of any owner |
| UploadInvariant.CollectKeeps | crates/alloyport-artifacts/src/upload_metadata_contract_tests.rs:876-903 | so does a collection |
| UploadInvariant.CollectConserves | crates/alloyport-artifacts/src/upload_metadata_contract_tests.rs:888-902 | what was stored is what remains plus what was reclaimed |
| UploadInvariant.TimePasses | crates/alloyport-artifacts/src/upload_metadata_contract_tests.rs:1063-1077 | reservations only lapse |
| UploadRuns.RunInv | crates/alloyport-artifacts/src/upload_metadata_contract_tests.rs:482-502 | every run with a clock that does not run backwards keeps the invariant |
| UploadRuns.QuotaConservation | crates/alloyport-artifacts/src/upload_metadata_contract_tests.rs:998-1077 | over every run, stored and live reserved bytes stay within the total and each owner's quota |
| UploadRuns.AppendsExactlyOnce | crates/alloyport-artifacts/src/upload_metadata_contract_tests.rs:584-621 | a session's bytes are exactly its accepted chunks in order, within both limits; a completed one's artifact is their digest |
| UploadLaws.UploadLives | crates/alloyport-artifacts/src/upload_metadata_contract_tests.rs:825-844 | over every ordered run an upload stays, under its name and with its bytes, until its expiry, and a completed one for ever |
| UploadLaws.PrunedExactly | crates/alloyport-artifacts/src/upload_metadata_contract_tests.rs:825-844 | pruning removes exactly the unfinished uploads whose time is over, and frees their names |
| UploadLaws.ReservedIsOpen | crates/alloyport-artifacts/src/upload_metadata_contract_tests.rs:1004-1014 | after every run what is reserved is the size of the uploads that can still be completed |
| UploadLaws.OpensExactly | crates/alloyport-artifacts/src/upload_metadata_contract_tests.rs:533-572 | a new name is opened exactly when the request is well formed and fits both quotas |
| UploadLaws.BeginIsIdempotent | crates/alloyport-artifacts/src/upload_metadata_contract_tests.rs:533-572 | after anything in between, the same upload is given back as it now is, and another one under its name is refused |
| UploadLaws.UploadSucceeds | crates/alloyport-artifacts/src/upload_metadata_contract_tests.rs:533-710 | after every run: an upload that is opened, sent in chunks of any lengths and finalized in time is stored and referred to |
| UploadLaws.TakesExactly | crates/alloyport-artifacts/src/upload_metadata_contract_tests.rs:584-621 | a chunk is taken exactly when it continues an open upload of its owner in time and within size |
| UploadLaws.CompletesExactly | crates/alloyport-artifacts/src/upload_metadata_contract_tests.rs:623-710 | an upload is completed exactly when due, complete and genuine; wrong bytes fail it for good |
| UploadLaws.PublishesExactly | crates/alloyport-artifacts/src/upload_metadata_contract_tests.rs:677-710 | a completed upload stores its object once and is referred to under its own name; anything else leaves objects, references and other uploads alone |
| UploadLaws.GrantsExactly | crates/alloyport-artifacts/src/upload_metadata_contract_tests.rs:781-821 | when a reference under a new name is granted, and what is recorded |
| UploadLaws.GrantIsIdempotent | crates/alloyport-artifacts/src/upload_metadata_contract_tests.rs:781-821 | a taken name is never granted again, and says why |
| UploadLaws.RevokesOnce | crates/alloyport-artifacts/src/upload_metadata_contract_tests.rs:858-874 | revoking marks a reference once |
| UploadLaws.CollectableExactly | crates/alloyport-artifacts/src/upload_metadata_contract_tests.rs:876-903 | an object may be collected exactly when nothing active, retained or still to be completed names it |
| UploadRetention.RetainedSurvivesExactly | crates/alloyport-artifacts/src/upload_metadata_contract_tests.rs:876-903 | a reference retains its object through a run before its time exactly when no upload of the same owner completes in that run under the reference's name |
| UploadRetention.RetainedSurvives | crates/alloyport-artifacts/src/upload_metadata_contract_tests.rs:1087-1102 | a reference outside the `upload:` names retains its object through every run before its time, whatever anyone else does |
| UploadRetention.UnrevokedIsPresent | crates/alloyport-artifacts/src/upload_metadata_contract_tests.rs:1087-1102 | the object of every unrevoked reference is present after every run |
| UploadRetention.NamedGrantLosesRetention | crates/alloyport-artifacts/src/upload_metadata_contract_tests.rs:685-701 | otherwise what only that grant protected can be collected at once |
| UploadRetention.RetentionCanBeLost | crates/alloyport-artifacts/src/upload_metadata_contract_tests.rs:685-701 | a run of eight operations in which a retained object is collected before its time |
| UploadRetention.RecordLocalQuota | crates/alloyport-artifacts/src/upload_metadata_contract_tests.rs:758-779 | after recording a local artifact the total holds exactly when there was room |
| UploadRetention.LocalArtifactExceedsQuota | crates/alloyport-artifacts/src/upload_metadata_contract_tests.rs:758-779 | an artifact larger than the whole quota is recorded in an empty store |
| UploadStore.MemoryUploadMetadataStore.TotalStored | crates/alloyport-artifacts/src/upload_metadata_contract_tests.rs:1003-1003 | sums the stored bytes |
| UploadStore.MemoryUploadMetadataStore.TotalReserved | crates/alloyport-artifacts/src/upload_metadata_contract_tests.rs:1004-1014 | sums the live reservations |
| UploadStore.MemoryUploadMetadataStore.OwnerStoredBytes | crates/alloyport-artifacts/src/upload_metadata_contract_tests.rs:1050-1061 | sums an owner's distinct active contents |
| UploadStore.MemoryUploadMetadataStore.OwnerReservedBytes | crates/alloyport-artifacts/src/upload_metadata_contract_tests.rs:1063-1077 | sums an owner's live reservations |
| UploadStore.MemoryUploadMetadataStore.Begin | crates/alloyport-artifacts/src/upload_metadata_contract_tests.rs:533-572 | leaves exactly the specified store and gives exactly the specified answer |
| UploadStore.MemoryUploadMetadataStore.Append | crates/alloyport-artifacts/src/upload_metadata_contract_tests.rs:584-621 | the same for append |
| UploadStore.MemoryUploadMetadataStore.Finalize | crates/alloyport-artifacts/src/upload_metadata_contract_tests.rs:623-710 | the same for finalize |
| UploadStore.MemoryUploadMetadataStore.Grant | crates/alloyport-artifacts/src/upload_metadata_contract_tests.rs:781-821 | the same for a grant |
| UploadStore.MemoryUploadMetadataStore.Revoke | crates/alloyport-artifacts/src/upload_metadata_contract_tests.rs:858-874 | the same for a revocation |
| UploadStore.MemoryUploadMetadataStore.PruneExpired | crates/alloyport-artifacts/src/upload_metadata_contract_tests.rs:825-844 | removes exactly the expired sessions from both indexes, and counts them |
| UploadStore.MemoryUploadMetadataStore.CollectGarbage | crates/alloyport-artifacts/src/upload_metadata_contract_tests.rs:876-903 | removes only unreachable objects, the first ones in digest order, at most the limit, all of them when fewer, and reports what was reclaimed |
| BundleIdentity.TopByteIsZero | crates/alloyport-core/src/generation.rs:410-427 | a length below 2^56 starts with a zero byte, which no kind is |
| BundleIdentity.EntriesRead | crates/alloyport-core/src/generation.rs:405-430 | the preimage is uniquely decodable, although nothing separates files from notes |
| BundleIdentity.OrderDoesNotMatter | crates/alloyport-core/src/generation.rs:407-427 | neither the order of files nor of notes matters |
| ByteOrder.DictionaryOrder | crates/alloyport-core/src/generation.rs:407-409 | files are ordered as in a dictionary: a prefix first, and otherwise by the first difference |
| BundleIdentity.IdentityIsCanonical | crates/alloyport-core/src/generation.rs:405-430 | two bundles share a preimage exactly when they have the same files and the same notes |
| BundleIdentity.GeneratedSourcePreimage | crates/alloyport-core/src/generation.rs:405-430 | the loops write exactly that preimage |
| BundleIdentity.NewChange | crates/alloyport-core/src/generation.rs:348-370 | accepts exactly up to 32 files with distinct paths and no empty note |
| BundleIdentity.EmptyChange | crates/alloyport-core/src/generation.rs:348-370 | a change without files or notes is accepted |
| BundleIdentity.NewBundle | crates/alloyport-core/src/generation.rs:279-308 | and all four kinds |

## Left out

- Records are values: an episode record is replaced as a whole, as the repository's clones are; no
  two holders share one.
- Integer widths other than the episode's 32-bit counters and the tolerance's 16, 32 and 64 bits:
  marks, byte counts and clocks are unbounded, so saturation and overflow at 64 bits are not modelled,
  nor is the saturation of upload and pair counters.
- Effect classes, media types, environment and worker facts, narrative digests and the digests of
  policies and experiments beyond the identity they stand for.
- The separators inside an operation identity: its preimage is taken to be injective.
- `digest_semantic_turn` and the experiment and implementation digests: no injectivity is claimed.
- The internal steps of model attempts and turns, whose module is not part of this model: only the
  moves that the runner makes.
- `check_arguments` and `validate_call`: JSON checks, given as the calls that a catalog refuses.
- CorrectnessCompletes: says what the cited build receipt says, not who wrote it, because that is what
  the correctness gate checks.
- What makes a valid execution bundle: its identity is any partial function of a role and a tree. That
  a build observation is bound to its bundle is part of what the build worker is observed to answer.
- IEEE rounding: the oracle's arithmetic is exact. An infinite output in the repetition loop counts as
  a disagreement; it is reported as non-finite either way.
- The order in which oracle failures and Source Gate findings are listed in a receipt, and the mutants
  themselves: which failures there are is proved, and the battery is any function.
- Commit-message text: any function of the candidate, its files and whether its parent is recorded.
- Concurrent `finalize`, which drops its lock between two phases: operations are atomic here.
- SQLite and filesystem adapters, gRPC, TLS, the command line, workers, git itself, materialization
  and the reference corpus: input and output, or easy members.
- Unicode: text is a sequence of characters, blanks are the four ASCII ones, and stream and bundle
  bytes are characters below 256.
