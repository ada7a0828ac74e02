# Verification of the governed work-run protocol and its adapters

This project models GearMeshing-AI in Dafny 4.11 and proves properties of the model. All of it is
verified together with `dafny verify dfyconfig.toml`.

The centre is the **governed work-run protocol**. A work run is an append-only audit history with
its lifecycle rules (`WorkRuns`, `RunLifecycles`). An orchestrator resumes it from a checkpoint and
drives it through execution, verification, bounded remediation and Draft PR publication
(`WorkflowStages`, `WorkflowRunner`). A store keeps one checkpoint for each run and replaces it by
compare-and-swap (`CheckpointStore`). `RunHistories` puts these together as a transition system. Any
number of invocations and of `cancel` and `retry` commands share one checkpoint, interleave at every
external call, and may crash at any point. The ports answer whatever they like. `RunReports` says when
the provider is told what about a finished run (`OutcomeReports`), `RunExecutions` how often the executor
is called and with what, `RunCommands` exactly when a command takes effect, `StageTimes` and
`RunTimes` which time every event carries, and `RunExamples` holds concrete histories.
`InvocationHistories` ties the code back to that system: every invocation of the imperative runner is
one of its histories. `RunCompletes` says exactly when an invocation completes its run, in terms of
the answers of the ports alone.

Around the protocol stand the adapters that have an algorithm of their own:

- `JiraAdf`: the document reader with its mutable budget, and the printer that it undoes;
  `AdfExamples`: how blocks are joined, and a document read step by step.
- `JiraComments`, `JiraHistories`: idempotent publication by a paged search and a creation, over an
  issue to which others append, with throttled, refused, lost and garbled responses;
  `JiraReceipts`: what a caller is told, and what the comment then says.
- `ClaudeSession`, `ExecutionResults`: the executor's event stream, its limits and cancellations;
  `StreamEnds`: how a stream settles, with the outcomes and codes spelled out; `UnfitLines`: exactly
  which lines make it raise; `ReportedNames`: under which names it reports changed files.
- `GitWorktrees`, `WorktreeManager`: one worktree for each run, over a small model of Git.
- `UntrustedText`: the escaping that keeps untrusted text from imitating its tags.
- `DockerSandbox`, `QualityChecks`: mounts, sessions and batches of checks.

`Text`, `PosixPaths`, `JsonValues` and `Wrappers` hold what these share.

## How the model is made

- Immutable classes with checking constructors are datatypes, with a `Make…` function for the
  constructor. Classes that update their fields are classes. Loops are loops.
- An exception is the `Err` of a `Result`. The fault types keep the kinds of exception apart that a
  caller can tell apart.
- Library functions are parameters that are only assumed to be functions: Unicode categories, case
  mapping, `urlsplit`, SHA-256, time formats, media types, symbolic links. Where a law is needed it
  is a hypothesis with a name: `TimesRoundTrip`, `CaseIsStable`, `LineFeedIsControl`,
  `PrintableIsPlain`, `CollisionFree`, `SettingOk`.
- What the outside world does is an argument: the answers of one pass of the loop (`Response`), what
  happens while a session waits (`Script`), how each HTTP request (`Weather`) and each Git command
  (`Fate`) fares.
- Inside long proofs, `hide` keeps definitions that a step does not need out of its way.

## What turned out not to hold

- **A checkpoint can be saved that can never be loaded.** Detail keys are checked for uniqueness
  before they are trimmed (`gearmeshing_ai/domain/work_run.py:160-175`), so ` note` and `note` pass
  together. Their file is rejected on every later load. `RoundTrip` says exactly when a run is read
  back, `TrimmedKeysCollide` gives the event, and `CheckpointsAreReadBack` shows that neither the
  runner nor the commands ever write one. Otherwise reading is lenient: the stated schema version is
  never looked at (`VersionIsIgnored`), and some events that were not written so are read
  (`LooseEventIsRead`).
- **The validator accepts more than the operations can build**: artifacts attached to a finished
  run, extra details on the Draft PR event, and a first event that is not a plain approval.
  `AcceptedIsBuilt` gives the exact condition. Up to the first two, every accepted run that opens
  with approval can be built: without the extra details (`UnfinishedIsBuilt`), and, if it is
  finished, without the artifacts attached afterwards (`FinishedTail`).
- **Execution is not exactly-once.** The comment at
  `gearmeshing_ai/application/workflow_runner.py:278` says that it always runs once. After a crash
  between the executor's answer and the save it runs again: `CrashRepeatsExecution` is such a
  history. It runs at most once if no invocation starts while the stored run is executing
  (`AtMostOneExecution`), and each invocation that takes over an executing run adds one call, if the
  gate agrees (`ExecutionsAreBounded`, `ResumptionExecutesAgain`). What always holds is
  `OneSpecification`: all calls are the same request, with the approved content.
- **A checkpoint that is publishing and has recorded its Draft PR already cannot be completed**,
  because recording it again is refused. This is one clause of the exact condition of `PassGoesOn`.
- **`retry` does more than its help text says** (`gearmeshing_ai/interfaces/cli.py:426-434`). It
  also succeeds on an executing run and sends it to verification with nothing executed
  (`RetryOutcome`, and the last case of `EvidenceIsExplained`).
- **Reports are at most once, not at least once.** `WhenReportIsLost` says exactly when a finished
  run is never reported: a command finished it, its process crashed before the report, or the update
  could not be built. The last needs no crash (`ReportedWithoutCrash`). A run id of 242 to 255
  characters is accepted, but makes the idempotency key of a blocker too long (`LongIdLosesReport`);
  a Draft PR URL with a query passes `gearmeshing_ai/domain/work_run.py:36-49`, and the completed run
  is saved, but `gearmeshing_ai/application/ports/work_management.py:64-86` refuses it as evidence
  (`PublicationIsReported`). Neither is made up for later (`LostReportStaysLost`).
- **A repeated publication does not return quite the same receipt.** Only the call that created the
  comment gets the digest of the operation (`gearmeshing_ai/adapters/jira_work_management.py:590-598`);
  one that finds the comment does not (`:517-525`). `SameReceipt` says that this is the only difference.
- **Some printed Jira comments cannot be read back under the default limits**, from 4095 characters
  on (`DefaultLimitsAreExceeded`).
- **Some accepted run ids cannot become branches**: those with `..`, or ending in `.` or `.lock`
  (`WhichBranchesAreRefs`), for example `a..b` (`DottedIdIsNoRef`).
- **A cleanup can report success and leave the branch behind**: `_branch_exists`
  (`gearmeshing_ai/adapters/git_worktree.py:273-275`) reads every failure of `git rev-parse` as
  absence. `Cleanup` says exactly when that happens, and `LeaveBranchBehind` does it.
- **A change outside the workspace can make the executor's stream raise instead of settle as
  blocked**, because its path is too long for the message or has a control character
  (`UnprintableChangeRaises`, for all three kinds of violation). So can other lines:
  `UnfitLineRaises` says exactly which. Streams without them settle (`FitStreamSettles`), undisturbed
  streams with one raise (`QuietStreamRaises`), and `BellStreamRaises` is one.
- **A changed file whose name begins or ends with a space is reported under the trimmed name**, which
  can be the name of another file: exactly when is said by `OwnNames` and `NamesCollide`, and
  `SpacedFileIsMisnamed` gives the files.

## Model

| member | source | states |
|---|---|---|
| WorkRuns.ApproveEffect | gearmeshing_ai/domain/work_run.py:227-248 | approval succeeds exactly when its event is acceptable and the run id is an identifier; the result is the one-event run, and it is valid |
| WorkRuns.TransitionEffect | gearmeshing_ai/domain/work_run.py:251-271 | a transition succeeds exactly when the move is allowed, the event is acceptable, time does not run backwards and completion has a Draft PR; it then adds that one event, keeps every part of the invariant and extends the run; the two kinds of refusal are told apart |
| WorkRuns.AttachEffect | gearmeshing_ai/domain/work_run.py:273-303 | an artifact is attached exactly when the run is unfinished, the id is new, the event is acceptable and time does not run backwards; exactly that artifact and its audit event are added |
| WorkRuns.RecordEffect | gearmeshing_ai/domain/work_run.py:305-331 | a Draft PR is recorded exactly while publishing, once, for a pull URL of the right repository, with time not running backwards; the event carries exactly the URL |
| WorkRuns.HistoryAppend | gearmeshing_ai/domain/work_run.py:188-224 | a history followed by one event is a legal history exactly when it was one, the sequence is the next, time does not run backwards and the state stays or makes an allowed move |
| RunLifecycles.LegalHistories | gearmeshing_ai/domain/work_run.py:188-202 | a history is legal exactly when its events are numbered from 1, its times do not run backwards, and the states it goes through are a lifecycle: approved, executing, then verdicts with one correction between two of them, then a stop, or after a verdict publication and what may come of it |
| WorkRuns.AuditIsSafe | gearmeshing_ai/domain/work_run.py:147-175 | in every event of a valid run an identifier acted, and every detail has an identifier without credential markers as its key and a trimmed value of 1 to 2048 characters without control characters |
| WorkRuns.ArtifactDetailsAreTrimmed | gearmeshing_ai/domain/work_run.py:273-303 | the audit event of an accepted artifact holds its fields unchanged, under distinct keys |
| WorkRuns.ArtifactDetailsAreRead | gearmeshing_ai/domain/work_run.py:287-303 | each field of an artifact can be read off its audit event under its own key, and a digest only if there is one |
| CheckpointValidation.WalkCheckpointHistory | gearmeshing_ai/application/workflow_runner.py:234-251 | the loop accepts exactly the histories whose every later event is legal, and then returns the artifact events and the Draft PR events, complete and in order |
| CheckpointValidation.ValidateCheckpoint | gearmeshing_ai/application/workflow_runner.py:228-275 | the three checks together accept exactly the runs satisfying `Accepted` |
| CheckpointValidation.ApplyKeeps | gearmeshing_ai/application/workflow_runner.py:228-275 | each of the three operations keeps a run valid, acceptable to the validator, and clean |
| CheckpointValidation.ValidationIsComplete | gearmeshing_ai/application/workflow_runner.py:228-275 | every run that can be built by approval and the three operations is valid and passes the validator |
| CheckpointValidation.AcceptedIsBuilt | gearmeshing_ai/application/workflow_runner.py:228-275 | an accepted run can be built by the operations if and only if it is clean: it opens with a plain approval event, attaches nothing in a finished state, and its Draft PR event has one detail |
| CheckpointValidation.PrefixIsBuilt | gearmeshing_ai/application/workflow_runner.py:228-275 | the first k events of an accepted run that opens with approval are rebuilt, event by event, by k - 1 calls of the operations, if the events among them are clean; what comes later does not matter |
| CheckpointValidation.PrefixIsAccepted | gearmeshing_ai/application/workflow_runner.py:228-275 | every prefix of an accepted valid run is itself valid and passes the validator |
| CheckpointValidation.UnfinishedIsBuilt | gearmeshing_ai/application/workflow_runner.py:228-275 | an accepted run that is unfinished or has just finished can be built exactly when it opens with approval and its Draft PR event is plain; stripped of what that event says beyond the URL it is valid, accepted, and buildable exactly when it opens with approval |
| CheckpointValidation.PlainFixpoint | gearmeshing_ai/application/workflow_runner.py:268-275 | stripping changes a run exactly when its Draft PR event says more than the URL |
| CheckpointValidation.FinishedTail | gearmeshing_ai/application/workflow_runner.py:234-251 | an accepted finished run is a stem that has just finished, followed only by `artifact_attached` events; the stem is valid and accepted, it is built by given steps exactly when the run opens with approval with a plain Draft PR event, and stripped it is buildable exactly when the run opens with approval |
| CheckpointValidation.LateEvidenceIsAccepted | gearmeshing_ai/application/workflow_runner.py:239-241 | concretely: a finished run with one more attached artifact passes the validator, although `attach_artifact` would refuse it |
| WorkItems.ContentIsInjective | gearmeshing_ai/application/ports/work_management.py:185-194 | on valid work items the hashed text determines the title, the description and the acceptance criteria |
| WorkItems.ContentLines | gearmeshing_ai/application/ports/work_management.py:185-194 | the lines of the hashed text of a valid work item are its title, its description and its acceptance criteria, in that order |
| WorkItems.ContentWithCriteria | gearmeshing_ai/application/ports/work_management.py:185-194 | concretely: an item with two criteria and space around its parts gives four trimmed lines in that order |
| WorkflowStages.AttachAllEffect | gearmeshing_ai/application/workflow_runner.py:369-377 | attaching in order either fails or adds exactly the given artifacts, each with its audit event, and nothing else |
| WorkflowStages.ArtifactsAreFiles | gearmeshing_ai/application/workflow_runner.py:294-308 | an execution report becomes evidence exactly when every file is a valid artifact: one for each file, in order, with its trimmed path, its address under the execution and the digest of its content |
| WorkflowStages.ConcludeProgress | gearmeshing_ai/application/workflow_runner.py:382-402 | a finished stage makes one allowed transition: to its target with all evidence attached, to failure with all of it and the given code, or to failure with none of it |
| WorkflowStages.ExecuteDecides | gearmeshing_ai/application/workflow_runner.py:277-308 | a denied run is blocked with nothing executed; verification is reached only through an allowed, completed execution; evidence is kept whole or not at all |
| WorkflowStages.VerifyProgress | gearmeshing_ai/application/workflow_runner.py:315-329 | publishing is entered only on a passed verdict, remediation only on a failed one with attempts left, and what is saved is the verified run plus exactly the verifier's evidence |
| WorkflowStages.VerifyDecides | gearmeshing_ai/application/workflow_runner.py:315-329 | once the evidence is attached, the verdict and the number of remediations so far determine the next state |
| WorkflowStages.RemediateDecides | gearmeshing_ai/application/workflow_runner.py:331-337 | re-verification is reached only after a correction, with all of its evidence |
| WorkflowStages.PublishProgress | gearmeshing_ai/application/workflow_runner.py:339-345 | publication completes the run with exactly the URL it recorded, or fails it |
| WorkflowStages.AdvanceProgress | gearmeshing_ai/application/workflow_runner.py:158-170 | whatever the ports answer, every pass that saves makes exactly one allowed transition on an extension of the run, and never cancels it |
| WorkflowStages.AdvanceKeeps | gearmeshing_ai/application/workflow_runner.py:158-170 | every pass keeps all of its stage's evidence, or none of it and fails |
| StageTimes.AdvanceIsStamped | gearmeshing_ai/application/workflow_runner.py:414-420 | whatever a pass saves, the k-th event that it adds has the orchestrator as actor and the instant of the k-th reading of the clock; readings are passed over only in front of a failure, as many as the failed steps had taken |
| RunCompletes.PassGoesOn | gearmeshing_ai/application/workflow_runner.py:158-170 | a pass takes the run on exactly when everything it needs is there, told from the answers of the ports alone: an actor, readings in order for every event, new evidence that the audit log takes, and what its stage asks for; it then leads where the state and the verdict say |
| WorkflowStages.ProgressSpends | gearmeshing_ai/application/workflow_runner.py:158-170 | every save strictly lowers the measure of saves that can still follow |
| RunHistories.HistoryKeeps | gearmeshing_ai/application/workflow_runner.py:147-173 | one inductive invariant over all interleavings of runner invocations, compare-and-swap saves, `cancel` and `retry` commands, reports and crashes |
| RunHistories.SavesOnlyExtend | gearmeshing_ai/runtime/checkpoint_store.py:224-229 | in every history each successful save replaces exactly the checkpoint saved before it by a strict extension: events grow, artifacts grow as a prefix, identity and a recorded Draft PR never change, a finished checkpoint is never replaced; every stored run passes the validator and can be built by the operations |
| RunTimes.EventsCarryTheClock | gearmeshing_ai/application/workflow_runner.py:414-420 | in every history, every event that a runner's save adds, that of an item that is not ready included, carries the orchestrator's name and the instant of the reading that was taken for it; a command's event carries the command's |
| RunReports.AtMostOneReport | gearmeshing_ai/application/workflow_runner.py:347-367 | in every history at most one outcome report is ever attempted; it comes from the invocation whose save finished the run, that run is what is stored, and every field of the report is spelled out: its key, and completion with the recorded Draft PR, or the blocker with the failure code of the stage, of the denied policy or of the item that is not ready, and the reason where there is one |
| RunReports.AdvanceStops | gearmeshing_ai/application/workflow_runner.py:277-345 | whatever stage stops a run writes the code that the answers of its ports call for, and the stage or the reason, into the last event |
| RunReports.NoticeIsBuilt | gearmeshing_ai/application/ports/work_management.py:311-352 | the update about a run that a runner finished can be built exactly when the issue key and the idempotency key have at most 256 characters and, for completion, the Draft PR URL passes the rule for evidence URLs |
| RunReports.PublicationIsReported | gearmeshing_ai/application/ports/work_management.py:64-86 | a published run completes with any URL that the Draft PR rule accepts, and can be reported exactly when the stricter rule for evidence URLs accepts it too and the keys fit |
| OutcomeReports.CompletionIsReported | gearmeshing_ai/application/ports/work_management.py:333-352 | a completed run gives exactly the completion update with its Draft PR, or the exception: exactly when |
| OutcomeReports.StopIsReported | gearmeshing_ai/application/ports/work_management.py:311-330 | a stopped run gives exactly the blocker update with its reason, or the exception: exactly when |
| RunReports.WhenReportIsLost | gearmeshing_ai/application/workflow_runner.py:157-173 | in every history, a finished run is never reported exactly when a command finished it, or its process crashed between its last save and its report, or the update was refused; the last only if the keys or the URL do not fit |
| RunReports.ReportedWithoutCrash | gearmeshing_ai/application/workflow_runner.py:157-173 | in every history without a crash, a run that a runner finished has been reported exactly when its keys and URL fit, or its process is about to report and then does so exactly when they fit |
| RunExecutions.ExecutionsAreBounded | gearmeshing_ai/application/workflow_runner.py:277-292 | in every history the executor is called at most once, and once more for each invocation that took over an executing checkpoint |
| RunExecutions.AtMostOneExecution | gearmeshing_ai/application/workflow_runner.py:277-292 | if no invocation of the history starts while the stored run is executing, the executor is called at most once |
| RunExecutions.ResumptionExecutesAgain | gearmeshing_ai/application/workflow_runner.py:277-292 | after every history, an invocation that takes over an executing checkpoint and whose gate agrees calls the executor exactly once more |
| RunExamples.CrashRepeatsExecution | gearmeshing_ai/application/workflow_runner.py:277-292 | a concrete history in which the process dies between the executor and the save, and the next invocation executes the same request again |
| RunReports.LostReportStaysLost | gearmeshing_ai/application/workflow_runner.py:157-173 | a lost report is never made up for, whatever follows |
| RunExamples.CrashLosesReport | gearmeshing_ai/application/workflow_runner.py:198-200 | a concrete history that loses the report of a run fit to be reported, by a crash between the save and the report |
| RunExamples.LongIdLosesReport | gearmeshing_ai/application/workflow_runner.py:347-348 | a concrete history without any crash that loses the report of a run whose id has 250 characters |
| RunHistories.PublishedIsVerified | gearmeshing_ai/application/workflow_runner.py:315-329 | a publishing checkpoint was saved by a runner whose verifier passed exactly the checkpoint before it, with only that verifier's evidence in between; a completed one directly follows such a checkpoint |
| RunHistories.EvidenceIsExplained | gearmeshing_ai/application/workflow_runner.py:277-345 | each save adds exactly what its stage's port handed over, or fails and adds nothing; verification is entered only after an allowed and completed execution, after a correction, or by `retry` |
| RunHistories.WorkIsBounded | gearmeshing_ai/application/workflow_runner.py:315-329 | over all resumptions and concurrent runners with the same limit, the stored run never exceeds the limit of remediations, and at most 2 * limit + 5 saves ever succeed |
| RunExecutions.OneSpecification | gearmeshing_ai/application/workflow_runner.py:426-448 | in every history each executed request is for the first execution of the approved run, names its issue, revision, digest and approver, and has as the lines of its content the title, the description and the criteria of the item that was read, in that order; with a collision-free digest these are the approved ones, and all executions are one and the same request |
| RunHistories.RetryOutcome | gearmeshing_ai/interfaces/cli.py:420-441 | `retry` succeeds exactly from executing and remediating, with an acceptable actor and clock, and adds no evidence |
| RunCommands.CommandTakesEffect | gearmeshing_ai/interfaces/cli.py:407-441 | after every history, a command that saves with nobody in between adds one save exactly when an unfinished run is stored (for `retry`, an executing or remediating one), the actor is an identifier and the clock has not run backwards; what is stored then is that run in the target state, with one event more by that actor at that instant; otherwise nothing changes |
| RunCommands.CancelledStays | gearmeshing_ai/interfaces/cli.py:405-411 | once the stored run is cancelled, nothing that was under way or is started later saves or reports anything |
| RunExamples.CancelStopsExecution | gearmeshing_ai/interfaces/cli.py:405-411 | a concrete history that cancels an executing run, and whose executing invocation can no longer save |
| ReadableRuns.AdvanceReadable | gearmeshing_ai/application/workflow_runner.py:158-170 | a pass of the loop writes a checkpoint that is as readable as the one it started from |
| ReadableRuns.CheckpointsAreReadBack | gearmeshing_ai/runtime/checkpoint_store.py:224-229 | every checkpoint of every history, written to its file and read again, is the same checkpoint |
| CheckpointStore.EventRoundTrip | gearmeshing_ai/runtime/checkpoint_store.py:144-159 | an event is read back exactly when its detail keys are distinct, and is otherwise rejected |
| CheckpointStore.ArtifactRoundTrip | gearmeshing_ai/runtime/checkpoint_store.py:89-95 | an accepted artifact is read back unchanged |
| CheckpointStore.CorrelationRoundTrip | gearmeshing_ai/runtime/checkpoint_store.py:105-124 | an accepted correlation is read back unchanged |
| CheckpointStore.RoundTrip | gearmeshing_ai/runtime/checkpoint_store.py:54-141 | a saved valid run is read back exactly if and only if no event repeats a detail key; otherwise loading it fails |
| CheckpointStore.TrimmedKeysCollide | gearmeshing_ai/domain/work_run.py:160-175 | concretely: an event with the keys `note` and ` note` is accepted, and has two equal keys afterwards |
| CheckpointStore.VersionIsIgnored | gearmeshing_ai/runtime/checkpoint_store.py:105-141 | the schema version that a file states changes nothing about how it is read |
| CheckpointStore.LooseEventIsRead | gearmeshing_ai/runtime/checkpoint_store.py:144-159 | an event is also read with `true` for its number one, and with a pair of characters written as one text |
| CheckpointStore.LoadedIsValid | gearmeshing_ai/runtime/checkpoint_store.py:105-170 | whatever a file contains, what loads at all satisfies the whole invariant of the aggregate |
| CheckpointStore.JsonFileCheckpointStore.Loaded | gearmeshing_ai/runtime/checkpoint_store.py:218-222 | what a load gives in any state of the store is a valid run, if it gives a run |
| CheckpointStore.JsonFileCheckpointStore.Load | gearmeshing_ai/runtime/checkpoint_store.py:218-222 | loading returns what the store holds under the id |
| CheckpointStore.JsonFileCheckpointStore.Save | gearmeshing_ai/runtime/checkpoint_store.py:224-229 | compare-and-swap: the file is replaced exactly when what it holds is what the caller expects, no other file changes, and a later load finds the saved run unless it repeats a detail key |
| WorkflowRunner.WorkflowRunner.AttachAll | gearmeshing_ai/application/workflow_runner.py:369-377 | the loop attaches as `WorkflowStages.AttachAll` says, and leaves the same clock readings |
| WorkflowRunner.WorkflowRunner.TransitionFrom | gearmeshing_ai/application/workflow_runner.py:382-389 | the transition is saved over exactly the expected checkpoint, with one event of the orchestrator at the clock's reading, or the exception of the step that failed is raised and nothing changes |
| WorkflowRunner.WorkflowRunner.FailFrom | gearmeshing_ai/application/workflow_runner.py:394-402 | the same for the transition to failure, whose event has the stage and the code |
| WorkflowRunner.WorkflowRunner.Execute | gearmeshing_ai/application/workflow_runner.py:277-292 | the stage saves what `WorkflowStages.Execute` decides, over exactly the run it started from |
| WorkflowRunner.WorkflowRunner.Verify | gearmeshing_ai/application/workflow_runner.py:315-329 | the stage saves what `WorkflowStages.Verify` decides, over exactly the run it started from |
| WorkflowRunner.WorkflowRunner.Remediate | gearmeshing_ai/application/workflow_runner.py:331-337 | the stage saves what `WorkflowStages.Remediate` decides, over exactly the run it started from |
| WorkflowRunner.WorkflowRunner.Publish | gearmeshing_ai/application/workflow_runner.py:339-345 | the stage saves what `WorkflowStages.Publish` decides, over exactly the run it started from |
| WorkflowRunner.WorkflowRunner.Ingest | gearmeshing_ai/application/workflow_runner.py:202-215 | the approved run is saved if nothing is stored; otherwise the stored checkpoint is returned exactly when it passes the validator and continues the approved run |
| WorkflowRunner.WorkflowRunner.BlockOnUnready | gearmeshing_ai/application/workflow_runner.py:187-200 | an item that is not ready blocks and reports a run without a checkpoint, and changes nothing for one that has a checkpoint |
| WorkflowRunner.WorkflowRunner.ReportOutcome | gearmeshing_ai/application/workflow_runner.py:347-367 | if the update about the run can be built, exactly that notice is sent, and a delivery failure is raised; if not, nothing is sent and the exception of the constructor is raised |
| WorkflowRunner.WorkflowRunner.Loop | gearmeshing_ai/application/workflow_runner.py:158-170 | the loop terminates and saves exactly the checkpoints of `Continue` |
| WorkflowRunner.WorkflowRunner.Run | gearmeshing_ai/application/workflow_runner.py:147-173 | the result, the notices sent and the file left behind by one invocation are those of `Invoke`, whatever the store held; a report whose update is refused is not sent and raises |
| InvocationHistories.JourneyIsBounded | gearmeshing_ai/application/workflow_runner.py:158-170 | from any sound run, the saves of the loop and its visits of each state are bounded, whatever the ports answer |
| InvocationHistories.FreshRunIsBounded | gearmeshing_ai/application/workflow_runner.py:158-170 | a fresh run saves at most 2 * limit + 4 transitions, executes and publishes at most once, verifies at most limit + 1 times and remediates at most limit times |
| RunTimes.LoopCarriesTheClock | gearmeshing_ai/application/workflow_runner.py:414-420 | in the loop of one invocation every save is stamped with the clock of its own pass |
| RunCompletes.CompletesExactly | gearmeshing_ai/application/workflow_runner.py:158-170 | the loop completes a run exactly when every pass on the way finds what it needs; it returns the run it saved last |
| RunCompletes.InvocationCompletes | gearmeshing_ai/application/workflow_runner.py:147-173 | with a ready item, an invocation returns a completed run exactly when the item and the checkpoint are those of the approved run and the checkpoint is completed, or every pass finds what it needs and the report fits and is delivered; it has then sent exactly the one completion notice |
| RunCompletes.UnreadyInvocation | gearmeshing_ai/application/workflow_runner.py:187-200 | with an item that is not ready, an invocation returns the checkpoint there is, or saves exactly the approved run, blocked by one event with the reason, if the actor, the clock and the reason allow it |
| InvocationHistories.LoopIsHistory | gearmeshing_ai/application/workflow_runner.py:158-170 | what the loop saves and sends is done by actions of the protocol system |
| InvocationHistories.InvocationIsHistory | gearmeshing_ai/application/workflow_runner.py:147-173 | whatever an invocation saves and sends on a store holding what a history stored, a continuation of that history saves and sends |
| JiraAdf.Budget.ConsumeNode | gearmeshing_ai/adapters/jira_adf.py:29-32 | a node costs one, and the failed attempt costs it too |
| JiraAdf.Budget.ConsumeText | gearmeshing_ai/adapters/jira_adf.py:34-38 | a text costs its length, and the failed attempt costs it too |
| JiraAdf.Render | gearmeshing_ai/adapters/jira_adf.py:48-72 | reading a node succeeds exactly when the tree is well-formed, no deeper than 32 and within both budgets; it then returns the unbudgeted rendering and has spent exactly what the tree costs |
| JiraAdf.RenderChildren | gearmeshing_ai/adapters/jira_adf.py:65 | the same for a list of nodes, read in order |
| JiraAdf.ReadBlocks | gearmeshing_ai/adapters/jira_adf.py:82-98 | the loop over the blocks succeeds exactly when they fit, and gathers the texts and the sections |
| JiraAdf.ParseAdf | gearmeshing_ai/adapters/jira_adf.py:75-101 | reading a document gives `Parsed`: decided by its shape, depth and total cost, with its blocks and sections |
| AdfExamples.DocumentIsJoined | gearmeshing_ai/adapters/jira_adf.py:75-101 | the text of every document that is read is its trimmed non-empty blocks separated by empty lines, and each section joins the blocks under its heading in the same way |
| AdfExamples.ExampleIsRead | gearmeshing_ai/adapters/jira_adf.py:41-101 | a concrete document with a heading, a list and line breaks, and the text and sections it is read as |
| JiraAdf.PartsAreUnder | gearmeshing_ai/adapters/jira_adf.py:94-100 | a text is in a section exactly when its nearest preceding heading bears that section's folded name; the texts are in document order, repeated headings merged |
| JiraAdf.ParagraphDocument | gearmeshing_ai/adapters/jira_adf.py:104-127 | the printer's loop builds exactly the document `Printed`, or refuses an empty or overlong text |
| JiraAdf.ParagraphMeasures | gearmeshing_ai/adapters/jira_adf.py:115-122 | a printed paragraph is flat, says its lines, and costs at most one node for each character |
| JiraAdf.PrintThenParse | gearmeshing_ai/adapters/jira_adf.py:75-127 | what is printed is read back as the trimmed text with no sections exactly when the limits cover the printed nodes and characters |
| JiraAdf.RoundTripWithin | gearmeshing_ai/adapters/jira_adf.py:75-127 | limits of two nodes more than the trimmed text has characters, and of its characters, always suffice: 4094 characters at the default limits, every accepted text with 10002 nodes |
| JiraAdf.DefaultLimitsAreExceeded | gearmeshing_ai/adapters/jira_adf.py:75 | the bound is sharp: a text of 4095 characters is printed but cannot be read back under the default limits |
| JiraComments.MatchesIdempotencyBinding | gearmeshing_ai/adapters/jira_work_management.py:486-505 | the loop over the properties: the first that claims the key decides |
| JiraReceipts.PropertyDecides | gearmeshing_ai/adapters/jira_work_management.py:486-505 | what a property says, by its JSON: this operation, a reuse of the key, or nothing |
| JiraComments.RetryDelayIsBounded | gearmeshing_ai/adapters/jira_work_management.py:196-224 | whatever `Retry-After` (section 10.2.3 of RFC 9110) says, the delay is between zero and the configured maximum, and positive without a header |
| JiraReceipts.SecondsAreObeyed | gearmeshing_ai/adapters/jira_work_management.py:196-224 | usable seconds are waited for to the letter |
| JiraReceipts.DatesAreObeyed | gearmeshing_ai/adapters/jira_work_management.py:196-224 | without them a usable date is waited for, and not at all if it has passed |
| JiraReceipts.DelaysDouble | gearmeshing_ai/adapters/jira_work_management.py:196-224 | without either the delay starts at the base and doubles from attempt to attempt, up to the maximum |
| JiraComments.JiraProvider.RequestJson | gearmeshing_ai/adapters/jira_work_management.py:255-309 | at most limit + 1 attempts, all but the last of them throttled (status 429, section 4 of RFC 6585), each wait exactly the delay for its answer and within bounds; a creation takes effect at most once |
| JiraComments.JiraProvider.ReceiptForMatchingComment | gearmeshing_ai/adapters/jira_work_management.py:507-525 | one comment: its receipt, nothing, or the exception, as `Examine` says |
| JiraReceipts.ForeignIsPassedOver | gearmeshing_ai/adapters/jira_work_management.py:507-517 | comments that bind nothing are passed over, with or without a list of properties, and malformed ones end the search |
| JiraComments.JiraProvider.FetchCommentPage | gearmeshing_ai/adapters/jira_work_management.py:476-484 | a page is the requested slice of the comments there are by then, with their number |
| JiraComments.JiraProvider.FindComment | gearmeshing_ai/adapters/jira_work_management.py:527-550 | if its last request goes through, the paged search gives what a plain first-match search of all comments by then gives, up to ten pages; beyond, a match within the ten pages or an error |
| JiraComments.DecidedEarly | gearmeshing_ai/adapters/jira_work_management.py:527-550 | a match within the ten pages is the result of the whole search, however many comments there are |
| JiraComments.JiraProvider.PublishComment | gearmeshing_ai/adapters/jira_work_management.py:552-598 | a call relates to the comments it finds exactly as `Publishes` says: a search whose last request fails ends it with that failure; otherwise the search decides, and one creation follows exactly when it came to the end without meeting the key; the list changes by nothing else than others' comments, and the requests are numbered within the call |
| JiraReceipts.CallsAreChecked | gearmeshing_ai/adapters/jira_work_management.py:552-571 | a call without rights, with a bad issue key, key or text sends nothing and says which; one that passes is never refused for these reasons |
| JiraReceipts.FirstCallCreates | gearmeshing_ai/adapters/jira_work_management.py:527-598 | on an issue whose comments bind nothing, a call that passes its checks and whose search goes through creates its comment |
| JiraReceipts.CreationIsAnswered | gearmeshing_ai/adapters/jira_work_management.py:577-598 | the caller of a creation that went through gets the id and the time that the server gave the comment, and otherwise the exception that says how the request fared |
| JiraReceipts.PostedTextIsReadBack | gearmeshing_ai/adapters/jira_work_management.py:577-589 | the comment that a call creates says the trimmed text of the call when it is read back |
| JiraReceipts.SuccessNamesComment | gearmeshing_ai/adapters/jira_work_management.py:552-598 | for every successful call of a history there is a comment on the issue, then and ever after, bound to its operation, whose id and time the receipt gives |
| JiraHistories.BoundToOne | gearmeshing_ai/adapters/jira_work_management.py:486-505 | a comment that matches one operation is a conflict for every other operation under its key |
| JiraHistories.AtMostOneComment | gearmeshing_ai/adapters/jira_work_management.py:552-598 | after every history of calls, with lost and garbled responses anywhere, each idempotency key is on at most one comment |
| JiraHistories.SameReceipt | gearmeshing_ai/adapters/jira_work_management.py:552-598 | two successful calls of one operation return the same receipt, but for the digest that only the creating call adds |
| JiraHistories.KeysAreNotReused | gearmeshing_ai/adapters/jira_work_management.py:486-505 | once an operation has taken effect, no later call under its key sends a creation, and a call for another operation fails |
| JiraHistories.RetryFindsIt | gearmeshing_ai/adapters/jira_work_management.py:560-566 | an operation that took effect, even if its caller never heard, is found by every later search within the limit; a search for another operation ends in the reuse exception |
| JiraHistories.BindingNamesOperation | gearmeshing_ai/adapters/jira_work_management.py:572-576 | with a collision-free digest, equal bindings mean equal capability and text |
| JiraHistories.HistoryGrows | gearmeshing_ai/adapters/jira_work_management.py:552-598 | a call made on what a history has left continues that history |
| ClaudeSession.BoundaryViolation | gearmeshing_ai/adapters/claude_code_executor.py:459-494 | the loop finds the first change outside the governed workspace; there is none exactly when all are inside |
| ClaudeSession.CollectArtifacts | gearmeshing_ai/adapters/claude_code_executor.py:500-519 | the loop builds the artifacts in order and stops at the first file that is missing or unreadable |
| ClaudeSession.WithinIsBelow | gearmeshing_ai/adapters/claude_code_executor.py:496-498 | within the writable paths means at or below one of them, component by component |
| ClaudeSession.CompletedIsGoverned | gearmeshing_ai/adapters/claude_code_executor.py:400-457 | a result line completes the run exactly when all changes are governed, the artifacts can be built, and they are within the limits |
| ClaudeSession.CompletedReportsEveryChange | gearmeshing_ai/adapters/claude_code_executor.py:425-457 | every path a completed run lists as changed is governed and present, and is reported, with its digest, size and media type, unless it is empty; nothing else is reported |
| ReportedNames.OwnNames | gearmeshing_ai/adapters/claude_code_executor.py:500-519 | a completed run reports every changed file that is not empty under its own name exactly when all their paths are trimmed |
| ReportedNames.NamesCollide | gearmeshing_ai/adapters/claude_code_executor.py:500-519 | the artifacts of a completed run have different paths exactly when the changed files that are not empty still differ when trimmed |
| ReportedNames.SpacedFileIsMisnamed | gearmeshing_ai/adapters/claude_code_executor.py:500-519 | concretely: the changed files ` a.py` and `a.py` are both governed, and the run completes with two artifacts called `a.py` |
| UnfitLines.UnprintableChangeRaises | gearmeshing_ai/adapters/claude_code_executor.py:459-494 | for all three kinds of violation: the first change outside the governed workspace blocks the run, or raises instead, exactly when its path without trailing space has a control character or leaves no room for the head of the message |
| UnfitLines.UnfitChangesRaise | gearmeshing_ai/adapters/claude_code_executor.py:425-457 | the judgement of any list of changed files raises exactly when its first violation cannot be named, or, without one, its first unusable file is missing and cannot be named or is no acceptable artifact |
| UnfitLines.TruncatedIsTrimmed | gearmeshing_ai/adapters/claude_code_executor.py:77-81 | a text of the model fits in a message exactly when no control character is left in it; white space never does harm |
| UnfitLines.TruncatedSays | gearmeshing_ai/adapters/claude_code_executor.py:77-81 | a message is the squeezed text, cut to 2048 characters with an ellipsis as the last of them, or a remark that there is no detail |
| UnfitLines.UnfitLineRaises | gearmeshing_ai/adapters/claude_code_executor.py:322-357 | a line makes the loop raise exactly when it does not fit: a summary or assistant text with a control character left in it, a tool name with one or longer than 1024, or changes that do not fit |
| UnfitLines.FitStreamSettles | gearmeshing_ai/adapters/claude_code_executor.py:322-381 | every launched stream whose lines fit settles, wherever it is cancelled, times out or fails |
| UnfitLines.QuietStreamRaises | gearmeshing_ai/adapters/claude_code_executor.py:322-381 | an undisturbed stream with room for its events raises, and has no result, exactly when some line up to its first result line does not fit |
| UnfitLines.BellStreamRaises | gearmeshing_ai/adapters/claude_code_executor.py:474-479 | concretely: a run that reports a change at the absolute path of one control character raises and has no result |
| ClaudeSession.LoopShape | gearmeshing_ai/adapters/claude_code_executor.py:322-357 | the loop continues the numbering and always leaves room for the events that must follow |
| ClaudeSession.StreamShape | gearmeshing_ai/adapters/claude_code_executor.py:322-381 | every stream is numbered from 1 and starts with `STARTED`; it settles exactly when its loop ends without raising, because the result's own checks never reject it; then it ends with its only `TERMINAL`, is within the event limit, reports its length, and announces the result's artifacts just before the end, only on completion |
| StreamEnds.SettledIsAccounted | gearmeshing_ai/adapters/claude_code_executor.py:322-381 | a settled stream accounts for itself: its result is for the execution asked for, under its limits, and counts its events, which begin with the start, end with the terminal event and tell the artifacts one by one right before it |
| StreamEnds.ReadsDecide | gearmeshing_ai/adapters/claude_code_executor.py:287-320 | after lines that do not end it, a launched stream times out on its deadline or a slow read, fails on a failed read or an exit without a result, and is cancelled by an accepted cancellation, each with its own outcome, category and code |
| StreamEnds.ResultDecides | gearmeshing_ai/adapters/claude_code_executor.py:400-457 | if the first result line fits, its judgement is the result |
| StreamEnds.ViolationIsJudged | gearmeshing_ai/adapters/claude_code_executor.py:459-494 | a change outside the governed workspace blocks the run with the code of its kind and a message that names it |
| StreamEnds.ChangesAreJudged | gearmeshing_ai/adapters/claude_code_executor.py:425-457 | governed changes complete the run, unless a file cannot be used or a limit is exceeded, each with its code |
| StreamEnds.ErrorsAreJudged | gearmeshing_ai/adapters/claude_code_executor.py:400-424 | a result line that reports an error, or does not say, fails the run with its code |
| StreamEnds.ToolLinesAreTold | gearmeshing_ai/adapters/claude_code_executor.py:207-222 | tool lines become tool events that name the tool |
| StreamEnds.OtherLinesAreTold | gearmeshing_ai/adapters/claude_code_executor.py:207-222 | session and empty assistant lines become progress events, and unknown lines none |
| StreamEnds.AssistantTextIsJoined | gearmeshing_ai/adapters/claude_code_executor.py:176-188 | the text of an assistant line with two text blocks and any other block between them is that of the two, in order, joined by a space |
| ExecutionResults.FirstReasonStays | gearmeshing_ai/adapters/claude_code_executor.py:276-285 | of several cancellations the first acceptable one is kept |
| ClaudeSession.RecordedCancelEndsLoop | gearmeshing_ai/adapters/claude_code_executor.py:287-320 | a cancellation recorded before a read step begins ends the run then and there, as cancelled for that reason |
| ClaudeSession.AcceptedCancelDecides | gearmeshing_ai/adapters/claude_code_executor.py:287-320 | an accepted cancellation decides the run unless the very last read had already timed out or failed; and only the accepted reason is ever reported |
| ClaudeSession.LateCancelIsIgnored | gearmeshing_ai/adapters/claude_code_executor.py:356-375 | after the loop, cancellations change neither the stream nor the result |
| ClaudeSession.ClaudeCodeExecutionSession.Cancel | gearmeshing_ai/adapters/claude_code_executor.py:276-285 | a cancellation is refused, too late, second, or the one that counts; never more than the reason and the process change |
| ClaudeSession.ClaudeCodeExecutionSession.ReadNextLine | gearmeshing_ai/adapters/claude_code_executor.py:287-320 | a read step gives a line or the reason to stop, as `ReadStep` says, with cancellations arriving during the wait |
| ClaudeSession.ClaudeCodeExecutionSession.SettleResult | gearmeshing_ai/adapters/claude_code_executor.py:400-457 | the result line is judged as `FinalizeResult` says |
| ClaudeSession.ClaudeCodeExecutionSession.ReadLines | gearmeshing_ai/adapters/claude_code_executor.py:333-352 | the loop emits and ends as `Loop` says |
| ClaudeSession.ClaudeCodeExecutionSession.StreamEvents | gearmeshing_ai/adapters/claude_code_executor.py:322-381 | the events, the result, the exception and the accepted reason of a consumed stream are those of `Play` |
| ClaudeSession.ClaudeCodeExecutionSession.AwaitResult | gearmeshing_ai/adapters/claude_code_executor.py:261-271 | the result is computed once and stays; a stream that was consumed without one gives an error |
| ClaudeSession.ClaudeCodeExecutor.Start | gearmeshing_ai/adapters/claude_code_executor.py:542-560 | the same request gets the same session, another request under its id is refused, unsupported tools are refused, and nothing else changes |
| GitWorktrees.ParseWorktreeList | gearmeshing_ai/adapters/git_worktree.py:136-160 | the loop over the lines gives the entries of `ParseFrom` |
| GitWorktrees.ListingIsRead | gearmeshing_ai/adapters/git_worktree.py:136-160 | reading what Git lists gives the entries, trimmed and in order, whatever other lines they have |
| GitWorktrees.ListingRoundTrip | gearmeshing_ai/adapters/git_worktree.py:136-160 | the entries come back unchanged exactly when no path has space around it and no branch has space after it |
| GitWorktrees.ListingExample | gearmeshing_ai/adapters/git_worktree.py:136-160 | a concrete listing with a branch and a detached worktree, read line by line |
| GitWorktrees.NamesAreInjective | gearmeshing_ai/adapters/git_worktree.py:197-203 | different run ids have different paths and branches, and no run has a protected branch |
| GitWorktrees.WhichBranchesAreRefs | gearmeshing_ai/adapters/git_worktree.py:82-86 | of the accepted run ids, exactly those without `..` and not ending in `.` or `.lock` give a branch that is a Git ref |
| GitWorktrees.DottedIdIsNoRef | gearmeshing_ai/adapters/git_worktree.py:82-86 | concretely: the run id `a..b` is accepted and its branch is no Git ref |
| WorktreeManager.OwnIsApart | gearmeshing_ai/adapters/git_worktree.py:201-203 | the path of a run lies below the worktrees directory and apart from the repository |
| WorktreeManager.ListedIsRead | gearmeshing_ai/adapters/git_worktree.py:266-271 | what Git lists is read back as what is registered |
| WorktreeManager.GitWorktreeManager.FindWorktree | gearmeshing_ai/adapters/git_worktree.py:266-271 | the entry registered at the path, if Git answers |
| WorktreeManager.GitWorktreeManager.EnsureWorktree | gearmeshing_ai/adapters/git_worktree.py:205-231 | with commands refused, failing or killed anywhere, only this run's path and branch can change, and repeating the call gives what the call would have given undisturbed |
| WorktreeManager.EnsureTells | gearmeshing_ai/adapters/git_worktree.py:205-231 | ensuring fails and changes nothing for a dirty repository, a path held by another branch and a command that Git refuses; otherwise the path is bound to the run's branch, which keeps its commit or starts at the base, and the context names repository, path, base and branch |
| WorktreeManager.GitWorktreeManager.Cleanup | gearmeshing_ai/adapters/git_worktree.py:233-257 | the same for removal; a path bound to another branch is never touched; a success means that the worktree is gone, and the branch too unless its look-up failed |
| WorktreeManager.CleanupTells | gearmeshing_ai/adapters/git_worktree.py:233-257 | cleaning up refuses a path held by another branch; otherwise the worktree goes, unless it is the main one, then the branch, unless it is checked out elsewhere, and nothing else changes |
| WorktreeManager.LeaveBranchBehind | gearmeshing_ai/adapters/git_worktree.py:273-275 | concretely: a cleanup whose look-up of the branch fails reports success and leaves the branch |
| WorktreeManager.EnsureIsIdempotent | gearmeshing_ai/adapters/git_worktree.py:205-231 | ensuring twice is ensuring once |
| WorktreeManager.EnsureResumes | gearmeshing_ai/adapters/git_worktree.py:205-231 | whatever happens to the creating command, the repeated call ends as the undisturbed one |
| WorktreeManager.CleanupResumes | gearmeshing_ai/adapters/git_worktree.py:233-257 | a cleanup interrupted before, between or after its commands and repeated ends as the uninterrupted one |
| WorktreeManager.CleanupLeavesNothing | gearmeshing_ai/adapters/git_worktree.py:233-257 | a cleanup that succeeds leaves neither worktree nor branch |
| WorktreeManager.CleanupUndoesEnsure | gearmeshing_ai/adapters/git_worktree.py:205-257 | cleaning up after ensuring restores the repository exactly |
| WorktreeManager.RunsDoNotInterfere | gearmeshing_ai/adapters/git_worktree.py:205-257 | any history of calls for other runs leaves a run's worktree and branch as they were |
| WorktreeManager.ForeignIsNeverRemoved | gearmeshing_ai/adapters/git_worktree.py:233-257 | no history ever removes a worktree that is not bound to the branch of the run whose path it has |
| UntrustedText.EscapeRemovesDelimiters | gearmeshing_ai/application/prompts/untrusted.py:52-53 | an escaped text is as long as the original and contains neither delimiter |
| UntrustedText.EscapeIsStable | gearmeshing_ai/application/prompts/untrusted.py:52-53 | escaping twice is escaping once, and exactly the texts without delimiters are left alone |
| UntrustedText.LeftmostFirst | gearmeshing_ai/application/prompts/untrusted.py:52-53 | of several delimiters in a row the leftmost three characters are replaced first |
| UntrustedText.MarksOfDelimiters | gearmeshing_ai/application/prompts/untrusted.py:36-37 | each delimiter becomes three single angle quotation marks of its own side |
| UntrustedText.OnlyTheTags | gearmeshing_ai/application/prompts/untrusted.py:56-67 | in wrapped text each delimiter occurs exactly twice, at the two tags' own places |
| UntrustedText.TagsAreLines | gearmeshing_ai/application/prompts/untrusted.py:56-67 | the two tags, with the trimmed label, stand on lines of their own around the escaped text |
| UntrustedText.WrappingIsInjective | gearmeshing_ai/application/prompts/untrusted.py:56-67 | the label and the escaped text can be read off the wrapped text |
| DockerSandbox.PolicyHidesRepository | gearmeshing_ai/adapters/docker_sandbox.py:295-328 | a request passes exactly when its container paths are different and not reserved and no mounted directory shares a host path with the repository |
| DockerSandbox.AcceptedExposesNothing | gearmeshing_ai/adapters/docker_sandbox.py:295-328 | in an accepted request no host path is both below a mounted directory and part of the repository |
| DockerSandbox.VolumeArguments | gearmeshing_ai/adapters/docker_sandbox.py:363-369 | the volume arguments are the worktree and the caches, in order, each spelled out, and nothing else |
| DockerSandbox.SandboxSession.Cancel | gearmeshing_ai/adapters/docker_sandbox.py:511-519 | a cancellation is too late, invalid, second, or the one that counts |
| DockerSandbox.SandboxSession.AwaitCompletion | gearmeshing_ai/adapters/docker_sandbox.py:558-570 | outcome and exit code are those of `Completion`, with cancellations arriving during the wait |
| DockerSandbox.SandboxSession.Settle | gearmeshing_ai/adapters/docker_sandbox.py:521-544 | the result is computed once and is the same ever after |
| DockerSandbox.SettledIsOk | gearmeshing_ai/adapters/docker_sandbox.py:521-582 | a settled result passes its constructor and carries the run id, the captured output, the duration and the exit code; it is cancelled exactly when a cancellation was accepted before the wait, or during one that the process ended, and names the first accepted reason; a time-out has its own code |
| DockerSandbox.BlockedIsOk | gearmeshing_ai/adapters/docker_sandbox.py:295-328 | the result of a refused request passes its constructor and says which rule refused it, in the order of the rules |
| DockerSandbox.Sandbox.Start | gearmeshing_ai/adapters/docker_sandbox.py:591-604 | a container is launched exactly when there is no violation; otherwise the session is already blocked |
| QualityChecks.FromSandboxIsOk | gearmeshing_ai/adapters/quality_checks.py:325-362 | a check result made from a sandbox result satisfies the rules of its constructor, carries its output, duration and exit code, and passes exactly on a completed run with exit code 0; every other outcome has its own status and code |
| QualityChecks.RunChecks | gearmeshing_ai/adapters/quality_checks.py:365-414 | the batch completes exactly when every request can be built; then there is one result for each check, in order, and exactly the containers of `Launches` were launched |
| QualityChecks.ResultsAreOk | gearmeshing_ai/adapters/quality_checks.py:156-190 | every result of a completed batch is accepted by its constructor and is for its own check |
| QualityChecks.ResultsTell | gearmeshing_ai/adapters/quality_checks.py:365-414 | an unavailable check says so, a check after the cancellation is skipped, a refused container is a failed check, and otherwise the result is decided by how the check's own container ended |
| QualityChecks.LaunchesRunTheirChecks | gearmeshing_ai/adapters/quality_checks.py:395-410 | every launched container runs the command of its own check in the batch's image with the batch's worktree and caches |
| QualityChecks.NothingAfterCancellation | gearmeshing_ai/adapters/quality_checks.py:392-401 | once the cancellation has been seen, nothing more is launched and every later runnable check is skipped |
| QualityChecks.DecimalIsRead | gearmeshing_ai/adapters/quality_checks.py:403 | the index in a container name is written in decimal digits, highest first and without leading zeros |
| QualityChecks.ContainersDiffer | gearmeshing_ai/adapters/quality_checks.py:402-404 | all containers of a batch have different names, even if checks share a name |
| QualityChecks.LaunchedContainersHideRepository | gearmeshing_ai/adapters/docker_sandbox.py:295-328 | no container that a batch launches sees any part of the repository |
| PosixPaths.ParentIsPrefix | gearmeshing_ai/adapters/claude_code_executor.py:496-498 | for normal relative paths, "equal to or among the parents" is a prefix relation on components |
| PosixPaths.RelativeIsNormal | gearmeshing_ai/application/ports/coding_executor.py:72-77 | a text is a normal relative path exactly when it is not empty, `PurePosixPath` gives it back as it is, and finds it neither absolute nor climbing |
| PosixPaths.AbsoluteIsNormal | gearmeshing_ai/application/ports/coding_executor.py:80-91 | the same for absolute paths, with neither `/` itself nor two leading slashes |
| Text.StripRemovesSpace | gearmeshing_ai/domain/work_run.py:96-126 | `strip` removes white space, and only from the two ends |
| Text.JoinInjective | gearmeshing_ai/application/ports/work_management.py:185-194 | joining with a character that no part contains loses nothing |
| Text.WordsApart | gearmeshing_ai/adapters/claude_code_executor.py:78 | white space separates the words of a text, however much of it there is |
| Text.SqueezedControls | gearmeshing_ai/adapters/claude_code_executor.py:77-81 | squeezing white space leaves a trimmed text with exactly the control characters that are no white space |

## Left out

- CheckpointStore.JsonFileCheckpointStore.Save: reading and replacing the file is one step, because the source declares concurrent writers within `save` out of scope (`gearmeshing_ai/runtime/checkpoint_store.py:8-9`); temporary files and write errors are not modelled.
- CheckpointStore.LoadedIsValid: all reasons for a failed load are one fault; in the source a text field of another type raises an exception that the store does not translate. JSON syntax and ISO times are parameters.
- RunReports.AtMostOneReport: counts attempts; whether the provider got the report, and retries inside the provider, belong to `JiraHistories`.
- RunHistories.HistoryKeeps: all runners of a history share one remediation limit, and inputs of invocations were made by `approve` for the run id under consideration.
- JiraComments.JiraProvider.FindComment: assumes an honest server: pages are slices of an append-only list, hold at least one comment, and give the true total; a page without `total` would end the search early.
- JiraHistories.AtMostOneComment: for one issue; callers that share a key publish one after the other, and others leave the property of that name alone, as the source demands (`gearmeshing_ai/adapters/jira_work_management.py:561-565`).
- JiraHistories.SameReceipt: the provider's name in a receipt is a constant and is left out.
- JiraComments.RetryDelayIsBounded: parsing of numbers and dates is a parameter, and seconds are real numbers.
- OutcomeReports.CompletionIsReported: the splitting of URLs is a parameter, once for each of the two rules, and the updates have no metadata, as the source gives them none.
- ClaudeSession.StreamShape: a consumer that abandons the stream half-way is not modelled, nor are the CLI arguments and the decoding of bytes.
- StreamEnds.ToolLinesAreTold: events have no metadata; the tool's name is in their message.
- ClaudeSession.CompletedReportsEveryChange: files do not change while they are read, and links are one predicate on paths.
- GitWorktrees.ListingRoundTrip: starts from lines; splitting the output at line boundaries other than the line feed is not modelled.
- WorktreeManager.GitWorktreeManager.Cleanup: registered paths and branches have no white space around them, and `worktree remove` has no half-way state.
- DockerSandbox.AcceptedExposesNothing: paths are lexical and mounts are pairs; links on the host and Docker's reading of `host:container` are not modelled.
- QualityChecks.RunChecks: truncation of captured output, and discovery of the checks, which reads files and tables one by one.
- The rest of the container command line, the launch environment, and the JSON of Jira issues, labels and readiness problems: lists of independent fields.
- `redact_text` and the other credential heuristics: best-effort by design; the sensitive-key test is a parameter.
- The remaining commands of the CLI, identity and policy adapters, prompt registry, verification and evidence schemas, and the golden dataset: thin wrappers or field-by-field checks.
- `_sanitize_revision` (`gearmeshing_ai/interfaces/cli.py:181-197`) changes a revision that the runner later compares with the raw one; histories start from runs approved with the provider's own revision.
- Event names are a datatype with a case for any other text, and instants are integers.
