# Verified model of the analysis workflow and candidate numerics

This project models the durable analysis workflow in `backend/app/analysis_workflow` and the numeric core in
`backend/app/candidates`, and proves what they are built to guarantee. `dafny verify dfyconfig.toml` checks all of it.

**The workflow.** A plan is a list of phases of nodes with dependencies. A recorder commits every state change of a run to
its audit tables; a node executor runs one node with retries; a coordinator runs the nodes of a phase on a bounded pool.
A process may die between any two commits, and a later process resumes from the tables.

| file | what it holds |
|---|---|
| `Json`, `Workflow`, `Context` | JSON trees, specifications and the retry policy, the shrinking of node inputs |
| `Store` | the audit tables of one run, the recorder fields a crash loses, and each kind of commit as a function on both |
| `Tables` | what each recorder call leaves in every table and field, spelled out row by row |
| `Recorder` | the recorder as a class; each method is proved to make exactly its list of commits durable, in order, and to leave the rows as `Tables` says |
| `History` | any number of recorders over one database, interleaved, crashing and restarting: the history is append-only |
| `Execution`, `NodeExecutor` | one `execute` call as a machine of single commits, and the class that refines it move by move |
| `Discipline` | the whole call in one piece: retries, context modes, closed attempts, final status |
| `Gate` | the resume gate, the resumability of runs, and which nodes a resumed run executes |
| `Plan` | plan validation and construction |
| `Process`, `Stances`, `Workers`, `Durability`, `Resumption` | whole runs: interleaved node executions, driver commits, failures, crashes, resumes, restarts; what becomes durable stays so |
| `Protocol`, `Recovery`, `Progress` | the runs whose inputs and functions do not change: they refine one uninterrupted evaluation, and can always be finished |
| `Schedule`, `Independence`, `Orchestrator` | the coordinator of a phase as a board of nodes, and its loop |
| `Bridge` | what the coordinator gives a node is what whole runs let its input depend on |
| `Evidence`, `Exporter` | evidence paths against their resolver; export packages against their verifiers |
| `Factors`, `PortfolioFit` | drawdown, percentile, weighted scores; correlation, probe funding, projected variance |

**How crashes are modelled.** `Store.Apply` is one `_commit`. `Process.Happen` is one event of the outside world: a process
boots or dies, the coordinator admits or collects a node, a worker makes one move (one commit, or one decision between
commits), the driver commits something of its own, or the run fails and `fail_run` closes what is open. A process may open the
run in any way `start_run` allows: for the first time, resumed with or without a checkpoint, again without resuming, or by
force with the node rows reset. The coordinator executes a node on its own recorder, or any number of nodes at once on
recorders of their own.

**Two layers.** `Durability` and `Resumption` prove their theorems for every list of events: inputs may change between
processes, node functions may return anything and give up in any way. What they need is a plan that validates and that the same
nodes stay enabled. `Resumption` says what holds for as long as the run is only resumed, and exactly which event can break it;
`Progress` shows that a run which starts over does lose successes for the time being. `Protocol` and `Recovery` then compare
runs with the reference `Protocol.Ref`, which evaluates the plan once, in order, with no database at all. For that they consider
only the `Regular` events: the plan builds the same inputs from the same outputs; a node function may fail any number of times,
but whenever it returns it returns the same value for the same input, and also the same value in every context mode, that is
for the shrunken forms of that input (`Deterministic`); no enabled node gives up without raising, which only nodes that are not
mandatory can do; and the driver binds no input under a node's own key. `Recovery.RegularRunsAreRuns` ties the layers together.
That a node's input depends only on the outputs of the nodes it reaches is part of `World`; `Bridge` proves it of the
coordinator's phases. `Progress` boots with the program's own choice, `Gate.CallerResumes`. Hashes are arbitrary functions;
injectivity is a hypothesis only where a statement names it. A node function records no inputs and no checkpoints of its own.

**Promises with exceptions.** The code is followed. Each item names the promise and where the code does not keep it.

- A resume is refused when a recorded input has changed (`resume.py:77-88`): the digests are restored only when the run has a
  checkpoint, so before the first one a changed input passes. `Gate.GateIsExact` gives the exact condition and
  `Gate.ChangedInputPasses` an instance. `is_run_resumable` refuses such a run, so this takes a caller that skips that test;
  the program's own caller reopens it without resuming, and then nothing is compared at all (`Gate.CallerGateIsExact`).
- A success that is durable stays so (`docs/V3_CORE_2_NODE_EXECUTOR_RESUME.md:32-35`, `executor.py:82-90`): a run that is
  resumed without a checkpoint reuses a succeeded node through `start_node`, which leaves the node open, and when the run then
  fails, `fail_run` marks it as failed. `Resumption.SuccessIsLostExactly` and `Gate.OpenNodeIsExact` give the exact condition,
  `Progress.FailedRunLosesSuccess` reaches the case. As above this takes a caller that skips `is_run_resumable`:
  `Progress.PolicyNeverLoses`.
- A resume skips the nodes that succeeded and continues the others (`docs/V3_CORE_2_NODE_EXECUTOR_RESUME.md:85`): an enabled
  optional node that was given up on stays skipped. `Gate.ResumedCallIsExact` gives the exact condition,
  `Gate.GivenUpForGood` reaches the case.
- `_trim_text` cuts to a limit (`context.py:20-23`): a limit below three is not honoured (`Context.TrimTextLimit`).
- A return is stored under its day (`portfolio_fit.py:26-32`): a close that is zero or negative shifts all later returns to
  earlier days. `PortfolioFit.ReturnsAreDated` gives the exact condition, `PortfolioFit.ReturnsShift` an instance.
- Each phase depends on the whole previous one (`dag.py:72-129`): not behind an empty phase, though the plan validates.
  `Plan.BuiltPlanIsSound` gives the exact condition, `Plan.EmptyPhaseBreaksBarrier` an instance.
- The manifest is no entry of itself and the package passes its own verification (`docs/V3_CORE_4_ARTIFACT_EXPORT.md:182-186`):
  a file added as `manifest.json` is listed and then overwritten. `Exporter.BuiltPackageVerifies` gives the exact condition,
  `Exporter.ListManifestFirst` an instance.

Every lemma switches automatic induction off, so each induction is written out where it happens.

## Model

| member | source | states |
|---|---|---|
| Recorder.AuditRecorder.StartRun | backend/app/analysis_workflow/recorder.py:244-341 | opening a run is one commit, a forced restart of a planned run two: the run is running and keeps its last checkpoint, it forgets where it failed unless it is resumed, and a reset leaves every node and stage pending; the recorder's fields are forgotten and, when resuming, restored from the tables |
| Recorder.AuditRecorder.RestoreCheckpointState | backend/app/analysis_workflow/recorder.py:343-363 | the restored memory is the newest snapshot of the last checkpoint, brought up to date with the tables; nothing without a checkpoint |
| Recorder.AuditRecorder.SyncNodeState | backend/app/analysis_workflow/recorder.py:365-379 | after a sync the memory lists the durably succeeded nodes and the newest input and output digests; nothing is committed |
| Recorder.AuditRecorder.FinishRun | backend/app/analysis_workflow/recorder.py:826-881 | ending a run is one commit that sets its status and may clear the failure marks; it is resumable exactly when it did not end well and a checkpoint other than the last was reached; nothing else changes |
| Recorder.AuditRecorder.FailOpenWork | backend/app/analysis_workflow/recorder.py:883-889 | the open attempt, the open node and the open stage are closed in this order, each only if it is open, as cancelled, blocked or failed; every other row stays |
| Recorder.AuditRecorder.FailRun | backend/app/analysis_workflow/recorder.py:891-903 | what is open is closed, and then the run ends as failed, blocked, cancelled or interrupted |
| Recorder.AuditRecorder.RecordArtifact | backend/app/analysis_workflow/recorder.py:712-740 | an artifact is appended and then linked to the run, two commits; the id returned is the new row |
| Recorder.AuditRecorder.WriteCheckpoint | backend/app/analysis_workflow/recorder.py:807-824 | a checkpoint stores the memory, with its digest, as an artifact before it becomes the run's last checkpoint; nothing else changes |
| Recorder.AuditRecorder.RecordClaims | backend/app/analysis_workflow/recorder.py:742-805 | refused, with nothing durable, exactly when a new id is listed twice; otherwise claims are upserted in one commit: a new claim says what was first listed, an old one keeps what it said, and the status is the last one listed; they are listed in an artifact when there are any |
| Recorder.AuditRecorder.ResolveClaimRows | backend/app/analysis_workflow/recorder.py:995-1004 | succeeds exactly when every id is known; then in one commit each claim takes the last status listed for it and keeps all else, and the resolutions are listed in an artifact; otherwise nothing durable changes |
| Recorder.AuditRecorder.BindInputHash | backend/app/analysis_workflow/recorder.py:905-922 | memory learns the digest first; then the stage's first hash, the input artifact and its links to node and attempt become durable |
| Recorder.AuditRecorder.StartStage | backend/app/analysis_workflow/recorder.py:381-425 | a completed stage is reused by a resumed run, under a plan only when all its nodes succeeded or were skipped; otherwise the stage is opened |
| Recorder.AuditRecorder.FinishStage | backend/app/analysis_workflow/recorder.py:427-451 | output, closed stage and the stage's checkpoint become durable in this order: the stage is completed with the digest of its output, every other stage and the run's failed stage stay, and a named checkpoint becomes the run's last; a reused stage commits nothing |
| Recorder.FinishThenResume | backend/app/analysis_workflow/recorder.py:381-451 | a stage is finished, the process dies, another resumes the run: it reuses the stage if and only if, under a plan, all nodes of the stage have succeeded or were skipped, and without a plan always |
| Recorder.AuditRecorder.FailStage | backend/app/analysis_workflow/recorder.py:453-471 | cancelled wins over blocked, blocked over failed; the run remembers the stage |
| Recorder.AuditRecorder.StartNode | backend/app/analysis_workflow/recorder.py:473-523 | refused without a stage; a resumed run reuses a succeeded node without a commit; otherwise the node is opened and keeps its attempt count |
| Recorder.AuditRecorder.FinishNode | backend/app/analysis_workflow/recorder.py:525-543 | the output artifact is durable before the node is marked succeeded and linked to it |
| Recorder.AuditRecorder.FailNodeRow | backend/app/analysis_workflow/recorder.py:545-573 | the node closes with the given status and error, and unless it is optional the run names it as failed |
| Recorder.AuditRecorder.SkipNode | backend/app/analysis_workflow/recorder.py:575-582 | skipping opens the node like any other and then marks it skipped, also when it had succeeded before |
| Recorder.AuditRecorder.StartAttempt | backend/app/analysis_workflow/recorder.py:584-615 | the new attempt carries the next number of its node, and both change in one commit |
| Recorder.AuditRecorder.FinishAttempt | backend/app/analysis_workflow/recorder.py:617-662 | the attempt's output artifact precedes its completion |
| Recorder.AuditRecorder.FailAttemptRow | backend/app/analysis_workflow/recorder.py:664-710 | the closed attempt and its error report become durable together; waiting for a retry is a later commit |
| Recorder.AuditRecorder.LoadNodeOutput | backend/app/analysis_workflow/recorder.py:934-944 | reads back the document the node row links to, if any |
| Tables.AfterOpening | backend/app/analysis_workflow/recorder.py:244-341 | how the run row stands after each way of opening, and that the attempts, artifacts and claims stay |
| Tables.AfterEnding | backend/app/analysis_workflow/recorder.py:826-881 | the row of an ended run field by field: status, resumability, and failure marks that go only when it ended well and no node failed |
| Tables.AfterStageFinishing | backend/app/analysis_workflow/recorder.py:427-451 | the finishing commits leave that stage completed with the digest of its output, and change in the other tables only the new artifacts, the last artifact and the last checkpoint of the run |
| Tables.AfterNodeOpening | backend/app/analysis_workflow/recorder.py:473-523 | an opened node is running in the open stage, keeps its count of attempts and what it was linked to, and no other row changes |
| Tables.AfterNodeFinishing | backend/app/analysis_workflow/recorder.py:525-543 | the finishing commits leave that node succeeded and linked to its output, and no other node row changed |
| Tables.AfterNodeFailing | backend/app/analysis_workflow/recorder.py:545-573 | a node that ends badly has the status, the error and the note given; the run names it and its stage, unless it is optional |
| Tables.AfterAttemptFinishing | backend/app/analysis_workflow/recorder.py:617-662 | the finished attempt is completed with the digest of its output or of the artifact written last; no other attempt changes |
| Tables.AfterAttemptFailing | backend/app/analysis_workflow/recorder.py:664-710 | the failed attempt's status, class and retryability, its error report, and a node that waits; no other attempt changes |
| Tables.AfterBindingInput | backend/app/analysis_workflow/recorder.py:905-922 | stage and attempt keep the first digest they were given, the node links the newest input, which is stored under its key |
| Tables.AfterClosingWork | backend/app/analysis_workflow/recorder.py:883-889 | closing what is open gives attempt, node and stage the status of the failure, and changes no row that was not open |
| Tables.ClaimsAreRecorded | backend/app/analysis_workflow/recorder.py:742-789 | after an upsert, for every list of claims: exactly the listed ids are added, a new claim says what was listed first, and the status listed last for an id is the row's |
| Tables.ClaimsAreResolved | backend/app/analysis_workflow/recorder.py:995-1004 | after resolving, for every list: the status listed last for an id is the row's, and nothing else of any claim changes |
| History.CommitKeepsHistory | backend/app/analysis_workflow/recorder.py:381-824 | every commit of every kind keeps the numbering valid and loses or rewrites nothing recorded |
| History.CommitTouchesOwnAttempt | backend/app/analysis_workflow/recorder.py:617-710 | a commit changes no attempt but the one its recorder holds open |
| History.ClaimsOnlyChangeStatus | backend/app/analysis_workflow/recorder.py:742-789 | recording claims never changes what an existing claim says, who said it, or where |
| History.ResolutionsOnlyChangeStatus | backend/app/analysis_workflow/recorder.py:995-1004 | resolving claims changes statuses only and adds no claim |
| History.EventKeepsHistory | backend/app/analysis_workflow/recorder.py:241-242 | one more recorder, commit or crash keeps everything recorded so far |
| History.HistoryIsAppendOnly | backend/app/analysis_workflow/recorder.py:241-824 | over any interleaving of recorders, crashes, resumes and forced restarts: artifacts only grow, closed attempts never change, claims keep their content |
| History.AttemptNumbersAreExact | backend/app/analysis_workflow/recorder.py:584-615 | from an empty database, each node's attempt numbers are always exactly 1 to its attempt count |
| History.LaterMomentsExtend | backend/app/analysis_workflow/recorder.py:241-242 | every later moment of a history still records what any earlier moment did |
| NodeExecutor.NodeRunner.Execute | backend/app/analysis_workflow/executor.py:36-194 | the call ends with the machine's verdict, fields and tables, and every durable state on the way is one the machine passes through |
| NodeExecutor.NodeRunner.Admit | backend/app/analysis_workflow/executor.py:48-90 | cancel, disabled node, resume gate and the three ways to reuse earlier work, in the order of the code |
| NodeExecutor.NodeRunner.Loop | backend/app/analysis_workflow/executor.py:101-167 | the retry loop ends within the attempt budget and follows the machine throughout |
| NodeExecutor.NodeRunner.ChooseRetry | backend/app/analysis_workflow/executor.py:142-150 | another attempt is granted exactly when the node may be retried, the failure is neither a cancellation nor final, the budget is not used up and an overflow has a smaller context left; the context shrinks, by one step, exactly on a retried overflow |
| Workflow.MaxAttemptsFor | backend/app/analysis_workflow/policy.py:13-16 | the budget is at least one, exactly one for a node that may not be retried, and else what the node's specification says or, if that says nothing, the policy |
| Execution.Retry | backend/app/analysis_workflow/executor.py:142-150 | a retry is granted only below the budget, and the mode changes exactly on a retried overflow |
| Discipline.RetryDiscipline | backend/app/analysis_workflow/executor.py:101-194 | one call opens one attempt per invocation, within budget, and closes all of them, each row telling how its invocation ended, the class of its failure and whether another attempt followed; every invocation but the last earned a retry and no poll before one found the job cancelled; the call stops as cancelled exactly when the next poll does so while another attempt was due; a returned output reads back |
| Discipline.CallEnds | backend/app/analysis_workflow/executor.py:123-194 | the verdict, case by case: a returned value is the result; after a last error a mandatory node raises it, and an important one when it must fail closed, an optional one is skipped, an important one goes on degraded, both with message and class of the error; a cancellation or a rejected resume is raised; the node row tells the same |
| Discipline.EntryEnds | backend/app/analysis_workflow/executor.py:48-90 | what a call answers that is not admitted, case by case: cancelled, disabled, rejected, skipped before, succeeded before, or without a stage |
| Discipline.InputIsStored | backend/app/analysis_workflow/executor.py:113-122 | before each invocation the input is stored in the form the context mode asks for, under the node's key and the mode's name, and for a model-backed node as its prompt |
| Discipline.OutputIsStored | backend/app/analysis_workflow/executor.py:123-140 | after an invocation that returned, exactly its output is stored, for the attempt under the kind the caller asked for and for the node, which links to it; both rows and the memory hold its digest |
| Discipline.CallsUseTheirMode | backend/app/analysis_workflow/executor.py:113-121 | whenever the machine is about to invoke the function, it does so in the mode that the invocations before it lead to, all of which earned a retry |
| Discipline.TurnedAwayChangesNothing | backend/app/analysis_workflow/executor.py:48-90 | a call turned away at the entry invokes nothing and, for an enabled node, commits nothing |
| Discipline.NodeOpenAtEnd | backend/app/analysis_workflow/executor.py:36-194 | an ended call leaves no node open, except the one that was open before if it never opened its own, and its own exactly when the recorder reused it in `start_node` |
| Discipline.ModesOnlyMoveForward | backend/app/analysis_workflow/executor.py:101-154 | over the invocations of a call the mode starts full and never goes back; from one to the next it moves by exactly one step when the former overflowed, and stays otherwise |
| Discipline.DoneIsFinish | backend/app/analysis_workflow/executor.py:36-194 | however many moves a finished call took, it ended where the one-piece evaluation ends |
| Gate.NewestInputWins | backend/app/analysis_workflow/recorder.py:365-379 | reading the input digests back yields, for each key, the newest one recorded |
| Gate.BindingIsRecorded | backend/app/analysis_workflow/recorder.py:905-922 | binding an input to an open node makes its digest the newest one under its key |
| Gate.RecordedInputSurvives | backend/app/analysis_workflow/recorder.py:712-740 | no crash, restart or other recorder loses or replaces a recorded digest |
| Gate.RestoredDigest | backend/app/analysis_workflow/recorder.py:343-379 | a resumed recorder holds the newest recorded digest exactly when the run reached a checkpoint |
| Gate.GateIsExact | backend/app/analysis_workflow/resume.py:73-88 | after any events, a planned resumed node is rejected if and only if its input changed and the run has a checkpoint (injective hash) |
| Gate.CallerGateIsExact | backend/app/services/analysis_engine.py:1738-1751 | opened by the program's own policy, a run turns a changed input away if and only if it is resumed |
| Gate.ChangedInputPasses | backend/app/analysis_workflow/recorder.py:343-363 | an instance of a changed input that a resume before the first checkpoint lets pass |
| Gate.RejectionWritesNothing | backend/app/analysis_workflow/executor.py:58-62 | a rejected enabled node ends at once, and no crash point on the way shows a changed database |
| Gate.EndedRunIsResumable | backend/app/analysis_workflow/resume.py:17-29 | an ended run may be resumed exactly when it failed, was interrupted or cancelled, and its last checkpoint is not the final one |
| Gate.PolicyIsExact | backend/app/services/analysis_engine.py:1738-1740 | by the caller's policy a run that was opened and cut off is resumed exactly when it has a checkpoint, and an ended one exactly when it did not end well and has one other than the last |
| Gate.CheckpointRestores | backend/app/analysis_workflow/recorder.py:343-379 | a checkpoint written after a sync lists exactly the succeeded nodes and holds the memory's digests; a process that resumes from it reads back the stage outputs it held |
| Gate.GivenUpNodeIsNotRetried | backend/app/analysis_workflow/executor.py:63-70 | a resumed run answers for a node marked skipped without calling or committing anything |
| Gate.ResumedCallIsExact | backend/app/analysis_workflow/executor.py:48-90 | a resumed, unforced call that is enabled, not cancelled and past the gate invokes its function if and only if the node's row is neither skipped nor succeeded |
| Gate.GivenUpForGood | backend/app/analysis_workflow/executor.py:173-182 | an optional node whose invocations all fail uses up its whole budget, is marked skipped, and after a crash and a resume is never invoked again |
| Gate.OpenNodeIsExact | backend/app/analysis_workflow/recorder.py:483-488 | a recorder that resumes a run and executes a succeeded node leaves it open if and only if the run has no checkpoint |
| Stances.CommitKeeps | backend/app/analysis_workflow/recorder.py:473-740 | every commit a worker may make leads where it is foreseen, touches no other node's row, and marks its node succeeded only with the returned output stored |
| Stances.ReturnEnds | backend/app/analysis_workflow/executor.py:120-133 | storing the returned value, whatever it is, closes the node with that value linked |
| Recovery.RestoreKeeps | backend/app/analysis_workflow/recorder.py:343-379 | whatever checkpoint it starts from, the digests of a restored memory fit the reference inputs |
| Recovery.FullKeyIsOwn | backend/app/analysis_workflow/executor.py:60-61 | no other node and no shrunken input is ever stored under a node's full-input key |
| Recovery.GatePasses | backend/app/analysis_workflow/executor.py:58-62 | a node with its reference input passes the gate under any memory whose digests fit |
| Recovery.MoveIsValued | backend/app/analysis_workflow/executor.py:36-194 | in a regular run each move of a worker stores and returns reference values only |
| Recovery.RegularIsOk | backend/app/analysis_workflow/recorder.py:244-903 | in every state of a regular run all rows, artifacts, memories, workers and results hold reference values |
| Recovery.RegularRunsAreRuns | backend/app/analysis_workflow/executor.py:36-194 | a regular run is one of the runs that the durability theorems are about |
| Durability.BootKeeps | backend/app/analysis_workflow/recorder.py:244-341 | however the run is opened, first, again, resumed or by force, the process starts in order |
| Durability.ResetKeeps | backend/app/analysis_workflow/recorder.py:334-340 | a forced restart resets the node rows while nothing in the process relies on a success |
| Workers.MoveKeeps | backend/app/analysis_workflow/executor.py:36-194 | whatever its function does, each move of a worker keeps it in order and changes its own node only, and a succeeded node not at all except in a run opened again without resuming |
| Workers.NodeLeftOpen | backend/app/analysis_workflow/executor.py:82-90 | a call that ends leaves a node open only where it was answered at the entry |
| Durability.FailRunCloses | backend/app/analysis_workflow/recorder.py:883-903 | `fail_run` takes the status of the node that is open, and changes no other row and no output |
| Durability.EventKeeps | backend/app/analysis_workflow/recorder.py:244-903 | each boot, reset, crash, failure, admission, move, collection and driver commit keeps the invariant of whole runs, for any inputs and functions |
| Durability.ReachableOk | backend/app/analysis_workflow/recorder.py:244-903 | the invariant holds in every reachable state |
| Recovery.ResumedRunsRefineTheReference | backend/app/analysis_workflow/executor.py:56-90 | every result a regular run hands on is the output of the uninterrupted run, wherever crashes fell, however the run was opened again each time and however executions interleaved |
| Recovery.CompleteRunsAgree | backend/app/analysis_workflow/executor.py:36-194 | two complete regular runs over the same inputs end with the same results and the same stored outputs |
| Recovery.DurableOutputIsReference | backend/app/analysis_workflow/recorder.py:525-543 | at every commit point of a regular run, a succeeded node's stored output is its reference output |
| Recovery.UnchangedInputIsNeverRejected | backend/app/analysis_workflow/resume.py:77-88 | whatever crashed before, a node whose input is unchanged is never rejected |
| Resumption.DurableSuccessOnlyGrows | backend/app/analysis_workflow/recorder.py:483-488 | whatever functions return or raise: as long as the run is only resumed, no durably succeeded node and no output of one is lost |
| Resumption.SuccessIsLostExactly | backend/app/analysis_workflow/recorder.py:883-903 | an event takes a success from a run that is not opened again if and only if the run fails while a succeeded node is open, which takes a resume without a checkpoint |
| Resumption.ReturnedOutputStays | backend/app/analysis_workflow/recorder.py:525-543 | once a call has ended as succeeded with some output, the node counts as succeeded and that output reads back at every later moment while the run is only resumed |
| Resumption.DurableSuccessIsUsable | backend/app/analysis_workflow/recorder.py:525-543 | at every commit point of every run, an output that a node row names is stored and readable |
| Resumption.ResumingBootsSuffice | backend/app/services/analysis_engine.py:1738-1751 | a run counts as only resumed since some moment when every process started since then resumes it from a checkpoint, or finds no run yet |
| Resumption.NeverCalledAgain | backend/app/analysis_workflow/executor.py:72-90 | for any inputs and functions: once a node has durably succeeded, its function is not called again for as long as the run is only resumed |
| Resumption.CheckpointsAreContained | backend/app/analysis_workflow/recorder.py:807-824 | for any inputs and functions: every checkpoint written since any moment without a process lists durably succeeded nodes only, as long as the run is only resumed |
| Progress.EveryRunCanBeFinished | backend/app/services/analysis_engine.py:1738-1751 | from every reachable state, whatever crashed, one more start, opened by the program's own policy, can bring the run to completion |
| Progress.SmoothMove | backend/app/analysis_workflow/executor.py:72-133 | a worker whose function returns comes closer to its end with every move and never gives up |
| Progress.ForcedRestartStartsOver | backend/app/analysis_workflow/recorder.py:334-340 | after a forced restart no node counts as succeeded, while every artifact is still there |
| Progress.ReopeningStartsOver | backend/app/analysis_workflow/recorder.py:473-523 | a run reopened without resuming opens its first node again, even if it had succeeded, and for the time being it has not |
| Progress.FailedRunLosesSuccess | backend/app/analysis_workflow/recorder.py:883-903 | a reachable run, resumed without a checkpoint, whose failure takes a durable success |
| Progress.PolicyNeverLoses | backend/app/services/analysis_engine.py:1738-1751 | under the program's own policy no failure ever takes a success, whatever crashes and restarts there are |
| Context.TrimTextLimit | backend/app/analysis_workflow/context.py:20-23 | the text limit is honoured for every text if and only if it is at least three |
| Context.TruncateWithin | backend/app/analysis_workflow/context.py:26-34 | after truncation every list and text in the tree respects its limit, at every depth |
| Context.TruncateKeepsShort | backend/app/analysis_workflow/context.py:26-34 | what is within the limits is returned unchanged |
| Context.TruncateIdempotent | backend/app/analysis_workflow/context.py:26-34 | truncating twice is truncating once |
| Context.TighterAbsorbs | backend/app/analysis_workflow/context.py:26-34 | a tighter truncation absorbs a looser one applied before it |
| Context.TruncateKeepsKeys | backend/app/analysis_workflow/context.py:29-30 | dictionaries keep all their keys in place |
| Context.TruncateKeepsBeginnings | backend/app/analysis_workflow/context.py:20-34 | a cut text keeps its beginning and ends in dots at the limit; a cut list keeps its first items |
| Context.PlainPayloadsAreCut | backend/app/analysis_workflow/context.py:37-61 | a payload that is no evidence is left alone in the full mode, keeps to 8 items and 400 characters in the compressed mode and, unless it is a dictionary, to 2 and 80 in the minimal mode; it is unchanged if and only if it is within the limits |
| Context.EvidenceSurvives | backend/app/analysis_workflow/context.py:42-52 | in an evidence payload every field but `input` survives unchanged, as do snapshot, portfolio and learning context inside it; the rest is truncated |
| Context.EvidenceMinimalAbsorbsCompressed | backend/app/analysis_workflow/context.py:42-52 | shrinking a compressed evidence payload to minimal shows the agent the same input as shrinking the full one |
| Context.MinimalKeepsKnownSections | backend/app/analysis_workflow/context.py:55-61 | any other dictionary shrinks to exactly the known sections it has, each cut; without any, the whole is cut harder |
| Plan.Validate | backend/app/analysis_workflow/dag.py:59-69 | accepts exactly the plans with distinct keys whose dependencies name earlier phases and nodes, and otherwise names the first offender |
| Plan.ValidateNodes | backend/app/analysis_workflow/dag.py:66-69 | the inner loop accepts exactly the node lists that extend a topological order |
| Plan.DependencyIsEarlier | backend/app/analysis_workflow/dag.py:66-69 | in a validated plan dependencies lead backwards only, so they form no cycle |
| Plan.BuildPlan | backend/app/analysis_workflow/dag.py:72-131 | there is no plan exactly when a fast run's verdict phase has no node; otherwise the construction loop yields the plan of the source table, phase by phase as `BuildIsExact` spells it out, and reports an error exactly when validation fails |
| Plan.BuildIsExact | backend/app/analysis_workflow/dag.py:72-131 | for any source table: every source has its phase, in order, but for the two debates outside the deep mode; and each phase has exactly the nodes, criticalities, attempt limits and dependencies of its mode, written out |
| Plan.BuiltPlanIsSound | backend/app/analysis_workflow/dag.py:80-130 | for any source table with distinct keys the built plan validates, and each phase is a full barrier for later ones if and only if, among the kept sources, once one has nodes none with nodes follows right behind one without |
| Plan.EmptyPhaseBreaksBarrier | backend/app/analysis_workflow/dag.py:80-130 | an instance of a validated plan with an empty phase whose last node does not wait for its first |
| Plan.NonEmptySourcesGiveBarriers | backend/app/analysis_workflow/dag.py:80-130 | with non-empty source phases every node transitively depends on every node of all earlier kept phases |
| Schedule.RunIsSafe | backend/app/analysis_workflow/orchestrator.py:164-208 | in every board: pending, running, results and failed share out the nodes, the pool bound holds, and a node runs only after its in-phase dependencies have results |
| Schedule.NothingSubmittedAfterError | backend/app/analysis_workflow/orchestrator.py:173-192 | once an error or cancel is recorded it stays, and nothing more is submitted |
| Schedule.SomethingIsReady | backend/app/analysis_workflow/orchestrator.py:193-198 | with nothing running and no error, the first pending node is ready: the deadlock error is unreachable |
| Schedule.TurnsUseUpWork | backend/app/analysis_workflow/orchestrator.py:172-208 | every submission and every collection makes the remaining work smaller |
| Independence.ValidPhaseIsOrdered | backend/app/analysis_workflow/dag.py:59-69 | the LLM nodes of each phase of a validated plan have distinct keys and backward dependencies |
| Independence.SubmitGetsReference | backend/app/analysis_workflow/orchestrator.py:178-189 | whatever has finished so far, a node that may be submitted is given the payload of the sequential run |
| Independence.AgentsSeeEveryResult | backend/app/analysis_workflow/orchestrator.py:186-189 | the synthesis sees output and status of every finished node, and a warning for exactly those that did not succeed |
| Independence.DebateAnswersPredecessor | backend/app/analysis_workflow/orchestrator.py:181-185 | a debate node answers the claims of the node right before it and has all earlier claims in order |
| Independence.DebateIsGivenClaims | backend/app/analysis_workflow/orchestrator.py:97-98 | in the debate of every built plan: a node is given the claim lists of all nodes before it, one after the other, and as its opponent's claims the list that the node right before it returned |
| Independence.OthersAreGivenNoClaims | backend/app/analysis_workflow/orchestrator.py:178-189 | analysts are given nothing of each other, the risk agents neither, and no node outside the debate is given claims |
| Independence.SynthesisIsGivenAgents | backend/app/analysis_workflow/orchestrator.py:186-189 | the risk synthesis is given each risk agent's output and status under its key, and a warning exactly when it did not succeed |
| Independence.RunIsIndependent | backend/app/analysis_workflow/orchestrator.py:172-208 | under any completion order and pool size, every payload and every result is that of the sequential run |
| Independence.CompleteRunsAgree | backend/app/analysis_workflow/orchestrator.py:157-213 | two complete runs of a phase return the same results in plan order, under any two pool sizes and completion orders |
| Independence.BuiltPhasesAreOrdered | backend/app/analysis_workflow/dag.py:86-110 | in every coordinator phase of every built plan, each node that reads results is ordered against all the others |
| Independence.BuiltPhaseIsFit | backend/app/analysis_workflow/dag.py:72-131 | every phase of a validated built plan has distinct keys and backward dependencies, and if the coordinator runs it, its readers are ordered |
| Orchestrator.Coordinator.AdmitReady | backend/app/analysis_workflow/orchestrator.py:176-192 | ready nodes are submitted in plan order until the pool is full or none is left |
| Orchestrator.Coordinator.CollectNode | backend/app/analysis_workflow/orchestrator.py:201-206 | a finished execution leaves the pool; its exception becomes the error only if there is none yet |
| Orchestrator.Coordinator.Pass | backend/app/analysis_workflow/orchestrator.py:172-208 | one pass of the loop stays on a legal run, never deadlocks, and either ends with an empty pool or makes progress |
| Orchestrator.Coordinator.ExecutePhase | backend/app/analysis_workflow/orchestrator.py:157-213 | the loop ends with the pool drained; it returns the sequential results in plan order, and raises only after a cancel or a failed execution |
| Orchestrator.RunBuiltPhase | backend/app/analysis_workflow/orchestrator.py:157-251 | for every source table: a coordinator phase of the built plan returns the sequential results, whatever the pool size and the order of completion, and raises only after a cancel or a failed execution |
| Bridge.CoordinatorGivesVisible | backend/app/analysis_workflow/orchestrator.py:176-192 | in a phase where no node gives up, a submitted node finds all nodes it reaches finished, and its input is a function of the outputs visible to it |
| Evidence.DecimalReadsBack | backend/app/analysis_workflow/exporter.py:1057-1058 | a printed list index parses back to itself |
| Evidence.PartsOfJoin | backend/app/analysis_workflow/exporter.py:1051 | splitting takes a path apart into the names it was joined from |
| Evidence.PathValue | backend/app/analysis_workflow/exporter.py:1049-1063 | the resolver's loop walks the parts of the path one after the other |
| Evidence.WalkIsTrail | backend/app/analysis_workflow/exporter.py:1049-1063 | a value is returned exactly when a trail of values leads to it, each step by the first field of that name or by an index, which may be signed, carry zeros, or count from the end |
| Evidence.PartsAreExact | backend/app/analysis_workflow/exporter.py:1051 | a path is split at its dots and nothing else, and what is empty between them is dropped |
| Evidence.ReferencesResolve | backend/app/analysis_workflow/evidence.py:15-23 | every printed path resolves to the non-empty value, one to four steps deep, that it was printed for |
| Evidence.EachPositionHasOnePath | backend/app/analysis_workflow/evidence.py:15-23 | each non-empty position at depth one to four is printed exactly once, any other position never |
| Exporter.NormalIsSafe | backend/app/analysis_workflow/exporter.py:523-533 | normalising a safe path gives a safe path that is already normal |
| Exporter.SafePathIsExact | backend/app/analysis_workflow/exporter.py:529-533 | a path is refused if and only if it is empty, holds a backslash, begins with a slash, equals "..", begins with "../", ends with "/.." or contains "/../" |
| Exporter.NormalIsExact | backend/app/analysis_workflow/exporter.py:523-526 | the normal form drops what is empty or "." between the slashes, keeps the rest in order, and leaves a plain name as it is |
| Exporter.PackageWriter.AddBytes | backend/app/analysis_workflow/exporter.py:113-134 | unsafe paths (character by character), duplicate, oversized and clashing files are refused in this order without a trace; otherwise exactly one file and one entry are added; all staged files lie inside the package and none stands where another needs a directory |
| Exporter.PackageWriter.WriteManifest | backend/app/analysis_workflow/exporter.py:136-144 | the staged bytes are the sum of the entry sizes and the manifest, within the limit |
| Exporter.ManifestEntries | backend/app/analysis_workflow/exporter.py:482-513 | malformed entries are refused one by one with their reason, the others kept in order |
| Exporter.ListIsExact | backend/app/analysis_workflow/exporter.py:482-513 | a manifest's entries are taken as they stand, without an error, if and only if each describes one (a path inside the package, 64 hexadecimal digits, a size) and no path comes twice |
| Exporter.AcceptedIsExact | backend/app/analysis_workflow/exporter.py:482-513 | of a list with errors, too, exactly the first entry described for each path is taken |
| Exporter.AcceptedAreSafe | backend/app/analysis_workflow/exporter.py:482-513 | whatever the manifest holds, the entries it yields have safe, distinct paths and well-formed digests |
| Exporter.VerifyZip | backend/app/analysis_workflow/exporter.py:392-436 | an archive is valid if and only if its names are distinct and inside the package, a readable manifest describes entries on distinct paths, each is there with listed size and digest, and nothing else is but the manifest; then all entries are counted; an unlisted member is reported exactly when there is one, and then the first of them |
| Workflow.EarlierIsExact | backend/app/analysis_workflow/exporter.py:414-417 | the order in which unlisted members are named: the proper beginning first, else the smaller character where two names first differ |
| Exporter.MatchesIsExact | backend/app/analysis_workflow/exporter.py:392-513 | wherever listed paths are looked up: the checks pass exactly for the files that a readable manifest describes, written out without the verifier's own functions |
| Exporter.VerifyDirectory | backend/app/analysis_workflow/exporter.py:439-479 | the same for a directory, where listed paths are looked up in normal form |
| Exporter.SameListSameFiles | backend/app/analysis_workflow/exporter.py:410-479 | two sets of files under one list and with one manifest are the same, unless the hash collides on one of them, wherever listed paths are looked up |
| Exporter.SameManifestSamePackage | backend/app/analysis_workflow/exporter.py:392-436 | two archives valid against one manifest hold the same files, unless the hash collides on one |
| Exporter.SameManifestSameDirectory | backend/app/analysis_workflow/exporter.py:439-479 | two directories valid against one manifest hold the same files, unless the hash collides on one |
| Exporter.ArchiveAgainstDirectory | backend/app/analysis_workflow/exporter.py:392-479 | an archive and a directory valid against one manifest: the directory holds exactly the archive's files with normal names, unless the hash collides on one |
| Exporter.EntriesReadBack | backend/app/analysis_workflow/exporter.py:127-134 | the entries the writer lists are read back unchanged, whichever of them are marked as required |
| Exporter.BuiltPackageVerifies | backend/app/analysis_workflow/exporter.py:97-144 | what the writer stages verifies, as archive and as directory, if and only if no entry was overwritten by the manifest |
| Exporter.ListManifestFirst | backend/app/analysis_workflow/exporter.py:113-144 | an instance where a file added as manifest.json makes the package fail its own verification |
| Factors.MaxDrawdown | backend/app/candidates/factors.py:126-136 | the single pass finds the largest fall over all pairs of an earlier and a later close; it lies in [0, 1) for positive closes |
| Factors.FallIsExact | backend/app/candidates/factors.py:132-136 | a fall times the earlier value is what is lost from it |
| Factors.TailIsSuffix | backend/app/candidates/factors.py:127 | the window keeps the end of the list: at most so many values, all for a window of zero, and all but so many for a negative one |
| Factors.PercentileBounds | backend/app/candidates/factors.py:183-194 | a percentile exists exactly when there is a value and enough samples; with n usable samples it lies in [50/n, 100 - 50/n], so the final clamp never binds |
| Factors.PercentileIsMidRank | backend/app/candidates/factors.py:183-194 | for any winsor pair and direction: the mid-rank, among the samples in any order, of the value moved to the nearest point between the winsor samples, which stand in the order of their shares |
| Factors.PercentileIsExact | backend/app/candidates/factors.py:183-194 | the percentile read off the samples in any order: the winsor samples are those with so many smaller ones, and the rank counts the smaller samples once and the equal ones, or the value itself, by half |
| Factors.PercentileIsMonotone | backend/app/candidates/factors.py:183-194 | the percentile is monotone in the value when higher is better, antitone when lower is, despite winsorising and ties |
| Factors.CombinedScoreIsMean | backend/app/candidates/factors.py:237-253 | a combined score exists exactly when a component counts, and lies between the lowest and highest score that counts |
| Factors.CombinedConfidenceIsSum | backend/app/candidates/factors.py:237-253 | the combined confidence is the weighted sum, not the mean, so missing components lower it; the clamp never binds for weights up to one |
| Factors.CombinationIsExact | backend/app/candidates/factors.py:237-253 | score, weight and confidence as sums over the available components with a score and a positive weight; the score times the weight is the weighted sum of the scores, the confidence is capped at 100 |
| PortfolioFit.CauchySchwarz | backend/app/candidates/portfolio_fit.py:44-51 | covariance squared never exceeds the product of the variances |
| PortfolioFit.CorrelationBounds | backend/app/candidates/portfolio_fit.py:35-51 | a correlation exists exactly when enough days are shared and both series vary, and lies in [-1, 1] |
| PortfolioFit.CorrelationIsExact | backend/app/candidates/portfolio_fit.py:35-51 | a correlation exists exactly when enough days are shared and each series has two values over them; times the root of the product of the summed squares it is the summed product of the deviations from both means |
| PortfolioFit.LinesCorrelateFully | backend/app/candidates/portfolio_fit.py:40-51 | two series on a rising line correlate with 1, on a falling line with -1, on a flat one not at all |
| PortfolioFit.CorrelationIsSymmetric | backend/app/candidates/portfolio_fit.py:35-51 | the correlation does not depend on which series comes first |
| PortfolioFit.SeriesArePaired | backend/app/candidates/portfolio_fit.py:40-50 | the two series are paired day by day, over each shared day once and in order |
| PortfolioFit.ReturnsAreDated | backend/app/candidates/portfolio_fit.py:26-32 | each day but the first has its own return if and only if no close but the last is zero or negative |
| PortfolioFit.ReturnsAreExact | backend/app/candidates/portfolio_fit.py:26-32 | over positive closes the series has the last days, at most so many and never the first bar's, and each return compounds the close before it to its day's close |
| PortfolioFit.ReturnsShift | backend/app/candidates/portfolio_fit.py:26-32 | an instance where a return is stored under an earlier day |
| PortfolioFit.AverageCorrelation | backend/app/candidates/portfolio_fit.py:126-140 | the running sums give the weighted mean of the correlations, which lies in [-1, 1], and the running maximum is their maximum |
| PortfolioFit.CorrelatedIsExact | backend/app/candidates/portfolio_fit.py:126-138 | what is averaged are exactly the correlations of the held positions that have one, each with its position's weight |
| PortfolioFit.WeightsAreExact | backend/app/candidates/portfolio_fit.py:77-81 | a code weighs what its last row says, nothing when that is negative or no number; rows without a code are dropped |
| PortfolioFit.ReplacementSource | backend/app/candidates/portfolio_fit.py:69-107 | the source is a held position with positive weight, a score, no confidence below 50, no coverage below a half and a weakness within the limit; it comes first by weakness, opportunity and code; there is none exactly when no row qualifies |
| PortfolioFit.FundProbe | backend/app/candidates/portfolio_fit.py:144-175 | cash first, then the weakest eligible position, else none, each exactly when it pays for enough; the probe is the largest that the configured weight, its funding and the room under the cap allow |
| PortfolioFit.ProbeConservesWeight | backend/app/candidates/portfolio_fit.py:177-189 | replacement leaves the sum of weights unchanged, cash adds exactly the probe, no funding changes nothing; only candidate and source move |
| PortfolioFit.ProbeRespectsCap | backend/app/candidates/portfolio_fit.py:193-195 | the probe never causes a violation of the hard cap; with a spendable minimum that is not negative there is one exactly when the weight already held exceeds the cap |
| PortfolioFit.VarianceIsNotNegative | backend/app/candidates/portfolio_fit.py:204-219 | both projected variances are never negative, so the outer maximum never binds |
| PortfolioFit.VarianceIsExact | backend/app/candidates/portfolio_fit.py:204-219 | the projected variance is the square of the sum at full correlation, of the difference at full opposition, and in between on the line through both; only a probe from cash leaves the base unscaled |
| PortfolioFit.CalculatePortfolioFit | backend/app/candidates/portfolio_fit.py:110-221 | end to end: average and highest correlation, funding and projected weights are those of the parts; weight is conserved, no projected weight is negative, the cap check is exact and the projected volatility is the non-negative root of the projected variance |

## Left out

- ResumedRunsRefineTheReference: regular runs only, as are CompleteRunsAgree, DurableOutputIsReference and EveryRunCanBeFinished; where an optional node gives up it stays skipped (`GivenUpNodeIsNotRetried`), and an important one that succeeds after a resume legitimately changes later inputs.
- DurableSuccessOnlyGrows: while the run is only resumed, as are ReturnedOutputStays, NeverCalledAgain and CheckpointsAreContained; a forced restart resets node rows on purpose, a plain reopening starts nodes again (`ForcedRestartStartsOver`, `ReopeningStartsOver`), and a node that is no longer enabled loses its success (`SkipNode`). Then only `HistoryIsAppendOnly` and the theorems of `Durability` and `Recovery` hold.
- DebateIsGivenClaims: an earlier node returned nothing or an object whose claims, if any, are a list; handed anything else, the code raises or passes the value through.
- FailRun: the four ways of failing exclude each other, where the code takes three flags; its only caller never sets two.
- A commit that fails, with the process going on, is not modelled: where a commit fails the process ends.
- ResolveClaimRows: an unknown id leaves no change at all; in the code the rows before it stay changed in the session, and its next commit makes them durable.
- What a node function commits is any list of artifacts and claims: one that lists a new claim id twice is an update there, where `RecordClaims` refuses it.
- FailAttemptRow: the recorder forgets its attempt with the first commit instead of after the last one; nothing reads it in between.
- PathValue: list indices are an optional sign and ASCII digits; the other spellings `int` accepts do not resolve here.
- PercentileRank: asks for a sample when the minimum sample size is zero; without any the code raises.
- ReturnsAreDated: the bars are of different days, and sorted as the normalisation leaves them.
- Redaction, truncation of error texts to 500 characters, timestamps, latencies, token counts, retry counts of the transport, checkpoint extras and stored model results: the model's JSON is already redacted and its rows carry the fields that decide behaviour.
- Payloads that are not documents hash through a text form in the code; inputs and outputs here are JSON documents.
- Sessions, locks and write guards: each commit is one atomic step, and tables of different runs do not meet.
- The stage driver, prompts, model calls, output validators and failure classification: a failure class is part of the error, and driver commits are any that change no node's status or output.
- Node types, groups, mode names and conditional flags of a plan; the literal source table of phases (any table is allowed).
- Export renderers, staging directories, ZIP encoding, unreadable files; JSON text is an arbitrary decoder.
- Rounding and floating point: arithmetic is over exact reals, the square root is any function that squares back.
- Score cards of the portfolio fit (diversification, concentration, industry), bar normalisation, factor tables and ranking: threshold chains without further invariants.
