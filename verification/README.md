# Verification of JHarness

JHarness runs an agent durably: an engine plans with a model, executes tool calls in batches, and commits a checkpoint after every step; a repository keeps the checkpoints; diagnostics re-check what was committed and what was reported. This project models that machinery in Dafny and proves what its parts promise each other.

The model has four layers.

- **History** (`SkewList`, `History`, `IdSet`, `Pending`, `Linkage`, `Linking`, `Digests`, `DigestStream`, `DigestWriting`). The conversation is a skew-binary random-access list, the seen call ids a persistent byte trie, the owed calls a cursor with precomputed suffix digests. Each is proved to refine a plain sequence or set, and validating an edit from retained evidence is proved to accept exactly what re-validating the whole history accepts, which is told on the places of its messages.
- **Engine and checkers** (`State`, `Checkpoints`, `Views`, `Changes`, `Commits`, `Rounds`, `Progress`, `Hosts`, `ToolExecution`, `Controls`, `Policy`, `Engine`, `Runs`, `Trace`, `Verifier`, `Tracking`, `Completeness`, `Soundness`, `Lifecycle`, `Endings`, `ToolEndings`, `ToolLog`, `Openings`, `Calls`, `Observation`). One pass of the engine's loop is a function of what the outside world does in it: model, reducer, tools under any schedule, approvals, controls, clock. The reducer, the boundary checks, `verify_change` and the trace verifier are modelled independently of it. The main results say what each thing the outside world can do makes durable, that the checkers accept everything the engine does, exactly which traces the trace verifier accepts, that the loop ends within a fixed bound and keeps its limits, that calls are conserved over any number of invocations, and exactly which inserts a run loses.
- **Repositories** (`Durable`, `Repository`, `Codec`, `SqlStore`, `Settlement`, `Decimal`, `RedisStore`, `RedisLoop`). One abstract machine per run (head, ledger, compare-and-set on the revision, idempotent retry) is refined by the two repositories that keep whole checkpoints and by the three that cut histories into chunks, with several clients interleaving and, for MySQL and Redis, with lost responses.
- **Two parsers** (`Sse`, `SseText`, `Glob`): the incremental server-sent-event parser and the dynamic-programming glob matcher.

How the model reads the program:

- Objects the program updates in place are classes whose methods are proved against functions of their old state: the trace verifier, the tool execution record, the engine, the invocation buffer, the control inbox, the digest writer, and the repositories. Frozen values are datatypes.
- A digest is the term it was built from (`Digests`), so equal digests mean equal contents. `DigestStream` shows that the bytes the program hashes determine that term; that SHA-256 and SHA-1 have no collisions is assumed by this reading.
- Text is its UTF-8 form, one character per byte. A JSON mapping is its entries in key order, a float its hexadecimal text.
- What the model, the tools, the reducer, the approval policy, the clock and the host do is given as input values, with the invariants their constructors enforce. UUIDs are inputs required to be new. A tool reports no progress after it has returned, and a model streams no delta after it has answered.
- `Cause` names why the engine commits; `Allowed` says in which states each is offered and what its values' constructors have checked.
- A commit attempt whose response is lost either took effect before the error or never does.

Where the code differs from its documentation, or from what a reader would expect, the model follows the code. Six results say so explicitly, each with the exact condition under which the promise holds. Storage forgets the pending-turn flag of owed calls and of suspensions, so its round trip is exact only without it (`Codec.RoundTrip`, `Codec.FlagIsLost`). The checkpoint digest leaves out the same flag at the top level and in model-turn facts (`Durable.DigestIdentifies`, `Durable.DigestOmitsFlag`). A reused call id or an empty metadata key raises out of the engine instead of failing the run (`Progress.CommitOutcome`, `Progress.SomePassesRaise`). Inserts can leave a wait in another order than they came, exactly when an insert that raced with the effect had a different one behind it (`Controls.WaitKeepsOrder`, `Controls.RequeueReorders`). An insert is lost exactly when the tool step that took it misses the deadline, or when its own commit comes late (`Progress.PassKeepsInserts`, `Hosts.TimedOutToolsLose`, `Hosts.LateInsertIsLost`). A usage counter can fall in an accepted trace, exactly when a model turn reports a negative number (`Soundness.UsageNeverFalls`, `Soundness.TokensMayFall`).

`dafny verify dfyconfig.toml` checks the whole project.

## Model

| member | source | states |
|---|---|---|
| Runs.StreamIsAccepted | packages/jharness-kernel/src/jharness/kernel/_engine/engine.py:118-154 | For every start, continue or resume, every model, reducer, tool, approval, control and clock behaviour: if the invocation stops as terminal or suspended, its whole event stream is accepted by the trace verifier. |
| Observation.ObservedIsAccepted | packages/jharness-kernel/src/jharness/kernel/invocation.py:160-180 | Whatever reaches an observer of such an invocation, with MODEL_DELTA and TOOL_PROGRESS events dropped wherever the buffer was full, is again an accepted trace with strictly increasing numbers. |
| EngineLoop.Run | packages/jharness-kernel/src/jharness/kernel/_engine/engine.py:118-154 | The engine as it runs, with its fields: for every request and every legal host it ends, and unless it raises, the events it emitted are accepted and the last snapshot is valid and no longer active. |
| Runs.RunIsBounded | packages/jharness-kernel/src/jharness/kernel/_engine/engine.py:268-282 | The number of passes of the active loop is at most twice the remaining budget and inserts, plus two: a bound fixed before the first pass, for any behaviour of the outside. |
| Runs.RunKeepsLimits | packages/jharness-kernel/src/jharness/kernel/_engine/engine.py:268-363 | A run that starts within its limits never commits planning steps or tool calls past them, nor keeps going with total tokens past theirs. |
| Runs.RoundsAccepted | packages/jharness-kernel/src/jharness/kernel/_engine/engine.py:268-282 | After any number of passes the verifier has accepted every event and stands idle at the loop's checkpoint. |
| Runs.InitializeAccepted | packages/jharness-kernel/src/jharness/kernel/_engine/engine.py:156-227 | The first commit of a started or resumed run is accepted from the verifier state its first entry leaves, and a continued run starts idle at its checkpoint. |
| Runs.OpenedAccepted | packages/jharness-kernel/src/jharness/kernel/_engine/engine.py:229-266 | A catalog that pauses, times out or fails, or capabilities that fail, are committed in a way the verifier accepts. |
| Runs.ResumeOutcome | packages/jharness-kernel/src/jharness/kernel/_engine/engine.py:213-227 | Resuming raises exactly when its metadata has an empty key; otherwise the resumption is what is committed, or the deadline when it came first, in a valid checkpoint one revision later. |
| Runs.OpenedOutcome | packages/jharness-kernel/src/jharness/kernel/_engine/engine.py:229-266 | Preparing raises exactly when the catalog pauses with an empty metadata key; otherwise the loop is entered unchanged but for the deferred inserts, or exactly the catalog's pause, limit or failure is committed, or the deadline when it came first. |
| Runs.BodyIsAccepted | packages/jharness-kernel/src/jharness/kernel/_engine/engine.py:434-439 | The reported stop reason and last checkpoint id are the ones the verifier demands. |
| Runs.StartCheckpointValid | packages/jharness-kernel/src/jharness/kernel/commands.py:60-76 | A valid start request always leads to a valid first checkpoint. |
| EngineLoop.SomeHostIsLegal | packages/jharness-kernel/src/jharness/kernel/_engine/engine.py:352-353 | Legal hosts exist, and not only idle ones: one is legal in every state of the loop, and wherever no insert is waiting and the limits leave room its model answers with a turn that owes a call, and its tool runs an owed call whose arguments parsed to its own result. |
| EngineLoop.Engine.RunActive | packages/jharness-kernel/src/jharness/kernel/_engine/engine.py:268-282 | The loop itself, decreasing a measure each pass: it ends for every legal host, keeps the limits, and leaves the accepted prefix extended. |
| EngineLoop.Engine.OnePass | packages/jharness-kernel/src/jharness/kernel/_engine/engine.py:268-363 | One pass changes the fields, and emits the events, exactly as the pass function says, or raises exactly when it says. |
| EngineLoop.Engine.Boundary | packages/jharness-kernel/src/jharness/kernel/_engine/engine.py:352-363 | The deadline first, then the first pause, then the oldest deferred insert when the state may take one; every drained insert is kept. What each leads to is Endings.BoundaryEnds. |
| EngineLoop.Engine.CommitCause | packages/jharness-kernel/src/jharness/kernel/_engine/engine.py:405-432 | A commit is constructed, reduced, and replaced by the deadline limit when it is late; it is then the last checkpoint and reported with its view. |
| EngineLoop.Engine.PlanStep | packages/jharness-kernel/src/jharness/kernel/_engine/engine.py:284-322 | Reducer, planning limit and model call in their order, with the skip flag and the deferred inserts each leaves. What each leads to is Endings.ReducerEnds and Endings.ModelEnds. |
| EngineLoop.Engine.ToolsStep | packages/jharness-kernel/src/jharness/kernel/_engine/engine.py:324-339 | A tool step extends the deferred inserts by what it deferred and commits its change. What each of its endings leads to is ToolEndings.SelectionEnds, ApprovalEnds and ToolsEnd. |
| EngineLoop.Engine.Resume | packages/jharness-kernel/src/jharness/kernel/_engine/engine.py:213-227 | Resuming raises exactly when its metadata has an empty key, and otherwise commits the resumption, or the deadline, as the first durable step. |
| EngineLoop.Engine.Prepare | packages/jharness-kernel/src/jharness/kernel/_engine/engine.py:229-266 | Preparing raises exactly when the catalog pauses with an empty metadata key; otherwise it enters the loop with what was deferred, or commits the catalog's own pause, limit or failure, or the deadline. |
| Endings.BoundaryEnds | packages/jharness-kernel/src/jharness/kernel/_engine/engine.py:352-363 | Over a pass and its commit, in time: an expired deadline limits the run, with history, metrics and deferred inserts as they were; a polled pause suspends it with exactly that suspension; between turns the insert deferred longest is put at the end of the history and the others stay, in order. |
| Endings.ReducerEnds | packages/jharness-kernel/src/jharness/kernel/_engine/engine.py:284-296 | Every answer of the history reducer: a proposal no longer than the history that links replaces it, and the reducer is skipped in the next pass; any other proposal, or a raise, fails the run with history_reducer_error; a pause, an insert or the deadline is committed as such. |
| Endings.ModelEnds | packages/jharness-kernel/src/jharness/kernel/_engine/planning.py:101-148 | Every ending of a model call, and a planning step past its limit: which events were emitted, which inserts wait, and the fact, state, history and metrics that are committed, failures with their code. |
| Endings.LateEnds | packages/jharness-kernel/src/jharness/kernel/_engine/engine.py:405-419 | A late round limits the run with its history and metrics as they were, after the same events and with the same deferred inserts as in time. It raises whenever it must on an empty metadata key, and on a reused call id unless the deadline came first. |
| Endings.CommitBecomes | packages/jharness-kernel/src/jharness/kernel/_engine/change.py:63-116 | What every cause makes durable, field by field: the fact, the state, the whole history and the metrics of the next checkpoint; or a raise, exactly on an empty metadata key or a reused call id. A turn past the token limit is limited first, then owes its calls, then plans on for its flag or for waiting inserts, else completes; a batch owes what is left and is suspended by its first waiting result, else by a pause. |
| ToolEndings.SelectionEnds | packages/jharness-kernel/src/jharness/kernel/_engine/tooling.py:81-101 | With no tool calls left the run is limited; unless the proposed batch is a prefix of the owed calls within both limits, parallel only if every tool is safe, it fails. |
| ToolEndings.ApprovalEnds | packages/jharness-kernel/src/jharness/kernel/_engine/tooling.py:180-232 | An approval exchange that does not go ahead: no answer in time limits the run, a raise, a wrong number of answers or one for another call fails it after exactly the decisions that fitted, and a fitting exchange with a suspension suspends it with the first. |
| ToolEndings.SetUpIsApproved | packages/jharness-kernel/src/jharness/kernel/_engine/tooling.py:144-232 | An exchange that goes ahead leaves each call as its binding and its own answer say: decided as invalid, decided as denied with that answer's reason, or bound. |
| ToolEndings.ToolsEnd | packages/jharness-kernel/src/jharness/kernel/_engine/tooling.py:103-125 | A batch that goes ahead runs this set-up under the schedule. Past the deadline the run is limited and what was collected is dropped; otherwise the batch is committed with its results, a pause drained before or else the first one after, and all inserts deferred in order. |
| ToolEndings.DeniedNeverRuns | packages/jharness-kernel/src/jharness/kernel/_engine/tooling.py:205-232 | Nothing of a pass starts under the id of a denied call, whatever the schedule and the deadline do, and a committed batch reports approval_denied with the answer's reason for it, in its fact and in its message. |
| ToolEndings.OwnEndingsStand | packages/jharness-kernel/src/jharness/kernel/_engine/tooling.py:319-371 | At the end of a batch each bound call's result is what its own tool's ending becomes: tool_error for a raise, progress_overflow if it reported while the buffer was full, and otherwise the result it gave. |
| ToolLog.LogTellsAll | packages/jharness-kernel/src/jharness/kernel/_engine/tooling.py:389-461 | The events of a batch that ran to its end tell exactly what its schedule made happen: starts in the order of the permits, endings in the order the tools ended, every progress report that found room in the order it was made, and a cancellation exactly when its tool was running. |
| ToolLog.RunTells | packages/jharness-kernel/src/jharness/kernel/_engine/tooling.py:389-461 | The same at every point of a schedule: what the log tells, followed by the completions and the progress not yet told, is all that has happened so far. |
| ToolEndings.PauseArrives | packages/jharness-kernel/src/jharness/kernel/_engine/tooling.py:389-424 | The pause a schedule leaves is the first one that came. |
| ToolEndings.InsertsArrive | packages/jharness-kernel/src/jharness/kernel/_engine/tooling.py:389-424 | The inserts a schedule leaves are all that came, in order. |
| Openings.InitializeEnds | packages/jharness-kernel/src/jharness/kernel/_engine/engine.py:156-227 | A started run begins with a checkpoint of its messages at revision 0, in planning, nothing spent; a continued one goes on from its own; a resumed one continues where it was suspended, after the appended messages, or is limited when that is late, or raises on an empty metadata key. |
| Openings.PrepareEnds | packages/jharness-kernel/src/jharness/kernel/_engine/engine.py:229-266 | Every ending of opening the catalog and reading the capabilities: the loop is entered, or the run is suspended, limited, or failed with the code of what raised, inserts that came meanwhile deferred. |
| Openings.LatePrepareEnds | packages/jharness-kernel/src/jharness/kernel/_engine/engine.py:405-419 | The same when the commit is late: the run is limited instead, or raises on an empty metadata key. |
| Progress.PassAllowed | packages/jharness-kernel/src/jharness/kernel/_engine/engine.py:268-403 | Whatever happens in a pass, the change it leads to is one the engine may offer in that state: pauses only when active, inserts only when interruptible, batches only of the pending prefix with proper results. |
| Progress.CommitOutcome | packages/jharness-kernel/src/jharness/kernel/_engine/engine.py:405-432 | A pass raises out of the engine if and only if its fact repeats an empty metadata key, or its model turn reuses a call id and the deadline had not passed before the commit; otherwise the next checkpoint is valid, one revision later, and both checkers accept it. |
| Progress.EmptyKeyRaises | packages/jharness-kernel/src/jharness/kernel/checkpoint.py:38-60 | In every active loop, whatever the clock does, a legal round raises: a pause whose metadata has an empty key. |
| Progress.ReusedIdRaises | packages/jharness-kernel/src/jharness/kernel/_engine/planning.py:179-217 | In every planning loop with a step left and no insert to commit first, a legal round raises before the deadline: a response that uses a call id of the history again. |
| Progress.SomePassesRaise | packages/jharness-kernel/src/jharness/kernel/_engine/engine.py:405-432 | One concrete valid loop from which both happen. |
| Progress.MeasureFalls | packages/jharness-kernel/src/jharness/kernel/_engine/engine.py:268-322 | Each pass that leaves the run active lowers twice the remaining budget and inserts plus the reducer flag. |
| Progress.StepKeepsLimits | packages/jharness-kernel/src/jharness/kernel/_engine/planning.py:179-217 | No commit pushes a counter past its limit, or keeps a run going past its token limit. |
| Progress.PassKeepsInserts | packages/jharness-kernel/src/jharness/kernel/_engine/engine.py:329-363 | An exact account of the inserts of a pass that commits: what was deferred and what was taken from the inbox is what is still deferred, what is committed, and what is lost. Nothing is lost if and only if neither a tool step that had taken inserts misses the deadline nor the commit of an insert comes late. |
| Progress.PassAccount | packages/jharness-kernel/src/jharness/kernel/_engine/engine.py:352-363 | The same for the change a pass plans; at a boundary the inserts stay in order, the one deferred longest being the one committed. |
| Progress.PassHistory | packages/jharness-kernel/src/jharness/kernel/_engine/engine.py:405-432 | The committed fact and history are those of the cause that is committed, planned or deadline, and of no other. |
| Hosts.LateInsertIsLost | packages/jharness-kernel/src/jharness/kernel/_engine/engine.py:405-419 | In every planning loop with nothing deferred, an insert taken at the boundary is lost when the deadline passes before or during its commit: the run is limited with the history it had. |
| Hosts.TimedOutToolsLose | packages/jharness-kernel/src/jharness/kernel/_engine/tooling.py:110-122 | In every loop that owes a call that can run, an insert drained before the tools run is lost when they miss the deadline. |
| Hosts.WorkAsks | packages/jharness-kernel/src/jharness/kernel/_engine/planning.py:179-217 | A host whose model answers moves every planning loop with room to one that owes exactly the call asked for. |
| Hosts.WorkRunsTool | packages/jharness-kernel/src/jharness/kernel/_engine/tooling.py:81-142 | A host that runs the owed call alone to its end commits its batch with the outcome of that very tool. |
| Runs.RunAccountsForInserts | packages/jharness-kernel/src/jharness/kernel/_engine/engine.py:268-282 | Over any number of passes: what was deferred at first and all that was taken is what is still deferred, all that was committed, and all that was lost. |
| Progress.SetupIsValid | packages/jharness-kernel/src/jharness/kernel/_engine/tooling.py:144-232 | Whatever binds and whatever is denied, the tools start from a valid set-up whose calls are the batch's, in order. Which are bound and which decided is ToolEndings.SetUpIsApproved. |
| Progress.ToolsAllowed | packages/jharness-kernel/src/jharness/kernel/_engine/tooling.py:81-142 | Every outcome of a tool step, with any selection, approval and schedule, is a change that may be committed. |
| Policy.Select | packages/jharness-kernel/src/jharness/kernel/tools.py:429-450 | The default policy takes the longest leading run of parallel-safe calls within the batch size, or the first call alone, and always a batch the tool step accepts. |
| Commits.ChangePasses | packages/jharness-kernel/src/jharness/kernel/_engine/change.py:97-116 | From a valid snapshot every change the engine can build is constructed if and only if its metadata keys are non-empty, and then committed if and only if its call ids are new: both the boundary checks and verify_change accept it and the next snapshot is valid; otherwise the reducer reports a reused call id. |
| Commits.TurnPasses | packages/jharness-kernel/src/jharness/kernel/_engine/planning.py:179-217 | The same for a model turn, whatever the response, the token limit and the waiting inserts. |
| Commits.BatchPasses | packages/jharness-kernel/src/jharness/kernel/_engine/tooling.py:498-532 | The same for a tool batch: a prefix of the pending calls, any results, a waiting result before an observed pause. |
| Commits.PausePasses | packages/jharness-kernel/src/jharness/kernel/_engine/change.py:82-94 | The same for a suspension from any active state. |
| Commits.ResumePasses | packages/jharness-kernel/src/jharness/kernel/_engine/engine.py:217-227 | The same for a resumption with appended messages. |
| Commits.RewritePasses | packages/jharness-kernel/src/jharness/kernel/_engine/engine.py:365-403 | The same for a history rewrite. |
| Commits.InsertPasses | packages/jharness-kernel/src/jharness/kernel/_engine/change.py:74-79 | The same for an insert, without condition. |
| Commits.FailurePasses | packages/jharness-kernel/src/jharness/kernel/_engine/change.py:63-67 | A failure is committed from any state. |
| Commits.LimitPasses | packages/jharness-kernel/src/jharness/kernel/_engine/change.py:70-71 | A limit is committed from any state. |
| Commits.TurnLinks | packages/jharness-kernel/src/jharness/kernel/_history.py:150-169 | The reducer accepts a response exactly when none of its call ids occurs in the history, and otherwise reports a reused id. |
| Commits.LinkResults | packages/jharness-kernel/src/jharness/kernel/_history.py:150-169 | Results for a prefix of the unresolved calls, in order, resolve exactly that prefix. |
| Commits.TurnView | packages/jharness-kernel/src/jharness/kernel/_engine/verification.py:239-270 | The view of the reduced snapshot is the advance of the old view by the turn's fact. |
| Commits.TurnBoundary | packages/jharness-kernel/src/jharness/kernel/checkpoint.py:410-458 | The reduced snapshot of a turn passes the model boundary checks. |
| Commits.BatchView | packages/jharness-kernel/src/jharness/kernel/_engine/verification.py:273-325 | The view of the reduced snapshot is the advance of the old view by the batch's fact, remaining digest included. |
| Commits.BatchBoundary | packages/jharness-kernel/src/jharness/kernel/checkpoint.py:371-390 | The reduced snapshot of a batch passes the tool boundary checks. |
| Commits.BatchDigest | packages/jharness-kernel/src/jharness/kernel/_digest.py:145-149 | Composing a batch's ids with the digest of the rest gives the digest of all pending ids. |
| Completeness.PassAccepted | packages/jharness-kernel/src/jharness/kernel/_engine/engine.py:268-432 | One pass, with all its events and its commit, keeps the verifier idle at the loop's checkpoint. |
| Completeness.PassPrepares | packages/jharness-kernel/src/jharness/kernel/_engine/engine.py:284-339 | The events of any pass are accepted and leave exactly the evidence its fact needs. |
| Completeness.CommitAccepted | packages/jharness-kernel/src/jharness/kernel/diagnostics/verification.py:382-422 | A commit whose effects are recorded is accepted and resets the evidence at the next checkpoint. |
| Completeness.ModelAccepted | packages/jharness-kernel/src/jharness/kernel/diagnostics/verification.py:178-209 | The events of a model call are accepted, whatever it streams and however it ends. |
| Completeness.ApprovalAccepted | packages/jharness-kernel/src/jharness/kernel/diagnostics/verification.py:279-301 | An approval exchange is accepted whatever is answered, and waits for nothing when the calls are approved. |
| Completeness.DecisionsAccepted | packages/jharness-kernel/src/jharness/kernel/_engine/tooling.py:205-227 | Answers that fit their requests are taken out of the waiting set one by one, up to the first that does not fit. |
| Completeness.BatchPrepares | packages/jharness-kernel/src/jharness/kernel/_engine/tooling.py:81-125 | Selection, approval and tools of a batch leave exactly the evidence its fact needs, whatever happens in them. |
| Tracking.RunObserved | packages/jharness-kernel/src/jharness/kernel/_engine/tooling.py:249-371 | Under every schedule the verifier accepts the log of a tool batch and holds exactly the calls in flight as active and the reported ones as settled. |
| Tracking.StepObserved | packages/jharness-kernel/src/jharness/kernel/_engine/tooling.py:389-461 | The same for each single step: start, progress, completion, control, report. |
| Tracking.DoneIsEvidence | packages/jharness-kernel/src/jharness/kernel/diagnostics/verification.py:471-506 | When the tools are done the settled entries are exactly what the batch's fact reports. |
| ToolExecution.BatchRunsOnce | packages/jharness-kernel/src/jharness/kernel/_engine/tooling.py:249-371 | Under every schedule that runs to its end each bound call was started once and finished once, each decided call never, all permits are back, and results stand in batch order whatever the completion order: at each bound call's place stands what that call's own ending became, at a decided call's place its decision. |
| ToolExecution.RunGives | packages/jharness-kernel/src/jharness/kernel/_engine/tooling.py:352-451 | At any point of any schedule the result held for a call is the one given at its own completion step, and is never replaced. |
| ToolExecution.StepGives | packages/jharness-kernel/src/jharness/kernel/_engine/tooling.py:352-451 | A completion step sets the result of its own call, which had none; every other step, reports in completion order included, leaves every call's result as it was. |
| ToolExecution.FlightIsBounded | packages/jharness-kernel/src/jharness/kernel/_engine/tooling.py:291-301 | Tools started and not finished never exceed the permits, and are at most one in a serial batch. |
| ToolExecution.NeverStuck | packages/jharness-kernel/src/jharness/kernel/_engine/tooling.py:389-455 | No schedule gets stuck while a task is left. |
| ToolExecution.DoneIsComplete | packages/jharness-kernel/src/jharness/kernel/_engine/tooling.py:464-467 | When the loop ends every call has its result and no progress is left behind. |
| ToolExecution.StepInv | packages/jharness-kernel/src/jharness/kernel/_engine/tooling.py:319-461 | Every step of every schedule keeps permits conserved, completions ordered, progress tied to running tools, and results proper. |
| ToolExecution.Execute | packages/jharness-kernel/src/jharness/kernel/_engine/tooling.py:249-270 | The record, updated in place under a given schedule, ends as the step relation says. |
| ToolExecution.Execution.Acquire | packages/jharness-kernel/src/jharness/kernel/_engine/tooling.py:332-346 | Taking a permit starts the tool and reports it. |
| ToolExecution.Execution.EmitProgress | packages/jharness-kernel/src/jharness/kernel/_engine/tooling.py:374-386 | Progress is queued while there is room, and otherwise marks its call. |
| ToolExecution.Execution.Complete | packages/jharness-kernel/src/jharness/kernel/_engine/tooling.py:352-368 | A raise becomes a tool_error failure, lost progress a progress_overflow failure, anything else stands; the completion is recorded in order. |
| ToolExecution.Execution.Advance | packages/jharness-kernel/src/jharness/kernel/_engine/tooling.py:389-424 | A held progress value, then one control, then every recorded completion, in that order. |
| ToolExecution.Execution.FinishReady | packages/jharness-kernel/src/jharness/kernel/_engine/tooling.py:427-455 | Completions are reported in the order they were recorded, and none is left unrecorded. |
| ToolExecution.Execution.ReportFirst | packages/jharness-kernel/src/jharness/kernel/_engine/tooling.py:427-450 | Queued progress first, then the finish, then the permit. |
| ToolExecution.Execution.DrainProgress | packages/jharness-kernel/src/jharness/kernel/_engine/tooling.py:458-461 | All queued progress is emitted, in order. |
| Controls.ControlInbox.Drain | packages/jharness-kernel/src/jharness/kernel/control.py:93-105 | The first pause, every insert in order, every cancellation answered, and an empty queue. |
| Controls.ControlInbox.AwaitEffect | packages/jharness-kernel/src/jharness/kernel/_engine/deadline.py:50-87 | For any sequence of wakes the loop ends, defers, answers cancellations and leaves the queue as the wait functions say. |
| Controls.WaitConserves | packages/jharness-kernel/src/jharness/kernel/_engine/deadline.py:50-101 | No pause or insert is lost by a wait: each is still queued, was deferred, or is the interruption, and only a control that may interrupt is. |
| Controls.WaitEnds | packages/jharness-kernel/src/jharness/kernel/_engine/deadline.py:61-87 | A wait returns the effect as soon as it is done, whatever control came with it; before that only a pause, or an insert that is not deferred, interrupts it; and it times out only while the effect is not done. |
| Controls.WaitAnswers | packages/jharness-kernel/src/jharness/kernel/_engine/deadline.py:50-101 | Cancellations are answered by a wait in the order in which they came, and those it does not answer are still queued in that order. |
| Controls.FirstPauseIs | packages/jharness-kernel/src/jharness/kernel/control.py:93-105 | The pause a drained queue gives is the one that no other pause comes before, if there is any. |
| Controls.ControlsGrow | packages/jharness-kernel/src/jharness/kernel/control.py:93-105 | One more control in the queue adds just its own insert or cancellation, behind those before it. |
| Controls.WaitKeepsOrder | packages/jharness-kernel/src/jharness/kernel/_engine/deadline.py:50-101 | A wait hands inserts on in the order they came, the deferred, then the interrupting, then the queued ones, if and only if its last wake did not race with an insert that has a different one behind it. |
| Controls.ControlInbox.WakeUp | packages/jharness-kernel/src/jharness/kernel/_engine/deadline.py:61-82 | One wake: how it ends the wait, what it defers, and the exact queue it leaves, where a control that raced with the effect has gone to the back, or is dropped by a closed inbox. |
| Controls.WakeKeepsOrder | packages/jharness-kernel/src/jharness/kernel/_engine/deadline.py:61-82 | One wake keeps the order of inserts if and only if no raced insert is overtaken. |
| Controls.RequeueKeepsOrder | packages/jharness-kernel/src/jharness/kernel/_engine/deadline.py:69-74 | Taking the oldest control to the back of the queue keeps the order of inserts if and only if it is no insert, or every other insert is like it. |
| Controls.ControlInbox.Consume | packages/jharness-kernel/src/jharness/kernel/_engine/deadline.py:90-101 | A cancellation is answered, an insert is deferred if it can be, anything else is left. |
| Controls.ControlInbox.Poll | packages/jharness-kernel/src/jharness/kernel/control.py:61-65 | The oldest control is taken, or none. |
| Controls.ControlInbox.Submit | packages/jharness-kernel/src/jharness/kernel/control.py:46-56 | A control is queued unless the inbox is closed. |
| Controls.ControlInbox.Close | packages/jharness-kernel/src/jharness/kernel/control.py:80-85 | Closing empties queue and cancellations. |
| Controls.RequeueReorders | packages/jharness-kernel/src/jharness/kernel/_engine/deadline.py:69-74 | A wait whose effect ends in the wake that takes the first of two inserts leaves them the other way round. |
| Controls.DrainAfterRace | packages/jharness-kernel/src/jharness/kernel/_engine/deadline.py:69-74 | The same with the inbox itself: the boundary that drains it after the wait gets the second insert first. |
| Verifier.VerifyInPlace | packages/jharness-kernel/src/jharness/kernel/diagnostics/verification.py:103-127 | One pass over the fields gives the same verdict, code and final evidence as the definition of an accepted trace. |
| Verifier.VisitEntries | packages/jharness-kernel/src/jharness/kernel/diagnostics/verification.py:103-116 | The loop over the entries between first and last stops at the first error the definition has, or holds its evidence. |
| Verifier.VisitConcat | packages/jharness-kernel/src/jharness/kernel/diagnostics/verification.py:103-116 | Verifying two runs of events is verifying the second from where the first ended. |
| Verifier.TraceVerifier.Start | packages/jharness-kernel/src/jharness/kernel/diagnostics/verification.py:129-155 | The first entry, checked against the header and the starting view. |
| Verifier.TraceVerifier.VisitEvent | packages/jharness-kernel/src/jharness/kernel/diagnostics/verification.py:157-176 | Each event kind does to the fields what its definition says, or raises its code and changes nothing. |
| Verifier.TraceVerifier.ModelStarted | packages/jharness-kernel/src/jharness/kernel/diagnostics/verification.py:178-199 | A model call starts only in planning, with the next step number, over no other effect. |
| Verifier.TraceVerifier.BatchSelected | packages/jharness-kernel/src/jharness/kernel/diagnostics/verification.py:211-277 | A batch must be the pending prefix by count and by composed digest. |
| Verifier.TraceVerifier.RequestApproval | packages/jharness-kernel/src/jharness/kernel/diagnostics/verification.py:279-289 | An approval names a call of the selected batch that was not asked about before. |
| Verifier.TraceVerifier.DecideApproval | packages/jharness-kernel/src/jharness/kernel/diagnostics/verification.py:291-301 | Only a waiting call is decided. |
| Verifier.TraceVerifier.StartTool | packages/jharness-kernel/src/jharness/kernel/diagnostics/verification.py:303-327 | Only an unseen call of the selected batch starts, at its index and with the batch's parallelism. |
| Verifier.TraceVerifier.FinishTool | packages/jharness-kernel/src/jharness/kernel/diagnostics/verification.py:335-364 | A finish closes the start of the same call, batch and index. |
| Verifier.TraceVerifier.VerifyToolBoundary | packages/jharness-kernel/src/jharness/kernel/diagnostics/verification.py:471-506 | A batch fact must match the selection, every settled tool must be in it as settled, and every other outcome than failure must have been settled. |
| Verifier.TraceVerifier.ValidateCheckpoint | packages/jharness-kernel/src/jharness/kernel/diagnostics/verification.py:382-422 | Why a commit is refused, in the program's order. |
| Verifier.TraceVerifier.Checkpoint | packages/jharness-kernel/src/jharness/kernel/diagnostics/verification.py:382-422 | An accepted commit becomes the durable endpoint and empties the boundary; a refused one changes nothing. |
| Verifier.TraceVerifier.ResetBoundary | packages/jharness-kernel/src/jharness/kernel/diagnostics/verification.py:516-524 | The boundary evidence is emptied and the rest kept. |
| Verifier.TraceVerifier.Stop | packages/jharness-kernel/src/jharness/kernel/diagnostics/verification.py:526-547 | The stop must report the last checkpoint and a reason its view allows. |
| Soundness.AcceptedTraceIsSound | packages/jharness-kernel/src/jharness/kernel/diagnostics/verification.py:103-127 | In any accepted trace whose starting pending digest denotes some ids, revisions rise by one per checkpoint, counters never fall, each tool batch takes exactly the leading pending ids, and a usage counter falls exactly at the turns that report a negative number of it. |
| Soundness.AcceptedIsSound | packages/jharness-kernel/src/jharness/kernel/_engine/verification.py:156-199 | The same from any point of a trace on. |
| Soundness.CommitSound | packages/jharness-kernel/src/jharness/kernel/_engine/verification.py:170-380 | One accepted commit takes exactly the leading pending ids, leaves a view whose digest denotes the rest, and lowers a usage counter exactly when its fact reports a negative number of it. |
| Soundness.ChangeExactly | packages/jharness-kernel/src/jharness/kernel/_engine/verification.py:156-380 | verify_change, which sees digests only, accepts a fact between two views if and only if someone who knows the pending ids themselves would compute exactly the second view from the first. |
| Soundness.StartExactly | packages/jharness-kernel/src/jharness/kernel/_engine/verification.py:156-212 | Without a view before, it accepts exactly a start with its own view. |
| Lifecycle.TraceExactly | packages/jharness-kernel/src/jharness/kernel/diagnostics/verification.py:103-127 | The trace verifier, exactly: a trace is accepted if and only if its entries are in order, the first begins it, each of the others may follow the ones before it, and the last may end it. All four are stated on the events themselves, without the verifier's evidence. |
| Lifecycle.AcceptedExactly | packages/jharness-kernel/src/jharness/kernel/diagnostics/verification.py:157-176 | The same for any stretch of entries, commits included. |
| Lifecycle.DecidedBeforeStart | packages/jharness-kernel/src/jharness/kernel/diagnostics/verification.py:303-307 | In any accepted stretch, between a request for approval and any later start of a tool stands its decision. |
| Lifecycle.DecidedBeforeCommit | packages/jharness-kernel/src/jharness/kernel/diagnostics/verification.py:437-475 | No batch and no turn is committed while a request is undecided. |
| Lifecycle.DecisionAnswers | packages/jharness-kernel/src/jharness/kernel/diagnostics/verification.py:291-301 | Every decision answers an earlier request for the same call that nothing before it has decided. |
| Lifecycle.AskedOnce | packages/jharness-kernel/src/jharness/kernel/diagnostics/verification.py:279-289 | No call is asked about twice between commits. |
| Lifecycle.AnnouncedIsPrefix | packages/jharness-kernel/src/jharness/kernel/diagnostics/verification.py:211-277 | An announced batch takes the leading pending ids, and its digest is that of the others. |
| Soundness.UsageFallsExactly | packages/jharness-kernel/src/jharness/kernel/_engine/verification.py:239-248 | The check of a commit lets any of the six usage counters fall if and only if the fact is a model turn that reports a negative number of it. |
| Soundness.UsageNeverFalls | packages/jharness-kernel/src/jharness/kernel/_engine/verification.py:383-393 | Along any accepted stretch of a trace a usage counter never falls if and only if no model turn in it reports a negative number of it. |
| Soundness.AcceptedUsage | packages/jharness-kernel/src/jharness/kernel/diagnostics/verification.py:103-127 | The same for a whole accepted trace, from the view it starts with. |
| Soundness.BatchWasRun | packages/jharness-kernel/src/jharness/kernel/diagnostics/verification.py:471-506 | In an accepted trace every outcome of a batch other than a failure belongs to a tool seen to start and then to finish with that outcome, in that batch and at that index, since the last commit. |
| Soundness.EffectsWitnessed | packages/jharness-kernel/src/jharness/kernel/diagnostics/verification.py:303-364 | Every active or settled entry of the evidence has been seen in the events. |
| Soundness.IdsAreUnique | packages/jharness-kernel/src/jharness/kernel/diagnostics/verification.py:382-422 | No checkpoint id occurs twice in an accepted trace, and the reported endpoint is the last of them. |
| Soundness.ThinnedIsAccepted | packages/jharness-kernel/src/jharness/kernel/invocation.py:160-180 | Leaving out lossy events keeps a trace accepted, with the same evidence. |
| Soundness.TokensMayFall | packages/jharness-kernel/src/jharness/kernel/_engine/verification.py:383-393 | A concrete accepted trace in which the total falls from five tokens to four. |
| Observation.Invocation.Emit | packages/jharness-kernel/src/jharness/kernel/invocation.py:160-180 | Only a lossy event is dropped, and only while the buffer holds its limit of lossy ones; what is kept is numbered without a gap. |
| Observation.Invocation.Take | packages/jharness-kernel/src/jharness/kernel/invocation.py:115-137 | The consumer takes the oldest entry and frees its place. |
| Observation.ThinnedStreamIsAccepted | packages/jharness-kernel/src/jharness/kernel/diagnostics/verification.py:103-127 | A whole stream stays accepted when lossy events are left out anywhere. |
| Calls.SnapshotConserves | packages/jharness-kernel/src/jharness/kernel/_history.py:105-185 | In every valid snapshot the requested calls are distinct and each has exactly one tool message, in request order, except the pending ones, which come last and have none. |
| Calls.LinkConserves | packages/jharness-kernel/src/jharness/kernel/_history.py:150-169 | What a history requests is what it answers, in the same order, followed by what is unresolved. |
| Calls.LinkRequestsOnce | packages/jharness-kernel/src/jharness/kernel/_history.py:196-204 | No call id is requested twice, and the seen ids are exactly the requested ones. |
| Calls.BatchesConserve | packages/jharness-kernel/src/jharness/kernel/_engine/tooling.py:498-532 | Over a sound chain of commits, as accepted traces give, the batches after a model turn take a prefix of its calls in order, and the rest is pending. |
| Calls.TurnIsComplete | packages/jharness-kernel/src/jharness/kernel/_engine/tooling.py:506-513 | Over such a chain, once Planning is reached again the batches took all of the turn's calls. |
| Calls.InvocationsAreSound | packages/jharness-kernel/src/jharness/kernel/diagnostics/verification.py:103-127 | The commits of any number of accepted traces of one run, each starting at the view the one before left, form one sound chain: a run suspended and resumed is checked as a whole. |
| Calls.ChainsJoin | packages/jharness-kernel/src/jharness/kernel/diagnostics/verification.py:129-155 | A sound chain that starts at the view and the pending ids another one ends with continues it. |
| Calls.RunConservesCalls | packages/jharness-kernel/src/jharness/kernel/_engine/tooling.py:498-532 | Over any number of such invocations: after a model turn anywhere the batches up to the next turn take a prefix of its calls in order and leave the rest pending, across suspensions, and all of them once Planning is reached. |
| SkewList.ConsKeepsSkew | packages/jharness-kernel/src/jharness/kernel/history.py:216-224 | Adding a message keeps the skew-binary form: complete trees of weight 2^k - 1, strictly increasing except possibly the first two. |
| SkewList.ConsHolds | packages/jharness-kernel/src/jharness/kernel/history.py:216-224 | Adding a message puts it in front of the others. |
| SkewList.FewDigits | packages/jharness-kernel/src/jharness/kernel/history.py:60-69 | d digits over n messages satisfy 2^(d-1) <= n + 1. |
| SkewList.WeightIsPower | packages/jharness-kernel/src/jharness/kernel/history.py:26-44 | A complete tree of height k holds 2^k - 1 messages. |
| SkewList.LookupTree | packages/jharness-kernel/src/jharness/kernel/history.py:227-241 | The item at a tree position, in at most logarithmically many steps. |
| SkewList.LookupReverse | packages/jharness-kernel/src/jharness/kernel/history.py:190-197 | The item at a position from the newest, in at most logarithmically many digits and steps. |
| SkewList.Window | packages/jharness-kernel/src/jharness/kernel/history.py:167-188 | The window loop yields exactly the slice of the plain sequence. |
| SkewList.SelectDigits | packages/jharness-kernel/src/jharness/kernel/history.py:167-181 | The digits selected for a window, clipped, are exactly the window. |
| SkewList.VisitSelected | packages/jharness-kernel/src/jharness/kernel/history.py:182-188 | Visiting the selected digits backwards yields the window oldest first. |
| SkewList.VisitIsClip | packages/jharness-kernel/src/jharness/kernel/history.py:251-269 | The reverse visitor of one tree yields the part of it between the bounds, oldest first. |
| SkewList.NewestTake | packages/jharness-kernel/src/jharness/kernel/history.py:244-248 | The newest messages, newest first. |
| History.FromMessages | packages/jharness-kernel/src/jharness/kernel/history.py:56-69 | A non-empty list becomes the history of the same messages with its digest; an empty one is refused. |
| History.Append | packages/jharness-kernel/src/jharness/kernel/history.py:199-210 | Appending gives the history of the old messages and then the new, and nothing new returns the same value. |
| History.Item | packages/jharness-kernel/src/jharness/kernel/history.py:101-114 | An index, negative ones from the end, gives the message at that place, in logarithmic time, or nothing out of range. |
| History.Slice | packages/jharness-kernel/src/jharness/kernel/history.py:101-106 | A slice is the items of the plain sequence between its adjusted bounds, a step apart; a window when the step is 1, and a step of 0 is refused. |
| History.StepItems | packages/jharness-kernel/src/jharness/kernel/history.py:105-106 | Picking items a step apart, forwards or backwards, up to the bound that is left out. |
| History.SteppedAt | packages/jharness-kernel/src/jharness/kernel/history.py:105-106 | Item k of such a slice is the one k steps from its start, and there are exactly as many as fit before the bound. |
| History.Items | packages/jharness-kernel/src/jharness/kernel/history.py:74-75 | Iterating yields the messages in order. |
| History.Tail | packages/jharness-kernel/src/jharness/kernel/history.py:149-156 | The trailing messages in chronological order; a negative count is refused. |
| History.IterWindow | packages/jharness-kernel/src/jharness/kernel/history.py:158-165 | A window is the slice of the plain sequence, refused unless it lies within the history. |
| History.Equal | packages/jharness-kernel/src/jharness/kernel/history.py:116-123 | Equal exactly when the messages are. |
| IdSet.Contains | packages/jharness-kernel/src/jharness/kernel/_history.py:32-39 | Membership in the byte trie. |
| IdSet.Add | packages/jharness-kernel/src/jharness/kernel/_history.py:41-63 | Adding returns the same trie for a member, and otherwise the trie with the key. |
| IdSet.WithKeyAdds | packages/jharness-kernel/src/jharness/kernel/_history.py:41-63 | A trie with a key holds the key and what it held before, and nothing else. |
| IdSet.WithKeySorted | packages/jharness-kernel/src/jharness/kernel/_history.py:41-63 | Adding keeps every edge list sorted. |
| IdSet.Child | packages/jharness-kernel/src/jharness/kernel/_history.py:207-213 | The sorted search finds the edge for a byte, or none. |
| IdSet.WithChild | packages/jharness-kernel/src/jharness/kernel/_history.py:216-227 | An edge is replaced or inserted in its sorted place. |
| Linkage.EvolveHistory | packages/jharness-kernel/src/jharness/kernel/_history.py:113-137 | Given evidence for a history, looking only at an edit accepts exactly when re-validating the whole edited history does, with the same error otherwise, and leaves the same digest, seen ids and unresolved calls. |
| Linkage.ExtendProof | packages/jharness-kernel/src/jharness/kernel/_history.py:140-147 | The same for the appended messages alone. |
| Linkage.AdvanceLinkage | packages/jharness-kernel/src/jharness/kernel/_history.py:150-169 | One message moves cursor and trie as full validation moves its state, with the same error. |
| Linkage.RecordCallIds | packages/jharness-kernel/src/jharness/kernel/_history.py:196-204 | New ids are recorded, and refused exactly when one was seen before. |
| Linkage.ValidateUnresolved | packages/jharness-kernel/src/jharness/kernel/_history.py:172-185 | What may stay unresolved in a state. |
| Linkage.AnalyzeMessages | packages/jharness-kernel/src/jharness/kernel/_history.py:105-110 | Full validation of a history, with evidence for it. |
| Linkage.LinkConcat | packages/jharness-kernel/src/jharness/kernel/_history.py:140-147 | Validating two stretches of messages is validating the second from where the first ended. |
| Linking.LinkExactly | packages/jharness-kernel/src/jharness/kernel/_history.py:105-185 | A history links exactly when the messages right behind a request answer its calls in order, nothing else is answered, and no id is requested twice; what it leaves unresolved is what its end cuts off from the last request. |
| Linking.AnalyzeExactly | packages/jharness-kernel/src/jharness/kernel/_history.py:105-110 | A history goes with a state exactly when it links and leaves what that state may leave: the calls it owes, nothing, or anything once it failed or was limited. |
| Messages.CallsGrow | packages/jharness-kernel/src/jharness/kernel/messages.py:389-393 | A further output item adds its call to the runtime calls, if it is one. |
| Messages.PartsGrow | packages/jharness-kernel/src/jharness/kernel/messages.py:399-408 | A further output item adds its part to the visible ones or, if it is a provider call, the output of that. |
| Pending.Create | packages/jharness-kernel/src/jharness/kernel/state.py:50-71 | Distinct calls become a cursor whose tables digest every suffix; empty or repeated ids are refused. |
| Pending.FillTables | packages/jharness-kernel/src/jharness/kernel/state.py:57-71 | The backward loop fills both tables with the digests of every suffix. |
| Pending.Advance | packages/jharness-kernel/src/jharness/kernel/state.py:146-162 | The rest of the calls, sharing the tables; nothing once none is left; out of range refused. |
| Pending.Prefix | packages/jharness-kernel/src/jharness/kernel/state.py:130-144 | At most that many leading calls; a negative count refused. |
| Pending.Equal | packages/jharness-kernel/src/jharness/kernel/state.py:98-107 | Equal exactly when the remaining calls are. |
| Pending.DigestAdvances | packages/jharness-kernel/src/jharness/kernel/_digest.py:145-149 | The ids of a prefix composed with the digest of the rest give the digest of all. |
| Digests.HistoryDigestInjective | packages/jharness-kernel/src/jharness/kernel/_digest.py:106-116 | Histories with one digest are one history. |
| Digests.CallsDigestInjective | packages/jharness-kernel/src/jharness/kernel/_digest.py:119-129 | Call lists with one digest are one list. |
| Digests.ComposedPrefix | packages/jharness-kernel/src/jharness/kernel/_digest.py:145-149 | A prefix that composes to the digest of a known id list is its prefix, and what it was composed with digests the rest. |
| Digests.ExtendTwice | packages/jharness-kernel/src/jharness/kernel/_digest.py:110-116 | Extending a history digest twice is extending it by both stretches. |
| DigestStream.JsonStreamsDecode | packages/jharness-kernel/src/jharness/kernel/_digest.py:64-98 | JSON values are a prefix code in their tagged, length-prefixed form: two of them with one stream are equal, whatever bytes follow each. |
| DigestStream.ItemIsPrefixCode | packages/jharness-kernel/src/jharness/kernel/_digest.py:37-62 | Each single call on the writer is a prefix code, for lengths below 2^64. |
| DigestStream.ChunkIsPrefixCode | packages/jharness-kernel/src/jharness/kernel/_digest.py:100-103 | A chunk ends where its eight length bytes say. |
| DigestStream.FlatInjective | packages/jharness-kernel/src/jharness/kernel/_digest.py:28-103 | A stream determines the calls it was written by. |
| DigestStream.JsonInjective | packages/jharness-kernel/src/jharness/kernel/_digest.py:64-98 | The calls a JSON value makes determine the value, whatever follows. |
| DigestStream.MessageInjective | packages/jharness-kernel/src/jharness/kernel/_digest.py:152-174 | The same for a whole message: role, parts, output, linkage, outcome and metadata. |
| DigestStream.MessageStreamsDecode | packages/jharness-kernel/src/jharness/kernel/_digest.py:152-174 | Whole messages are a prefix code too: two of them with one stream are equal, whatever bytes follow each. |
| DigestStream.CallInjective | packages/jharness-kernel/src/jharness/kernel/_digest.py:228-248 | The same for a tool call of either kind. |
| DigestStream.OutcomeInjective | packages/jharness-kernel/src/jharness/kernel/_digest.py:274-305 | The same for a tool outcome of any kind. |
| DigestStream.StreamDeterminesDigest | packages/jharness-kernel/src/jharness/kernel/_digest.py:106-149 | The bytes behind a history, call or id digest determine the whole history, calls or ids it stands for. |
| DigestWriting.DigestWriter.WriteChunk | packages/jharness-kernel/src/jharness/kernel/_digest.py:100-103 | Tag, length and value are appended, and nothing else changes. |
| DigestWriting.DigestWriter.Write | packages/jharness-kernel/src/jharness/kernel/_digest.py:37-62 | Each kind of call appends its own tokens. |
| DigestWriting.DigestWriter.WriteJson | packages/jharness-kernel/src/jharness/kernel/_digest.py:64-85 | The recursive writer appends exactly the calls of the value. |
| DigestWriting.DigestWriter.WriteArray | packages/jharness-kernel/src/jharness/kernel/_digest.py:80-83 | The items of a sequence are written in order. |
| DigestWriting.DigestWriter.WriteObject | packages/jharness-kernel/src/jharness/kernel/_digest.py:90-98 | The entries of a mapping are written in key order. |
| DigestWriting.DigestWriter.WriteMessage | packages/jharness-kernel/src/jharness/kernel/_digest.py:152-174 | The writer run over a message appends exactly the calls of the message. |
| DigestWriting.DigestWriter.WriteParts | packages/jharness-kernel/src/jharness/kernel/_digest.py:177-180 | The same for content parts. |
| DigestWriting.DigestWriter.WritePart | packages/jharness-kernel/src/jharness/kernel/_digest.py:183-219 | The same for one content part, with its artifact. |
| DigestWriting.DigestWriter.WriteToolCall | packages/jharness-kernel/src/jharness/kernel/_digest.py:228-248 | The same for a tool call of either kind. |
| DigestWriting.DigestWriter.WriteProviderCall | packages/jharness-kernel/src/jharness/kernel/_digest.py:251-273 | The same for a provider's tool call. |
| DigestWriting.DigestWriter.WriteOutcome | packages/jharness-kernel/src/jharness/kernel/_digest.py:274-292 | The same for a tool outcome of any kind. |
| DigestWriting.AppendHistoryDigest | packages/jharness-kernel/src/jharness/kernel/_digest.py:110-116 | What is hashed for an appended message is the stream of the term. |
| DigestWriting.PrependToolCallDigest | packages/jharness-kernel/src/jharness/kernel/_digest.py:123-129 | The same for a prepended call. |
| DigestWriting.PrependCallIdDigest | packages/jharness-kernel/src/jharness/kernel/_digest.py:136-142 | The same for a prepended call id. |
| Durable.DigestIdentifies | packages/jharness-kernel/src/jharness/kernel/repository.py:257-268 | Two checkpoints have one digest exactly when they agree in everything but the pending-turn flag of a top-level ToolsPending and of a model-turn fact. |
| Durable.DigestOmitsFlag | packages/jharness-kernel/src/jharness/kernel/repository.py:365-366 | Every valid checkpoint that owes calls shares its digest with another valid one, which differs in that flag and so in what runs next. |
| Durable.ChangeProduces | packages/jharness-kernel/src/jharness/kernel/repository.py:271-289 | Count and digest of a declared change force the checkpoint's history to be the changed base. |
| Durable.EngineCommitIsValid | packages/jharness-kernel/src/jharness/kernel/_engine/commit.py:55-72 | What the committer hands to the repository after a reduced change is a valid commit based on the previous checkpoint. |
| Repository.LedgerLaw | packages/jharness-repository/src/jharness/repository/memory.py:47-161 | A commit either extends the chain by exactly its checkpoint, on the parent and history it names, or leaves the store as it was; it is known exactly when the ledger has it; a conflict means its id never was; the inconsistent, orphaned and bad-first-base branches are unreachable. |
| Repository.NewIsAnswered | packages/jharness-repository/src/jharness/repository/memory.py:47-161 | Which answer a new checkpoint gets: stored exactly when it follows the head; a conflict, naming the expected and the actual revision, exactly when its revision is not the next; otherwise the wrong parent before the wrong base. |
| Repository.LedgerIsBijection | packages/jharness-repository/src/jharness/repository/memory.py:67-107 | Ledger entries and revisions correspond one to one. |
| Repository.RetryIsKnown | packages/jharness-repository/src/jharness/repository/memory.py:121-139 | Retrying a stored commit, however late, is accepted and changes nothing. |
| Repository.InterleavingsHold | packages/jharness-repository/src/jharness/repository/memory.py:47-65 | However the commits of any clients interleave, the store is exactly what the stored ones leave. |
| Repository.InterleavingsAreLinear | packages/jharness-repository/src/jharness/repository/memory.py:142-161 | The stored commits form one linear chain, each made on the checkpoint before it. |
| Repository.EngineCommitIsStored | packages/jharness-kernel/src/jharness/kernel/_engine/commit.py:55-98 | A change reduced from the stored head is stored, unless its checkpoint id was used before. |
| Repository.MemoryRunRepository.Commit | packages/jharness-repository/src/jharness/repository/memory.py:47-65 | The two dictionaries answer and move as the abstract store of that run, and no other run moves. |
| Repository.MemoryRunRepository.Accept | packages/jharness-repository/src/jharness/repository/memory.py:121-139 | A known id is accepted or refused by the stored head as by the abstract one. |
| Repository.MemoryRunRepository.Check | packages/jharness-repository/src/jharness/repository/memory.py:142-161 | A new commit is checked against the stored head as against the abstract one. |
| Repository.MemoryRunRepository.GetHead | packages/jharness-repository/src/jharness/repository/memory.py:109-118 | The head read is the last checkpoint stored. |
| Repository.EphemeralRepository.Commit | packages/jharness-kernel/src/jharness/kernel/repository.py:221-254 | The single-run repository answers and moves as the abstract one, and refuses another run. |
| Codec.RoundTrip | packages/jharness-repository/src/jharness/repository/_codec.py:273-294 | A stored checkpoint is read back as itself if and only if its state keeps no pending-turn flag that storage forgets; a suspended state with the flag, and the state of a flagged model turn, are refused on reading; any other flagged ToolsPending is silently read back without it. |
| Codec.FlagIsLost | packages/jharness-repository/src/jharness/repository/_codec.py:332-337 | A concrete valid checkpoint that is read back without error as another one. |
| Codec.DecodesForgotten | packages/jharness-repository/src/jharness/repository/_codec.py:340-379 | Pending calls are rebuilt from the history alone, count and digest agreeing. |
| Codec.UnresolvedToolCalls | packages/jharness-repository/src/jharness/repository/_codec.py:382-398 | The cursor loop finds the unresolved suffix, or the linkage error. |
| Codec.UnresolvedAgrees | packages/jharness-repository/src/jharness/repository/_codec.py:382-398 | On a linked history it finds exactly what full validation leaves unresolved. |
| Codec.EncodeChunks | packages/jharness-repository/src/jharness/repository/_codec.py:297-307 | The loop cuts messages into blocks of 64, only the last smaller. |
| Codec.EncodeHistoryChange | packages/jharness-repository/src/jharness/repository/_codec.py:180-192 | Only the messages a change introduces are cut into blocks, and an unchanged history leaves none. |
| Codec.JoinChunks | packages/jharness-repository/src/jharness/repository/_codec.py:297-307 | The blocks joined are the messages. |
| Codec.Reconstruct | packages/jharness-repository/src/jharness/repository/_codec.py:273-294 | Reading joins the chunks in order and rebuilds the checkpoint from them. |
| Codec.ReadsBackExactly | packages/jharness-repository/src/jharness/repository/_codec.py:273-294 | A repository's read gives the head itself exactly when its state keeps no forgotten flag. |
| Codec.ReconstructsExactly | packages/jharness-repository/src/jharness/repository/_codec.py:273-294 | A checkpoint comes of a core, a history and a digest if and only if it is a valid one of just these parts with that digest, whose owed calls are those the history leaves unresolved, as the core counted and digested them. |
| SqlStore.SqlRepository.CommitOnce | packages/jharness-repository/src/jharness/repository/sqlite.py:225-304 | One transaction on the three tables answers and moves as the repository that keeps whole checkpoints; no other run is touched, and no stored-data error is reachable. |
| SqlStore.SqlRepository.GetHead | packages/jharness-repository/src/jharness/repository/sqlite.py:306-353 | Whatever the tables hold, a checkpoint that is read has the id, revision and digest of the head row and of its ledger row, and the messages of the run's own chunk rows. Whatever clients committed, a run is read back as its last checkpoint reconstructs from core and history; every other check on the rows passes. |
| SqlStore.SqlRepository.ReadChunks | packages/jharness-repository/src/jharness/repository/sqlite.py:313-337 | Whatever the tables hold, the chunks are read exactly when rows 0 to the chunk count of the current generation are there, each with its own count of at most 64, and add up to the head's count. What clients committed always is, and holds the head's history. |
| SqlStore.SqlRepository.InsertChunks | packages/jharness-repository/src/jharness/repository/sqlite.py:255-278 | The inserts succeed exactly when every key is free, and add exactly the chunks. |
| SqlStore.SqlRepository.WriteChunks | packages/jharness-repository/src/jharness/repository/sqlite.py:247-278 | A stored commit's inserts always find their keys free. |
| SqlStore.SqlRepository.ReadManifest | packages/jharness-repository/src/jharness/repository/sqlite.py:385-418 | The head row is read exactly when it has a parent unless it is the first, and a ledger row of its own revision and digest; what clients committed always has. |
| SqlStore.KeysAreNew | packages/jharness-repository/src/jharness/repository/_history_manifest.py:60-78 | Every (generation, index) key a commit inserts is new, because every generation used is at most the head revision and nothing lies past the chunk count. |
| SqlStore.ChunksAdvance | packages/jharness-repository/src/jharness/repository/_history_manifest.py:60-78 | After a commit the current generation's chunks join to the changed history. |
| SqlStore.EncodedAlwaysFits | packages/jharness-repository/src/jharness/repository/_history_manifest.py:81-97 | The encoded chunks always represent the declared change. |
| SqlStore.RowsRespond | packages/jharness-repository/src/jharness/repository/_history_manifest.py:37-57 | The stored manifest answers a commit as the whole checkpoint would. |
| SqlStore.RowsAdvance | packages/jharness-repository/src/jharness/repository/sqlite.py:526-590 | A stored commit leaves rows that fit the longer chain. |
| SqlStore.OthersStand | packages/jharness-repository/src/jharness/repository/sqlite.py:225-304 | A commit to one run leaves the rows of every other run as they were. |
| Settlement.CommitSync | packages/jharness-repository/src/jharness/repository/mysql.py:274-295 | For any lost responses, errors and interference: the loop returns only with its checkpoint in the chain exactly once, raises a revision conflict only if it never took effect, and writes at most once. It ends as LoopEnds says, of which the settling laws are proved. |
| Settlement.Try | packages/jharness-repository/src/jharness/repository/mysql.py:297-350 | One attempt under one fault, on the store the others' commits leave: how it ends, whether it writes, and the store after it. Without a fault it is done whenever that store knows the commit or stores it. |
| Settlement.LoopReturns | packages/jharness-repository/src/jharness/repository/mysql.py:274-295 | The settling law: when the faults let the loop get to an attempt without one (at most two ordinary failures, then a lost response and after it only lost responses and failures of the driver), and every store it meets knows the commit or would store it, the loop returns. |
| Settlement.LoopExactly | packages/jharness-repository/src/jharness/repository/mysql.py:274-295 | Exactly how the loop ends, for any attempts: it goes on behind a lost response, behind a failure of the driver once a response was lost, and before that behind at most two ordinary failures; it ends at the first attempt behind which it does not, with what that met, and otherwise is still running. |
| Settlement.AppliedIsSettled | packages/jharness-repository/src/jharness/repository/mysql.py:297-314 | A commit that took effect before its response was lost is settled: the loop returns at the next attempt without a fault, if until then responses are lost or the driver fails, whatever other clients commit in between. |
| Settlement.ClearDecides | packages/jharness-repository/src/jharness/repository/mysql.py:297-350 | An attempt without a fault ends the loop either way: it returns exactly when the store it meets lets the commit through, and otherwise raises that store's answer. |
| Settlement.ReturnedWasClear | packages/jharness-repository/src/jharness/repository/mysql.py:274-295 | The loop never returns but by an attempt without a fault that was let through. |
| RedisStore.RedisRun.CommitScript | packages/jharness-repository/src/jharness/repository/redis.py:237-434 | The script, opening checks included, answers and moves as the repository that keeps whole checkpoints, for counts of any length, and no refusal of its arguments and no corruption status is reachable. |
| RedisStore.CheckArguments | packages/jharness-repository/src/jharness/repository/redis.py:240-284 | The opening checks accept the arguments if and only if their counts are canonical, the base is given whole or not at all, and the blocks are as many as announced, none empty or over 64 messages. |
| RedisStore.EncodedIsGood | packages/jharness-repository/src/jharness/repository/redis.py:687-720 | Whatever valid commit the encoder hands over meets those checks. |
| RedisStore.RedisRun.Probe | packages/jharness-repository/src/jharness/repository/redis.py:184-235 | The probe says what a commit would be told, up to its parent and base. |
| RedisStore.RedisRun.CheckBase | packages/jharness-repository/src/jharness/repository/redis.py:338-380 | Parent, base and anchor are checked by text as the abstract store checks them by value. |
| RedisStore.RedisRun.Extend | packages/jharness-repository/src/jharness/repository/redis.py:332-417 | The incrementally kept chunk count, message count and hash chain are those folded from empty over the next history's chunks. |
| RedisStore.Scan | packages/jharness-repository/src/jharness/repository/redis.py:382-400 | The first loop counts and chains the new chunks, and finds every field free when it is. |
| RedisStore.Store | packages/jharness-repository/src/jharness/repository/redis.py:402-414 | The second loop sets exactly the new fields. |
| RedisStore.RedisRun.ReadHistory | packages/jharness-repository/src/jharness/repository/redis.py:932-958 | Whatever the hashes hold, reading in batches of 128 succeeds exactly when every counted chunk is there with its own count, and yields the messages, their number and their chain; what clients committed always is, with the chain the script kept. |
| RedisStore.RedisRun.GetHead | packages/jharness-repository/src/jharness/repository/redis.py:722-769 | Whatever the hashes hold, a checkpoint that is read has the id, revision and digest of the head and of its ledger entry, and the messages of the run's own chunks, with the head's count and chain. What clients committed is read back as the last checkpoint reconstructs; every manifest check passes. |
| RedisStore.RedisRun.ReadHead | packages/jharness-repository/src/jharness/repository/redis.py:111-163 | The head fields are always well formed and linked to the ledger. |
| RedisStore.PrefixIsInjective | packages/jharness-repository/src/jharness/repository/redis.py:1032-1033 | Chunk field names never collide. |
| RedisStore.KeptAdvances | packages/jharness-repository/src/jharness/repository/redis.py:416-434 | A stored commit leaves the three hashes of the longer chain. |
| RedisLoop.CommitIdentity | packages/jharness-repository/src/jharness/repository/redis.py:630-669 | For any probe and script faults and any interference: the loop returns only with its checkpoint in the chain exactly once, raises a revision conflict only if it never took effect, and writes at most once. It ends as LoopEnds says, of which the settling laws are proved. |
| RedisLoop.LoopReturns | packages/jharness-repository/src/jharness/repository/redis.py:630-669 | The settling law: when the faults let the loop get to a pass without one, and every store it meets knows the commit or would store it, the loop returns. |
| RedisLoop.LoopExactly | packages/jharness-repository/src/jharness/repository/redis.py:630-669 | Exactly how the loop ends, for any passes: it goes on behind a Redis error of the probe once an outcome is unknown, and behind a script that was sent to a run open to the commit and whose effect is not known; it ends at the first pass behind which it does not, with what that met, and otherwise is still running. |
| RedisLoop.AppliedIsSettled | packages/jharness-repository/src/jharness/repository/redis.py:630-669 | A commit that took effect before its answer was lost is settled: the loop returns at the next probe that is answered, if until then probes fail by Redis errors, whatever other clients commit in between. |
| Decimal.DecimalAdd | packages/jharness-repository/src/jharness/repository/redis.py:73-94 | decimal_add of two canonical texts of any length is the canonical text of the sum. |
| Decimal.AddColumns | packages/jharness-repository/src/jharness/repository/redis.py:73-94 | The carry loop writes the columns of the sum, least significant last. |
| Decimal.DecimalGte | packages/jharness-repository/src/jharness/repository/redis.py:66-71 | decimal_gte on canonical texts is numeric order. |
| Decimal.DecimalGeIsNumeric | packages/jharness-repository/src/jharness/repository/redis.py:66-71 | Length first, then bytes, is numeric order on canonical texts. |
| Decimal.CanonicalUnique | packages/jharness-repository/src/jharness/repository/redis.py:55-60 | Canonical texts are equal exactly when their numbers are. |
| Glob.GlobMatches | packages/jharness-tools/src/jharness/tools/filesystem/_common.py:284-302 | The reachable-array loop returns true exactly when the recursive specification matches, for every path and pattern. |
| Glob.StepReachable | packages/jharness-tools/src/jharness/tools/filesystem/_common.py:291-300 | One component takes exactly one path component. |
| Glob.SpreadReachable | packages/jharness-tools/src/jharness/tools/filesystem/_common.py:291-296 | The any-depth component takes zero or more path components. |
| Glob.MatchesAtEndDeep | packages/jharness-tools/src/jharness/tools/filesystem/_common.py:284-302 | A pattern ending in the any-depth component matches exactly when its front matches some prefix of the path. |
| Glob.MatchesAtEndOne | packages/jharness-tools/src/jharness/tools/filesystem/_common.py:284-302 | A pattern ending in any other component matches exactly when its front matches the path without its last component, which fits. |
| Sse.IterLines | packages/jharness-models/src/jharness/models/_http.py:446-473 | Lines depend only on the joined bytes, not on chunk boundaries: they are the text split at CR, LF or CRLF, up to the first over-long or undecodable line. |
| Sse.ReadChunk | packages/jharness-models/src/jharness/models/_http.py:450-467 | Reading one chunk leaves a state from which the rest of the input yields the same lines. |
| Sse.CollectEvents | packages/jharness-models/src/jharness/models/_http.py:405-443 | The line loop yields exactly the events of the blocks between blank lines, up to the first over-long block. |
| Sse.ParseEvents | packages/jharness-models/src/jharness/models/_http.py:405-473 | Events and error depend only on the joined bytes, within both size limits; what they are is SseText.StreamMeans. |
| Sse.ReadField | packages/jharness-models/src/jharness/models/_http.py:423-432 | One line sets the event name or adds a data line, or neither. |
| SseText.StreamMeans | packages/jharness-models/src/jharness/models/_http.py:405-473 | However a stream is written as lines, terminators and blocks, the parser yields one event for each block with a data line, in order, up to the first block too big or the first bad line, and raises there. An event's data, cut at each line feed, is exactly the data values of its block in order, and its name the last event value. |
| SseText.EveryStreamIsRead | packages/jharness-models/src/jharness/models/_http.py:405-473 | Every stream can be written so. |
| SseText.SplitSpelled | packages/jharness-models/src/jharness/models/_http.py:446-473 | Lines written with CR, LF or CR LF after each, a last line possibly without, and no CR right before an LF that ends another line, are split into exactly those lines. |
| SseText.EveryTextIsSpelled | packages/jharness-models/src/jharness/models/_http.py:446-473 | Every text is spelled by the lines it is split into. |
| SseText.CheckedStops | packages/jharness-models/src/jharness/models/_http.py:462-480 | Lines are yielded up to the first too long or undecodable one, which is what the error says. |
| SseText.LineGives | packages/jharness-models/src/jharness/models/_http.py:423-432 | A line gives exactly one field exactly one value: the name before the first colon, and what follows it less one space. |
| SseText.DataIs | packages/jharness-models/src/jharness/models/_http.py:431-432 | The data values of a block are those of its data lines, in order and none left out. |
| SseText.NameIs | packages/jharness-models/src/jharness/models/_http.py:429-430 | The name of a block is the value of its last event line, or none. |
| SseText.CutJoined | packages/jharness-models/src/jharness/models/_http.py:424-443 | Joined data cut at its line feeds gives the values back, because no line holds one. |

## Left out

- Timestamps (`at`, `started_at`, `deadline`, event creation times) and the other context fields than run id and metadata: carried along by the program and checked for type only.
- Type guards, JSON freezing and the per-field validation of constructors: the model's values are already of the right shape, and what a constructor adds is stated as `Valid...` or `Proper...`.
- asyncio, threads, executors and task cancellation: replaced by nondeterministic steps; `_cancel_and_settle` and `_settle` are not modelled.
- Stops after a repository error or a closed consumer: the completeness result is about invocations that stop as terminal or suspended.
- Runs.InitializeAccepted: a deadline that hits the first commit of a started run is not modelled, because the program stops with a repository error there and promises no complete trace.
- Rounds.Pass, Rounds.StepPlan and the other functions of `Rounds`: they transcribe one pass of the loop and state nothing by themselves; the theorems of `Endings`, `ToolEndings`, `Openings`, `Progress`, `Completeness` and `Runs` are about them.
- Views: the fact handlers of `_engine/verification.py` edit a dictionary in place; they are modelled on values, which loses nothing because each result is a fresh copy.
- Verification of tool risk, model capabilities, tool choice and response modalities: they only decide whether a call fails, which is an input here.
- Error texts: only codes and the kind of error are modelled.
- The `count` and `index` methods of a history: they read it item by item.
- PendingToolCalls windows: `limit` returns a lazy view in the program and the same calls as a value here.
- ValidateUnresolved: on success the program swaps in the state's own cursor, which is equal to the proof's; here both are the one value.
- The SQL text, drivers, connection handling, locking and transaction isolation: a transaction is one atomic method call.
- The JSON documents of cores and chunks and their payload digests: the codec works on the values they stand for; the wire codecs are taken to be exact.
- Settlement.CommitSync, RedisLoop.CommitIdentity: they run on a finite script of attempts; a loop that has not ended by its last attempt is reported as still running, because the program would go on retrying without bound.
- RedisStore.CheckArguments: the bound of 2^53 on the announced number of chunks is left out, because argument lists are shorter.
- RedisStore.PrefixIsInjective: chunk fields are keyed by the pair of texts in the model; this lemma is why their concatenated names do not collide.
- The rollback of the memory repository when a dictionary assignment itself raises.
- Provider adapters, HTTP transport, retries and circuit breakers, the JSON Schema registry, filesystem and shell tools, the conformance runner: outside the three cores.
- Section 9.2.6 of the WHATWG HTML Standard: the parser dispatches pending data at the end of the stream and strips no byte order mark, so only line splitting and field reading are claimed.
