/**
 * One pass of the engine's loop (_engine/engine.py, _run_active and the steps
 * it awaits): given what the outside world does, which change is committed and
 * which events are emitted before it.
 */
module Rounds {
  import opened Wrappers
  import opened Messages
  import opened Digests
  import opened State
  import opened Linkage
  import opened Checkpoints
  import opened Views
  import opened Changes
  import opened Commits
  import opened Trace
  import opened ToolExecution

  /** The parts of the configuration that decide anything; the catalog's parallel-safe names. */
  datatype Config = Config(limits: Limits, hasReducer: bool, hasApproval: bool, parallelSafe: set<Text>)

  /**
   * Where the loop stands. `used` holds every checkpoint id of the invocation;
   * `supply` bounds the inserts its host will still submit.
   */
  datatype Loop = Loop(checkpoint: Checkpoint, deferred: seq<Insert>, skipReducer: bool, used: set<Text>, supply: int)

  // --------------------------------------------- what the outside world does

  datatype BoundaryInput = Expired | Polled(pause: Option<Suspension>, inserts: seq<Insert>)

  datatype ReducerInput =
    | ReducerKeeps
    | ReducerPaused(suspension: Suspension)
    | ReducerInserted(insert: Insert)
    | ReducerTimedOut
    | ReducerRaised(message: Text)
    | ReducerProposed(messages: seq<Message>, reason: Text, metadata: Metadata)

  datatype ModelEnd =
    | RequestRefused(message: Text)
    | ModelPaused(suspension: Suspension)
    | ModelInserted(insert: Insert)
    | ModelTimedOut
    | ModelRaised(provider: bool, message: Text)
    | ModelResponded(response: Response)

  /** A model call: deltas it streamed, inserts deferred meanwhile, and how it ended. */
  datatype ModelInput = ModelInput(deltas: nat, deferred: seq<Insert>, end: ModelEnd)

  datatype Answer =
    | Allow(callId: Text)
    | Deny(callId: Text, reason: Text)
    | SuspendCall(callId: Text, suspension: Suspension)

  datatype ApprovalInput = ApprovalTimedOut | ApprovalRaised | Answered(answers: seq<Answer>)

  /** A tool step: the policy's batch, which calls bind, the approvals, and the schedule of the tools. */
  datatype ToolInput = ToolInput(
    proposal: Option<Batch>, binds: seq<bool>, approval: ApprovalInput, pause: Option<Suspension>,
    inserts: seq<Insert>, steps: seq<Step>, timedOut: bool)

  datatype CommitTiming = OnTime | LateBefore | LateDuring

  datatype Round = Round(
    boundary: BoundaryInput, reducer: ReducerInput, model: ModelInput, tools: ToolInput,
    timing: CommitTiming, id: Text)

  // ------------------------------------------------------ what a pass decides

  /** The cause of the pass's one commit, the events before it, and what the loop keeps. */
  datatype Plan = Plan(cause: Cause, events: seq<Event>, deferred: seq<Insert>, skipReducer: bool)

  const DEADLINE := HitsLimit(DeadlineReached)

  /** _boundary: the deadline first, then a pause, then one deferred insert. */
  function BoundaryCause(a: ActiveState, deferred: seq<Insert>, input: BoundaryInput): Option<Cause> {
    match input
    case Expired => Some(DEADLINE)
    case Polled(pause, inserts) =>
      var waiting := deferred + inserts;
      if pause.Some? then Some(Pauses(pause.value))
      else if a == Planning(false) && waiting != [] then Some(Inserts(waiting[0]))
      else None
  }

  function BoundaryDeferred(a: ActiveState, deferred: seq<Insert>, input: BoundaryInput): seq<Insert> {
    match input
    case Expired => deferred
    case Polled(pause, inserts) =>
      var waiting := deferred + inserts;
      if pause.None? && a == Planning(false) && waiting != [] then waiting[1..] else waiting
  }

  /** _reduce_history; None when the reducer proposes nothing. */
  function ReducerCause(history: seq<Message>, input: ReducerInput): Option<Cause> {
    match input
    case ReducerKeeps => None
    case ReducerPaused(suspension) => Some(Pauses(suspension))
    case ReducerInserted(insert) => Some(Inserts(insert))
    case ReducerTimedOut => Some(DEADLINE)
    case ReducerRaised(message) => Some(Fails("history_reducer_error", message))
    case ReducerProposed(messages, reason, metadata) =>
      if |messages| > |history| then
        Some(Fails("history_reducer_error", "history rewrite cannot increase message count"))
      else if Analyze(messages, Active(Planning(false))).Err? then
        Some(Fails("history_reducer_error", "invalid history"))
      else Some(Rewrites(messages, reason, metadata))
  }

  function Deltas(n: nat): seq<Event> { if n == 0 then [] else [ModelDelta] + Deltas(n - 1) }

  /** The events of a model call. */
  function ModelEvents(steps: int, input: ModelInput): seq<Event> {
    match input.end
    case RequestRefused(_) => []
    case ModelResponded(r) =>
      [ModelStarted(steps + 1)] + Deltas(input.deltas)
      + [ModelFinished(r.finishReason, |RuntimeCalls(r.output)|, ProviderCallCount(r.output), r.usage)]
    case _ => [ModelStarted(steps + 1)] + Deltas(input.deltas)
  }

  /** PlanningStep.run */
  function ModelCause(input: ModelInput, waiting: bool): Cause {
    match input.end
    case RequestRefused(message) => Fails("model_protocol_error", message)
    case ModelPaused(suspension) => Pauses(suspension)
    case ModelInserted(insert) => Inserts(insert)
    case ModelTimedOut => DEADLINE
    case ModelRaised(provider, message) =>
      Fails(if provider then "model_provider_error" else "model_protocol_error", message)
    case ModelResponded(response) => Turns(response, waiting)
  }

  /** The reducer runs only between provider turns, and not right after its own rewrite. */
  function Reduction(cfg: Config, s: Snapshot, pending: bool, skip: bool, r: Round): Option<Cause> {
    if cfg.hasReducer && !skip && !pending then ReducerCause(s.history, r.reducer) else None
  }

  /** _plan */
  function PlanningPass(cfg: Config, s: Snapshot, pending: bool, deferred: seq<Insert>, skip: bool, r: Round): Plan {
    var reduced := Reduction(cfg, s, pending, skip, r);
    if reduced.Some? then Plan(reduced.value, [], deferred, reduced.value.Rewrites?)
    else if s.metrics.planningSteps >= cfg.limits.maxPlanningSteps then
      Plan(HitsLimit(MaxPlanningSteps), [], deferred, false)
    else
      var waiting := deferred + if pending then r.model.deferred else [];
      Plan(ModelCause(r.model, pending && waiting != []), ModelEvents(s.metrics.planningSteps, r.model), waiting, false)
  }

  // --------------------------------------------------------------- tool step

  /** What ToolBatch's constructor requires. */
  predicate ValidBatch(b: Batch) {
    b.id != "" && b.calls != [] && Unique(Ids(b.calls)) && (b.parallel || |b.calls| == 1)
  }

  function Min(a: int, b: int): int { if a < b then a else b }

  /** The pending prefix a policy may select from. */
  function Selectable(limits: Limits, pending: seq<ToolCall>, capacity: int): seq<ToolCall>
    requires capacity >= 0 && limits.maxToolBatchSize >= 0
  {
    pending[..Min(Min(capacity, limits.maxToolBatchSize), |pending|)]
  }

  /** _select */
  predicate Selected(cfg: Config, selectable: seq<ToolCall>, b: Batch) {
    && ValidBatch(b) && |b.calls| <= cfg.limits.maxToolBatchSize && b.calls <= selectable
    && (b.parallel ==> forall i :: 0 <= i < |b.calls| ==> b.calls[i].name in cfg.parallelSafe)
  }

  function ToolCapacity(cfg: Config, s: Snapshot): int { cfg.limits.maxToolCalls - s.metrics.toolCalls }

  /** The batch the step goes on with, if there is room and the policy's proposal stands. */
  function Chosen(cfg: Config, s: Snapshot, pending: seq<ToolCall>, input: ToolInput): Option<Batch>
    requires ValidLimits(cfg.limits)
  {
    var capacity := ToolCapacity(cfg, s);
    if capacity > 0 && input.proposal.Some?
      && Selected(cfg, Selectable(cfg.limits, pending, capacity), input.proposal.value)
    then input.proposal else None
  }

  /** selection_data */
  function SelectionEvent(pending: seq<ToolCall>, b: Batch): Event
    requires |b.calls| <= |pending|
  {
    ToolBatchSelected(b.id, Ids(b.calls), b.parallel, |pending| - |b.calls|, IdsDigest(Ids(pending[|b.calls|..])))
  }

  /** _bind: a call that does not parse or bind is decided already. */
  function Prepare(calls: seq<ToolCall>, binds: seq<bool>): (p: seq<Prepared>)
    requires |binds| == |calls|
    ensures |p| == |calls|
  {
    seq(|calls|, i requires 0 <= i < |calls| =>
      if calls[i].Structured? && calls[i].arguments.None? then
        Decided(calls[i], FailureResult("invalid_tool_call", "structured tool arguments are not a JSON object"))
      else if binds[i] then Bound(calls[i])
      else Decided(calls[i], FailureResult("invalid_tool_call", "tool call does not bind")))
  }

  /** The indices of the bound calls, from i on: one approval request each. */
  function Requests(prepared: seq<Prepared>, i: nat): (requests: seq<nat>)
    requires i <= |prepared|
    ensures forall k :: 0 <= k < |requests| ==> i <= requests[k] < |prepared|
    ensures forall k, m :: 0 <= k < m < |requests| ==> requests[k] < requests[m]
    decreases |prepared| - i
  {
    if i == |prepared| then []
    else (if prepared[i].Bound? then [i] else []) + Requests(prepared, i + 1)
  }

  predicate InRange(requests: seq<nat>, n: nat) { forall k :: 0 <= k < |requests| ==> requests[k] < n }

  function RequestEvents(b: Batch, requests: seq<nat>): seq<Event>
    requires InRange(requests, |b.calls|)
  {
    if requests == [] then []
    else [ApprovalRequested(b.id, requests[0], b.calls[requests[0]].id)] + RequestEvents(b, requests[1..])
  }

  /** _apply_decisions: how many answers fit their requests before the first that does not. */
  function Agreeing(b: Batch, requests: seq<nat>, answers: seq<Answer>): (n: nat)
    requires InRange(requests, |b.calls|)
    ensures n <= |requests| && n <= |answers|
  {
    if requests == [] || answers == [] || answers[0].callId != b.calls[requests[0]].id then 0
    else 1 + Agreeing(b, requests[1..], answers[1..])
  }

  function DecisionEvents(answers: seq<Answer>): seq<Event> {
    if answers == [] then [] else [ApprovalDecided(answers[0].callId)] + DecisionEvents(answers[1..])
  }

  function FirstSuspend(answers: seq<Answer>): Option<Suspension> {
    if answers == [] then None
    else if answers[0].SuspendCall? then Some(answers[0].suspension)
    else FirstSuspend(answers[1..])
  }

  /** A denied call is decided as a failure; the others stay as they were. */
  function ApplyDenials(prepared: seq<Prepared>, requests: seq<nat>, answers: seq<Answer>): (p: seq<Prepared>)
    requires |requests| == |answers| && InRange(requests, |prepared|)
    ensures |p| == |prepared|
    decreases |requests|
  {
    if requests == [] then prepared
    else
      var i, d := requests[0], answers[0];
      var next := if d.Deny? then
        prepared[i := Decided(prepared[i].call, FailureResult("approval_denied", d.reason))] else prepared;
      ApplyDenials(next, requests[1..], answers[1..])
  }

  datatype Approved = ApprovalBroken | ApprovalPause(suspension: Suspension) | ApprovedCalls(prepared: seq<Prepared>)

  /** _approve: what comes of it. */
  function Approve(cfg: Config, b: Batch, prepared: seq<Prepared>, input: ApprovalInput): Approved
    requires |prepared| == |b.calls|
  {
    var requests := Requests(prepared, 0);
    if !cfg.hasApproval || requests == [] then ApprovedCalls(prepared)
    else match input
      case Answered(answers) =>
        if |answers| != |requests| || Agreeing(b, requests, answers) < |requests| then ApprovalBroken
        else if FirstSuspend(answers).Some? then ApprovalPause(FirstSuspend(answers).value)
        else ApprovedCalls(ApplyDenials(prepared, requests, answers))
      case _ => ApprovalBroken
  }

  /** The decisions that are emitted: all up to the first that does not fit its request. */
  function Decisions(b: Batch, requests: seq<nat>, input: ApprovalInput): seq<Answer>
    requires InRange(requests, |b.calls|)
  {
    if input.Answered? && |input.answers| == |requests|
    then input.answers[..Agreeing(b, requests, input.answers)] else []
  }

  /** _approve: its events. */
  function ApprovalEvents(cfg: Config, b: Batch, prepared: seq<Prepared>, input: ApprovalInput): seq<Event>
    requires |prepared| == |b.calls|
  {
    var requests := Requests(prepared, 0);
    if !cfg.hasApproval || requests == [] then []
    else RequestEvents(b, requests) + DecisionEvents(Decisions(b, requests, input))
  }

  /** Approval that never settles ends the run: by deadline, or as a protocol error. */
  function BrokenApproval(input: ApprovalInput): Cause {
    if input.ApprovalTimedOut? then DEADLINE else Fails("tool_protocol_error", "approval failed")
  }

  /** The schedule given for the tools is one the event loop could have taken: to the end, or up to the deadline. */
  predicate Scheduled(setup: Setup, input: ToolInput) {
    && ValidSetup(setup) && Inv(setup, StartExec(setup)) && Legal(setup, StartExec(setup), input.steps)
    && (input.timedOut <==> !Done(RunSteps(setup, StartExec(setup), input.steps)))
  }

  /** The end of the tools: the deadline, or a complete batch. */
  function ExecutedPlan(setup: Setup, input: ToolInput, deferred: seq<Insert>, skip: bool, events: seq<Event>): Plan
    requires Scheduled(setup, input)
  {
    var end := RunSteps(setup, StartExec(setup), input.steps);
    if input.timedOut then Plan(DEADLINE, events + end.log, deferred, skip)
    else
      RunInv(setup, StartExec(setup), input.steps);
      DoneIsComplete(setup, end);
      Plan(Batches(setup.batch, FinalResults(end), if input.pause.Some? then input.pause else end.pause),
           events + end.log, deferred + input.inserts + end.inserts, skip)
  }

  /** The tool step's inputs fit what it asks of them. */
  predicate LegalTools(cfg: Config, s: Snapshot, pending: seq<ToolCall>, input: ToolInput)
    requires ValidLimits(cfg.limits)
  {
    var chosen := Chosen(cfg, s, pending, input);
    chosen.None? ||
      (|input.binds| == |chosen.value.calls|
       && var approved := Approve(cfg, chosen.value, Prepare(chosen.value.calls, input.binds), input.approval);
          approved.ApprovedCalls? ==> Scheduled(Setup(chosen.value, approved.prepared, cfg.limits), input))
  }

  /** The rest of the step, once a batch is chosen. */
  function BatchPass(cfg: Config, pending: seq<ToolCall>, b: Batch, deferred: seq<Insert>, skip: bool,
                     input: ToolInput): Plan
    requires |input.binds| == |b.calls| <= |pending|
    requires var approved := Approve(cfg, b, Prepare(b.calls, input.binds), input.approval);
      approved.ApprovedCalls? ==> Scheduled(Setup(b, approved.prepared, cfg.limits), input)
  {
    var prepared := Prepare(b.calls, input.binds);
    var events := [SelectionEvent(pending, b)] + ApprovalEvents(cfg, b, prepared, input.approval);
    match Approve(cfg, b, prepared, input.approval)
    case ApprovalBroken => Plan(BrokenApproval(input.approval), events, deferred, skip)
    case ApprovalPause(suspension) => Plan(Pauses(suspension), events, deferred, skip)
    case ApprovedCalls(approved) => ExecutedPlan(Setup(b, approved, cfg.limits), input, deferred, skip, events)
  }

  /** ToolStep.run */
  function ToolPass(cfg: Config, s: Snapshot, pending: seq<ToolCall>, deferred: seq<Insert>, skip: bool,
                    input: ToolInput): Plan
    requires ValidLimits(cfg.limits) && LegalTools(cfg, s, pending, input)
  {
    var chosen := Chosen(cfg, s, pending, input);
    if ToolCapacity(cfg, s) <= 0 then Plan(HitsLimit(MaxToolCalls), [], deferred, skip)
    else if chosen.None? then Plan(Fails("tool_protocol_error", "invalid batch"), [], deferred, skip)
    else BatchPass(cfg, pending, chosen.value, deferred, skip, input)
  }

  // ----------------------------------------------------------- a whole pass

  /** Values their own constructors have checked. */
  predicate ProperBoundary(input: BoundaryInput) {
    input.Polled? ==> ProperInserts(input.inserts) && (input.pause.Some? ==> ProperSuspension(input.pause.value))
  }

  predicate ProperReducer(input: ReducerInput) {
    match input
    case ReducerPaused(suspension) => ProperSuspension(suspension)
    case ReducerInserted(insert) => ProperInsert(insert)
    case ReducerProposed(messages, reason, metadata) =>
      && messages != [] && reason != "" && Unique(Keys(metadata))
      && (forall i :: 0 <= i < |messages| ==> ValidMessage(messages[i]))
    case _ => true
  }

  /** While a provider turn is pending an insert is deferred and never interrupts. */
  predicate ProperModel(input: ModelInput, pending: bool) {
    && ProperInserts(input.deferred)
    && match input.end
       case ModelPaused(suspension) => ProperSuspension(suspension)
       case ModelInserted(insert) => !pending && ProperInsert(insert)
       case ModelResponded(response) => ValidResponse(response)
       case _ => true
  }

  predicate ProperTools(input: ToolInput) {
    && ProperInserts(input.inserts) && (input.pause.Some? ==> ProperSuspension(input.pause.value))
    && (input.approval.Answered? ==>
          forall k :: 0 <= k < |input.approval.answers| && input.approval.answers[k].SuspendCall? ==>
            ProperSuspension(input.approval.answers[k].suspension))
  }

  /** How many inserts a round delivers at most. */
  function Delivered(r: Round): nat {
    (if r.boundary.Polled? then |r.boundary.inserts| else 0) + (if r.reducer.ReducerInserted? then 1 else 0)
    + (if r.model.end.ModelInserted? then 1 else 0) + |r.model.deferred|
    + |r.tools.inserts| + TotalInserts(r.tools.steps)
  }

  predicate ValidLoop(l: Loop) {
    && ValidSnapshot(l.checkpoint.snapshot) && l.checkpoint.id in l.used && "" !in l.used
    && ProperInserts(l.deferred) && l.supply >= 0
  }

  /** A round that can happen in a loop whose run is active. */
  predicate LegalRound(cfg: Config, l: Loop, r: Round) {
    var s := l.checkpoint.snapshot;
    && ValidLimits(cfg.limits) && s.state.Active?
    && r.id != "" && r.id !in l.used && Delivered(r) <= l.supply
    && ProperBoundary(r.boundary) && ProperReducer(r.reducer) && ProperTools(r.tools)
    && (s.state.active.Planning? ==> ProperModel(r.model, s.state.active.providerTurnPending))
    && (s.state.active.ToolsPending? ==> LegalTools(cfg, s, s.state.active.pending, r.tools))
  }

  /** A planning or a tool step. */
  function StepPlan(cfg: Config, s: Snapshot, a: ActiveState, deferred: seq<Insert>, skip: bool, r: Round): Plan
    requires a.ToolsPending? ==> ValidLimits(cfg.limits) && LegalTools(cfg, s, a.pending, r.tools)
  {
    match a
    case Planning(pending) => PlanningPass(cfg, s, pending, deferred, skip, r)
    case ToolsPending(pending, _) => ToolPass(cfg, s, pending, deferred, skip, r.tools)
  }

  /** _run_active, one pass: a boundary change, or a planning or tool step. */
  function Pass(cfg: Config, l: Loop, r: Round): Plan
    requires LegalRound(cfg, l, r)
  {
    var s := l.checkpoint.snapshot;
    var a := s.state.active;
    var boundary := BoundaryCause(a, l.deferred, r.boundary);
    var deferred := BoundaryDeferred(a, l.deferred, r.boundary);
    if boundary.Some? then Plan(boundary.value, [], deferred, l.skipReducer)
    else StepPlan(cfg, s, a, deferred, l.skipReducer, r)
  }

  // ------------------------------------------------------------- the commit

  /** _commit: a late commit becomes the deadline limit instead. */
  function CommittedCause(cause: Cause, timing: CommitTiming): Cause {
    if cause == DEADLINE || timing == OnTime then cause else DEADLINE
  }

  /** The pass raised out of the engine, or committed. */
  datatype Outcome = Crashed | Moved(loop: Loop, events: seq<Event>)

  /** The checkpoint event of a commit. */
  function CommitEvent(c: Checkpoint): Event { CheckpointCommitted(c.id, c.fact, ViewOf(c.snapshot)) }

  /** A cause whose change is constructed, and whose checkpoint the reducer accepts. */
  predicate Builds(limits: Limits, s: Snapshot, cause: Cause, id: Text) {
    && Allowed(s, cause) && s.history != []
    && var c := ChangeFor(limits, s, cause);
      ValidFact(c.fact) && c.replace != Some([]) && Reduce(s, c, id).Ok?
  }

  /**
   * The checkpoint a commit makes durable, or nothing when it raises out of the
   * engine. The change is constructed first; unless the work deadline has passed
   * before the commit, it is also reduced; a commit that misses the deadline is
   * replaced.
   */
  function CommitOf(limits: Limits, s: Snapshot, cause: Cause, timing: CommitTiming, id: Text): Option<Checkpoint>
    requires Allowed(s, cause)
  {
    var last := CommittedCause(cause, timing);
    if !ValidFact(ChangeFor(limits, s, cause).fact) then None
    else if timing != LateBefore && !Builds(limits, s, cause, id) then None
    else if !Builds(limits, s, last, id) then None
    else Some(Reduce(s, ChangeFor(limits, s, last), id).value)
  }

  /** _commit and _committed */
  function Commit(limits: Limits, l: Loop, p: Plan, timing: CommitTiming, id: Text, supply: int): Outcome
    requires Allowed(l.checkpoint.snapshot, p.cause)
  {
    match CommitOf(limits, l.checkpoint.snapshot, p.cause, timing, id)
    case None => Crashed
    case Some(c) => Moved(Loop(c, p.deferred, p.skipReducer, l.used + {id}, supply), p.events + [CommitEvent(c)])
  }
}
