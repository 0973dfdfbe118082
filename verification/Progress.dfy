/**
 * What every pass of the engine's loop keeps: its change is one the checkers
 * accept, budgets hold, and a measure falls, so the loop ends
 * (_engine/engine.py, _run_active and _commit).
 */
module Progress {
  import opened Wrappers
  import opened Messages
  import opened State
  import opened Linkage
  import opened Checkpoints
  import opened Views
  import opened Changes
  import opened Commits
  import opened Trace
  import opened ToolExecution
  import opened Rounds

  // ----------------------------------------------- every pass is allowed

  lemma JoinInserts(a: seq<Insert>, b: seq<Insert>)
    requires ProperInserts(a) && ProperInserts(b)
    ensures ProperInserts(a + b)
  {
  }

  lemma BoundaryAllowed(s: Snapshot, deferred: seq<Insert>, input: BoundaryInput)
    requires s.state.Active? && ProperInserts(deferred) && ProperBoundary(input)
    ensures var cause := BoundaryCause(s.state.active, deferred, input);
      cause.Some? ==> Allowed(s, cause.value)
    ensures ProperInserts(BoundaryDeferred(s.state.active, deferred, input))
  {
    if input.Polled? { JoinInserts(deferred, input.inserts); }
  }

  lemma ReductionAllowed(cfg: Config, s: Snapshot, pending: bool, skip: bool, r: Round)
    requires s.state == Active(Planning(pending)) && s.history != [] && ProperReducer(r.reducer)
    ensures var cause := Reduction(cfg, s, pending, skip, r);
      cause.Some? ==> Allowed(s, cause.value)
  {
  }

  lemma PlanningAllowed(cfg: Config, s: Snapshot, pending: bool, deferred: seq<Insert>, skip: bool, r: Round)
    requires s.state == Active(Planning(pending)) && s.history != [] && ProperInserts(deferred)
    requires ProperReducer(r.reducer) && ProperModel(r.model, pending)
    ensures var p := PlanningPass(cfg, s, pending, deferred, skip, r);
      Allowed(s, p.cause) && ProperInserts(p.deferred)
  {
    ReductionAllowed(cfg, s, pending, skip, r);
    JoinInserts(deferred, if pending then r.model.deferred else []);
  }

  lemma {:induction false} SuspendProper(answers: seq<Answer>)
    requires forall k :: 0 <= k < |answers| && answers[k].SuspendCall? ==> ProperSuspension(answers[k].suspension)
    ensures FirstSuspend(answers).Some? ==> ProperSuspension(FirstSuspend(answers).value)
  {
    if answers != [] && !answers[0].SuspendCall? { SuspendProper(answers[1..]); }
  }

  /** What is prepared for a batch: its own calls, each bound or decided as a failure. */
  predicate PreparedFor(b: Batch, prepared: seq<Prepared>) {
    && |prepared| == |b.calls|
    && (forall i :: 0 <= i < |prepared| ==> prepared[i].call == b.calls[i])
    && (forall i :: 0 <= i < |prepared| ==> prepared[i].Decided? ==>
          prepared[i].result.outcome.Kind() == Failure && ProperResult(prepared[i].result))
  }

  lemma {:induction false} DenialsKeepPrepared(b: Batch, prepared: seq<Prepared>, requests: seq<nat>,
                                                answers: seq<Answer>)
    requires |requests| == |answers| && InRange(requests, |prepared|) && PreparedFor(b, prepared)
    ensures PreparedFor(b, ApplyDenials(prepared, requests, answers))
    decreases |requests|
  {
    if requests != [] {
      var i, d := requests[0], answers[0];
      var next := if d.Deny? then
        prepared[i := Decided(prepared[i].call, FailureResult("approval_denied", d.reason))] else prepared;
      DenialsKeepPrepared(b, next, requests[1..], answers[1..]);
    }
  }

  /** Whatever binds and whatever is denied, the tools start from a valid set-up. */
  lemma SetupIsValid(cfg: Config, b: Batch, binds: seq<bool>, input: ApprovalInput)
    requires ValidLimits(cfg.limits) && ValidBatch(b) && |binds| == |b.calls|
    ensures var approved := Approve(cfg, b, Prepare(b.calls, binds), input);
      approved.ApprovedCalls? ==>
        var setup := Setup(b, approved.prepared, cfg.limits);
        ValidSetup(setup) && Inv(setup, StartExec(setup))
  {
    var prepared := Prepare(b.calls, binds);
    assert PreparedFor(b, prepared);
    var approved := Approve(cfg, b, prepared, input);
    if approved.ApprovedCalls? {
      if input.Answered? && |input.answers| == |Requests(prepared, 0)| {
        DenialsKeepPrepared(b, prepared, Requests(prepared, 0), input.answers);
      }
      StartInv(Setup(b, approved.prepared, cfg.limits));
    }
  }

  /** The tools' results and controls are proper whatever the schedule was. */
  lemma ExecutedAllowed(setup: Setup, input: ToolInput, s: Snapshot, deferred: seq<Insert>, skip: bool,
                        events: seq<Event>)
    requires Scheduled(setup, input) && ProperTools(input) && ProperInserts(deferred)
    requires s.state.Active? && s.state.active.ToolsPending? && setup.batch.calls <= s.state.active.pending
    requires setup.batch.id != "" && setup.batch.calls != []
    ensures var p := ExecutedPlan(setup, input, deferred, skip, events);
      Allowed(s, p.cause) && ProperInserts(p.deferred)
  {
    var start := StartExec(setup);
    var end := RunSteps(setup, start, input.steps);
    if !input.timedOut {
      RunInv(setup, start, input.steps);
      DoneIsComplete(setup, end);
      RunControls(setup, start, input.steps);
      JoinInserts(deferred, input.inserts);
      JoinInserts(deferred + input.inserts, end.inserts);
    }
  }

  lemma ChosenIsPrefix(cfg: Config, s: Snapshot, pending: seq<ToolCall>, input: ToolInput)
    requires ValidLimits(cfg.limits)
    ensures var chosen := Chosen(cfg, s, pending, input);
      chosen.Some? ==>
        && ValidBatch(chosen.value) && chosen.value.calls <= pending
        && |chosen.value.calls| <= ToolCapacity(cfg, s)
        && |chosen.value.calls| <= cfg.limits.maxToolBatchSize
  {
  }

  lemma ToolsAllowed(cfg: Config, s: Snapshot, deferred: seq<Insert>, skip: bool, input: ToolInput)
    requires s.state.Active? && s.state.active.ToolsPending? && ProperInserts(deferred) && ProperTools(input)
    requires ValidLimits(cfg.limits) && LegalTools(cfg, s, s.state.active.pending, input)
    ensures var p := ToolPass(cfg, s, s.state.active.pending, deferred, skip, input);
      Allowed(s, p.cause) && ProperInserts(p.deferred)
  {
    var pending := s.state.active.pending;
    var chosen := Chosen(cfg, s, pending, input);
    ChosenIsPrefix(cfg, s, pending, input);
    if chosen.Some? { BatchAllowed(cfg, s, pending, chosen.value, deferred, skip, input); }
    hide BatchPass, Chosen, ProperTools, ValidLimits;
  }

  /** The same once a batch is chosen, however it is approved. */
  lemma BatchAllowed(cfg: Config, s: Snapshot, pending: seq<ToolCall>, b: Batch, deferred: seq<Insert>, skip: bool,
                     input: ToolInput)
    requires s.state.Active? && s.state.active.ToolsPending? && s.state.active.pending == pending
    requires ProperInserts(deferred) && ProperTools(input) && ValidBatch(b) && b.calls <= pending
    requires |input.binds| == |b.calls|
    requires var approved := Approve(cfg, b, Prepare(b.calls, input.binds), input.approval);
      approved.ApprovedCalls? ==> Scheduled(Setup(b, approved.prepared, cfg.limits), input)
    ensures var p := BatchPass(cfg, pending, b, deferred, skip, input);
      Allowed(s, p.cause) && ProperInserts(p.deferred)
  {
    var prepared := Prepare(b.calls, input.binds);
    ApprovalsProper(cfg, b, prepared, input.approval);
    var approved := Approve(cfg, b, prepared, input.approval);
    var events := [SelectionEvent(pending, b)] + ApprovalEvents(cfg, b, prepared, input.approval);
    if approved.ApprovedCalls? {
      ExecutedAllowed(Setup(b, approved.prepared, cfg.limits), input, s, deferred, skip, events);
    }
    hide Approve, ApprovalEvents, SelectionEvent, Scheduled, ExecutedPlan, Prepare, ProperTools, ProperInserts;
  }

  lemma ApprovalsProper(cfg: Config, b: Batch, prepared: seq<Prepared>, input: ApprovalInput)
    requires |prepared| == |b.calls|
    requires input.Answered? ==>
      forall k :: 0 <= k < |input.answers| && input.answers[k].SuspendCall?
        ==> ProperSuspension(input.answers[k].suspension)
    ensures var approved := Approve(cfg, b, prepared, input);
      approved.ApprovalPause? ==> ProperSuspension(approved.suspension)
  {
    hide Agreeing, ApplyDenials, Requests;
    if input.Answered? { SuspendProper(input.answers); }
  }

  /** Whatever happens in a pass, its change is one the engine may offer. */
  lemma PassAllowed(cfg: Config, l: Loop, r: Round)
    requires ValidLoop(l) && LegalRound(cfg, l, r)
    ensures Allowed(l.checkpoint.snapshot, Pass(cfg, l, r).cause) && ProperInserts(Pass(cfg, l, r).deferred)
  {
    var s := l.checkpoint.snapshot;
    BoundaryAllowed(s, l.deferred, r.boundary);
    var deferred := BoundaryDeferred(s.state.active, l.deferred, r.boundary);
    match s.state.active
    case Planning(pending) => PlanningAllowed(cfg, s, pending, deferred, l.skipReducer, r);
    case ToolsPending(_, _) => ToolsAllowed(cfg, s, deferred, l.skipReducer, r.tools);
  }

  // -------------------------------------------------- every commit is checked

  /** What a commit that went through says about the loop around it. */
  ghost predicate Advances(l: Loop, p: Plan, cause: Cause, limits: Limits, next: Loop)
    requires Allowed(l.checkpoint.snapshot, cause)
  {
    var s, c := l.checkpoint.snapshot, ChangeFor(limits, l.checkpoint.snapshot, cause);
    && ValidLoop(next)
    && ValidCheckpoint(next.checkpoint) && next.checkpoint.fact == c.fact && next.checkpoint.snapshot.state == c.state
    && next.checkpoint.snapshot.revision == s.revision + 1
    && next.checkpoint.snapshot.metrics == AdvanceMetrics(s.metrics, c.planningSteps, c.toolCalls, c.usage)
    && VerifyChange(Some(ViewOf(s)), c.fact, ViewOf(next.checkpoint.snapshot)) == None
    && next.deferred == p.deferred && next.skipReducer == p.skipReducer
    && next.checkpoint.id !in l.used && next.used == l.used + {next.checkpoint.id}
  }

  lemma BuildsExactly(limits: Limits, s: Snapshot, cause: Cause, id: Text)
    requires ValidSnapshot(s) && Allowed(s, cause) && id != ""
    ensures Builds(limits, s, cause, id) <==> NamedKeys(FactKeys(cause)) && FreshCalls(s, cause)
  {
    ChangePasses(limits, s, cause, id);
  }

  /**
   * A pass raises out of the engine exactly when its fact repeats an empty
   * metadata key, or its model turn reuses a call id and the deadline had not
   * passed before the commit. Otherwise both checkers accept the commit and the
   * loop goes on from a valid snapshot.
   */
  lemma CommitOutcome(limits: Limits, l: Loop, p: Plan, timing: CommitTiming, id: Text, supply: nat)
    requires ValidLoop(l) && id != "" && id !in l.used && ProperInserts(p.deferred)
    requires Allowed(l.checkpoint.snapshot, p.cause)
    ensures Commit(limits, l, p, timing, id, supply).Crashed? <==>
      (!NamedKeys(FactKeys(p.cause)) || (timing != LateBefore && !FreshCalls(l.checkpoint.snapshot, p.cause)))
    ensures match Commit(limits, l, p, timing, id, supply)
      case Crashed => true
      case Moved(next, events) =>
        && Advances(l, p, CommittedCause(p.cause, timing), limits, next)
        && next.checkpoint.id == id && next.supply == supply
        && events == p.events + [CommitEvent(next.checkpoint)]
  {
    var s := l.checkpoint.snapshot;
    CommitRaises(limits, s, p.cause, timing, id);
    ChangePasses(limits, s, CommittedCause(p.cause, timing), id);
  }

  /** When a commit raises. */
  lemma CommitRaises(limits: Limits, s: Snapshot, cause: Cause, timing: CommitTiming, id: Text)
    requires ValidSnapshot(s) && Allowed(s, cause) && id != ""
    ensures CommitOf(limits, s, cause, timing, id).None? <==>
      (!NamedKeys(FactKeys(cause)) || (timing != LateBefore && !FreshCalls(s, cause)))
  {
    ChangePasses(limits, s, cause, id);
    BuildsExactly(limits, s, cause, id);
    BuildsExactly(limits, s, CommittedCause(cause, timing), id);
  }

  /** What replaces a late commit always builds. */
  lemma CommittedBuilds(limits: Limits, s: Snapshot, cause: Cause, timing: CommitTiming, id: Text)
    requires ValidSnapshot(s) && Allowed(s, cause) && id != ""
    requires timing != LateBefore ==> Builds(limits, s, cause, id)
    ensures Builds(limits, s, CommittedCause(cause, timing), id)
  {
    BuildsExactly(limits, s, CommittedCause(cause, timing), id);
  }

  /** One pass of the loop, with its commit. */
  function Proceed(cfg: Config, l: Loop, r: Round): Outcome
    requires ValidLoop(l) && LegalRound(cfg, l, r)
  {
    PassAllowed(cfg, l, r);
    Commit(cfg.limits, l, Pass(cfg, l, r), r.timing, r.id, l.supply - Delivered(r))
  }

  // -------------------------------------------------- budgets and termination

  function AtLeastZero(n: int): nat { if n < 0 then 0 else n }

  /** What is left of the two counted budgets. */
  function Budget(limits: Limits, m: Metrics): nat {
    AtLeastZero(limits.maxPlanningSteps - m.planningSteps) + AtLeastZero(limits.maxToolCalls - m.toolCalls)
  }

  /** Twice the budget and the inserts still to come, plus one while the reducer may run. */
  function Measure(limits: Limits, l: Loop): nat {
    2 * (Budget(limits, l.checkpoint.snapshot.metrics) + |l.deferred| + AtLeastZero(l.supply))
    + if l.skipReducer then 0 else 1
  }

  /** What each kind of continuing pass uses up. */
  predicate Uses(limits: Limits, l: Loop, r: Round, p: Plan) {
    var m := l.checkpoint.snapshot.metrics;
    && |p.deferred| <= |l.deferred| + Delivered(r)
    && match p.cause
       case Inserts(_) => |p.deferred| < |l.deferred| + Delivered(r)
       case Rewrites(_, _, _) => !l.skipReducer && p.skipReducer
       case Turns(_, _) => m.planningSteps < limits.maxPlanningSteps
       case Batches(batch, _, _) => 0 < |batch.calls| <= limits.maxToolCalls - m.toolCalls
       case _ => true
  }

  lemma BoundaryUses(a: ActiveState, deferred: seq<Insert>, input: BoundaryInput)
    ensures var n := if input.Polled? then |input.inserts| else 0;
      && |BoundaryDeferred(a, deferred, input)| <= |deferred| + n
      && var cause := BoundaryCause(a, deferred, input);
        cause.Some? ==>
          && (cause.value.Inserts? || cause.value.Pauses? || cause.value.HitsLimit?)
          && (cause.value.Inserts? ==> |BoundaryDeferred(a, deferred, input)| < |deferred| + n)
  {
  }

  lemma PlanningUses(cfg: Config, s: Snapshot, pending: bool, deferred: seq<Insert>, skip: bool, r: Round)
    ensures var p := PlanningPass(cfg, s, pending, deferred, skip, r);
      var n := (if r.reducer.ReducerInserted? then 1 else 0) + (if r.model.end.ModelInserted? then 1 else 0)
               + |r.model.deferred|;
      && |p.deferred| <= |deferred| + n && !p.cause.Batches?
      && (p.cause.Inserts? ==> |p.deferred| < |deferred| + n)
      && (p.cause.Rewrites? ==> !skip && p.skipReducer)
      && (p.cause.Turns? ==> s.metrics.planningSteps < cfg.limits.maxPlanningSteps)
  {
  }

  lemma ExecutedUses(setup: Setup, input: ToolInput, deferred: seq<Insert>, skip: bool, events: seq<Event>)
    requires Scheduled(setup, input)
    ensures var p := ExecutedPlan(setup, input, deferred, skip, events);
      && |p.deferred| <= |deferred| + |input.inserts| + TotalInserts(input.steps)
      && (p.cause == DEADLINE || (p.cause.Batches? && p.cause.batch == setup.batch))
  {
    RunControls(setup, StartExec(setup), input.steps);
  }

  lemma ToolsUse(cfg: Config, s: Snapshot, pending: seq<ToolCall>, deferred: seq<Insert>, skip: bool, input: ToolInput)
    requires ValidLimits(cfg.limits) && LegalTools(cfg, s, pending, input)
    ensures var p := ToolPass(cfg, s, pending, deferred, skip, input);
      && |p.deferred| <= |deferred| + |input.inserts| + TotalInserts(input.steps)
      && (p.cause.HitsLimit? || p.cause.Fails? || p.cause.Pauses? || p.cause.Batches?)
      && (p.cause.Batches? ==> 0 < |p.cause.batch.calls| <= ToolCapacity(cfg, s))
  {
    var chosen := Chosen(cfg, s, pending, input);
    ChosenIsPrefix(cfg, s, pending, input);
    if chosen.Some? {
      var b := chosen.value;
      var prepared := Prepare(b.calls, input.binds);
      var approved := Approve(cfg, b, prepared, input.approval);
      if approved.ApprovedCalls? {
        var events := [SelectionEvent(pending, b)] + ApprovalEvents(cfg, b, prepared, input.approval);
        ExecutedUses(Setup(b, approved.prepared, cfg.limits), input, deferred, skip, events);
      }
    }
  }

  lemma PassUses(cfg: Config, l: Loop, r: Round)
    requires LegalRound(cfg, l, r)
    ensures Uses(cfg.limits, l, r, Pass(cfg, l, r))
  {
    var s := l.checkpoint.snapshot;
    var a := s.state.active;
    BoundaryUses(a, l.deferred, r.boundary);
    if BoundaryCause(a, l.deferred, r.boundary).None? {
      var deferred := BoundaryDeferred(a, l.deferred, r.boundary);
      match a
      case Planning(pending) => PlanningUses(cfg, s, pending, deferred, l.skipReducer, r);
      case ToolsPending(pending, _) => ToolsUse(cfg, s, pending, deferred, l.skipReducer, r.tools);
    }
  }

  /** Only four kinds of change leave a run active. */
  lemma StaysActive(limits: Limits, s: Snapshot, cause: Cause)
    requires Allowed(s, cause) && ChangeFor(limits, s, cause).state.Active? && s.state.Active?
    ensures cause.Inserts? || cause.Rewrites? || cause.Turns? || cause.Batches?
    ensures var c := ChangeFor(limits, s, cause);
      && c.planningSteps == (if cause.Turns? then 1 else 0)
      && c.toolCalls == (if cause.Batches? then |cause.batch.calls| else 0)
  {
  }

  /** The arithmetic of the measure, once the counters that moved are known. */
  lemma UsesLowerMeasure(limits: Limits, l: Loop, r: Round, p: Plan, next: Loop)
    requires Uses(limits, l, r, p) && next.deferred == p.deferred && next.skipReducer == p.skipReducer
    requires next.supply == l.supply - Delivered(r) >= 0
    requires p.cause.Inserts? || p.cause.Rewrites? || p.cause.Turns? || p.cause.Batches?
    requires var m, after := l.checkpoint.snapshot.metrics, next.checkpoint.snapshot.metrics;
      && after.planningSteps == m.planningSteps + (if p.cause.Turns? then 1 else 0)
      && after.toolCalls == m.toolCalls + (if p.cause.Batches? then |p.cause.batch.calls| else 0)
    ensures Measure(limits, next) < Measure(limits, l)
  {
  }

  /** The measure falls with every pass that leaves the run active. */
  lemma MeasureFalls(cfg: Config, l: Loop, r: Round)
    requires ValidLoop(l) && LegalRound(cfg, l, r)
    ensures match Proceed(cfg, l, r)
      case Crashed => true
      case Moved(next, _) =>
        next.checkpoint.snapshot.state.Active? ==> Measure(cfg.limits, next) < Measure(cfg.limits, l)
  {
    PassAllowed(cfg, l, r);
    PassUses(cfg, l, r);
    var p := Pass(cfg, l, r);
    CommitOutcome(cfg.limits, l, p, r.timing, r.id, l.supply - Delivered(r));
    var out := Proceed(cfg, l, r);
    if out.Moved? && out.loop.checkpoint.snapshot.state.Active? {
      StaysActive(cfg.limits, l.checkpoint.snapshot, CommittedCause(p.cause, r.timing));
      UsesLowerMeasure(cfg.limits, l, r, p, out.loop);
    }
  }

  // ------------------------------------------------------------------ limits

  /** The counters are within their limits, and the tokens too while the run goes on. */
  predicate WithinLimits(limits: Limits, s: Snapshot) {
    && s.metrics.planningSteps <= limits.maxPlanningSteps && s.metrics.toolCalls <= limits.maxToolCalls
    && ((s.state.Active? || s.state.Suspended?) ==> !OverTokens(limits, s.metrics, None))
  }

  lemma ChangeKeepsLimits(limits: Limits, s: Snapshot, cause: Cause, next: Snapshot)
    requires Allowed(s, cause) && WithinLimits(limits, s) && (s.state.Active? || s.state.Suspended?)
    requires cause.Turns? ==> s.metrics.planningSteps < limits.maxPlanningSteps
    requires cause.Batches? ==> |cause.batch.calls| <= limits.maxToolCalls - s.metrics.toolCalls
    requires var c := ChangeFor(limits, s, cause);
      next.state == c.state && next.metrics == AdvanceMetrics(s.metrics, c.planningSteps, c.toolCalls, c.usage)
    ensures WithinLimits(limits, next)
  {
  }

  /** No commit pushes a counter, or the tokens of a run that goes on, past its limit. */
  lemma StepKeepsLimits(cfg: Config, l: Loop, r: Round)
    requires ValidLoop(l) && LegalRound(cfg, l, r) && WithinLimits(cfg.limits, l.checkpoint.snapshot)
    ensures match Proceed(cfg, l, r)
      case Crashed => true
      case Moved(next, _) => WithinLimits(cfg.limits, next.checkpoint.snapshot)
  {
    PassAllowed(cfg, l, r);
    PassUses(cfg, l, r);
    var p := Pass(cfg, l, r);
    CommitOutcome(cfg.limits, l, p, r.timing, r.id, l.supply - Delivered(r));
    var out := Proceed(cfg, l, r);
    if out.Moved? {
      ChangeKeepsLimits(cfg.limits, l.checkpoint.snapshot, CommittedCause(p.cause, r.timing),
                        out.loop.checkpoint.snapshot);
    }
  }

  // -------------------------------------------------- what becomes of inserts

  /** The inserts a pass takes in from outside, in the branches it goes through. */
  function Taken(cfg: Config, l: Loop, r: Round): seq<Insert>
    requires LegalRound(cfg, l, r)
  {
    var s := l.checkpoint.snapshot;
    var a := s.state.active;
    if BoundaryCause(a, l.deferred, r.boundary).Some? then PolledInserts(r.boundary)
    else PolledInserts(r.boundary) + StepTaken(cfg, s, a, l.skipReducer, r)
  }

  function PolledInserts(input: BoundaryInput): seq<Insert> { if input.Polled? then input.inserts else [] }

  function StepTaken(cfg: Config, s: Snapshot, a: ActiveState, skip: bool, r: Round): seq<Insert>
    requires a.ToolsPending? ==> ValidLimits(cfg.limits) && LegalTools(cfg, s, a.pending, r.tools)
  {
    match a
    case Planning(pending) => PlanningTaken(cfg, s, pending, skip, r)
    case ToolsPending(pending, _) => ToolsTaken(cfg, s, pending, r.tools)
  }

  function PlanningTaken(cfg: Config, s: Snapshot, pending: bool, skip: bool, r: Round): seq<Insert> {
    if Reduction(cfg, s, pending, skip, r).Some? then
      if r.reducer.ReducerInserted? then [r.reducer.insert] else []
    else if s.metrics.planningSteps >= cfg.limits.maxPlanningSteps then []
    else
      (if pending then r.model.deferred else []) + if r.model.end.ModelInserted? then [r.model.end.insert] else []
  }

  /** What a tool step drains before its tools run and collects while they do. */
  function ToolsTaken(cfg: Config, s: Snapshot, pending: seq<ToolCall>, input: ToolInput): seq<Insert>
    requires ValidLimits(cfg.limits) && LegalTools(cfg, s, pending, input)
  {
    var chosen := Chosen(cfg, s, pending, input);
    if chosen.None? then []
    else
      var b := chosen.value;
      var approved := Approve(cfg, b, Prepare(b.calls, input.binds), input.approval);
      if !approved.ApprovedCalls? then []
      else
        var setup := Setup(b, approved.prepared, cfg.limits);
        input.inserts + RunSteps(setup, StartExec(setup), input.steps).inserts
  }

  /** The insert a cause commits, if it commits one. */
  function Inserted(cause: Cause): seq<Insert> { if cause.Inserts? then [cause.insert] else [] }

  /** Tools that miss the deadline take what they were given down with them. */
  function LostByTools(cfg: Config, l: Loop, r: Round): seq<Insert>
    requires LegalRound(cfg, l, r)
  {
    var s := l.checkpoint.snapshot;
    var a := s.state.active;
    if BoundaryCause(a, l.deferred, r.boundary).None? && a.ToolsPending? && r.tools.timedOut
    then ToolsTaken(cfg, s, a.pending, r.tools) else []
  }

  /** A late commit replaces the insert it was made for. */
  function LostByDelay(cause: Cause, timing: CommitTiming): seq<Insert> {
    if timing != OnTime then Inserted(cause) else []
  }

  lemma ToolsAccount(cfg: Config, s: Snapshot, pending: seq<ToolCall>, deferred: seq<Insert>, skip: bool,
                     input: ToolInput)
    requires ValidLimits(cfg.limits) && LegalTools(cfg, s, pending, input)
    ensures var p, taken := ToolPass(cfg, s, pending, deferred, skip, input), ToolsTaken(cfg, s, pending, input);
      !p.cause.Inserts? && p.deferred == deferred + if input.timedOut then [] else taken
  {
    ChosenIsPrefix(cfg, s, pending, input);
    assert deferred + [] == deferred;
    var chosen := Chosen(cfg, s, pending, input);
    if chosen.Some? { BatchAccount(cfg, pending, chosen.value, deferred, skip, input); }
    hide Chosen, BatchPass, Approve, RunSteps, Scheduled, ValidLimits;
  }

  lemma BatchAccount(cfg: Config, pending: seq<ToolCall>, b: Batch, deferred: seq<Insert>, skip: bool,
                     input: ToolInput)
    requires |input.binds| == |b.calls| <= |pending|
    requires var approved := Approve(cfg, b, Prepare(b.calls, input.binds), input.approval);
      approved.ApprovedCalls? ==> Scheduled(Setup(b, approved.prepared, cfg.limits), input)
    ensures var p := BatchPass(cfg, pending, b, deferred, skip, input);
      var approved := Approve(cfg, b, Prepare(b.calls, input.binds), input.approval);
      && !p.cause.Inserts?
      && (!approved.ApprovedCalls? ==> p.deferred == deferred)
      && (approved.ApprovedCalls? ==>
            var setup := Setup(b, approved.prepared, cfg.limits);
            p.deferred == deferred + if input.timedOut then []
                                     else input.inserts + RunSteps(setup, StartExec(setup), input.steps).inserts)
  {
    var prepared := Prepare(b.calls, input.binds);
    var approved := Approve(cfg, b, prepared, input.approval);
    var events := [SelectionEvent(pending, b)] + ApprovalEvents(cfg, b, prepared, input.approval);
    if approved.ApprovedCalls? {
      ExecutedAccount(Setup(b, approved.prepared, cfg.limits), input, deferred, skip, events);
    }
    hide Approve, ApprovalEvents, SelectionEvent, Scheduled, ExecutedPlan, Prepare, RunSteps;
  }

  lemma ExecutedAccount(setup: Setup, input: ToolInput, deferred: seq<Insert>, skip: bool, events: seq<Event>)
    requires Scheduled(setup, input)
    ensures var p := ExecutedPlan(setup, input, deferred, skip, events);
      && !p.cause.Inserts?
      && p.deferred == deferred + if input.timedOut then []
                                  else input.inserts + RunSteps(setup, StartExec(setup), input.steps).inserts
  {
    hide RunSteps, Inv, Legal, ValidSetup, StartExec;
    assert deferred + [] == deferred;
  }

  lemma PlanningAccount(cfg: Config, s: Snapshot, pending: bool, deferred: seq<Insert>, skip: bool, r: Round)
    requires r.model.end.ModelInserted? ==> !pending
    ensures var p := PlanningPass(cfg, s, pending, deferred, skip, r);
      p.deferred + Inserted(p.cause) == deferred + PlanningTaken(cfg, s, pending, skip, r)
  {
    assert deferred + [] == deferred;
  }

  /** A step defers, plans to commit, or loses with its tools what it had and took. */
  lemma StepAccount(cfg: Config, s: Snapshot, a: ActiveState, deferred: seq<Insert>, skip: bool, r: Round)
    requires a.ToolsPending? ==> ValidLimits(cfg.limits) && LegalTools(cfg, s, a.pending, r.tools)
    requires a.Planning? ==> ProperModel(r.model, a.providerTurnPending)
    ensures var p, taken := StepPlan(cfg, s, a, deferred, skip, r), StepTaken(cfg, s, a, skip, r);
      p.deferred + Inserted(p.cause) + (if a.ToolsPending? && r.tools.timedOut then taken else []) == deferred + taken
  {
    var p, taken := StepPlan(cfg, s, a, deferred, skip, r), StepTaken(cfg, s, a, skip, r);
    match a
    case Planning(pending) =>
      PlanningAccount(cfg, s, pending, deferred, skip, r);
      assert p.deferred + Inserted(p.cause) + [] == deferred + taken;
    case ToolsPending(pending, _) =>
      ToolsAccount(cfg, s, pending, deferred, skip, r.tools);
      assert p.deferred + [] == p.deferred && deferred + [] == deferred && deferred + taken + [] == deferred + taken;
  }

  lemma BoundaryAccount(a: ActiveState, deferred: seq<Insert>, input: BoundaryInput)
    ensures var cause := BoundaryCause(a, deferred, input);
      (if cause.Some? then Inserted(cause.value) else []) + BoundaryDeferred(a, deferred, input)
      == deferred + PolledInserts(input)
  {
    var waiting := deferred + PolledInserts(input);
    assert deferred + [] == deferred && [] + waiting == waiting;
    if waiting != [] { assert [waiting[0]] + waiting[1..] == waiting; }
  }

  /**
   * What a pass had deferred and takes in is what it still defers, plans to
   * commit, or loses with its tools. A boundary plans to commit the insert that
   * has been deferred longest.
   */
  lemma PassAccount(cfg: Config, l: Loop, r: Round)
    requires ValidLoop(l) && LegalRound(cfg, l, r)
    ensures var p := Pass(cfg, l, r);
      && multiset(l.deferred) + multiset(Taken(cfg, l, r))
         == multiset(p.deferred) + multiset(Inserted(p.cause)) + multiset(LostByTools(cfg, l, r))
      && (BoundaryCause(l.checkpoint.snapshot.state.active, l.deferred, r.boundary).Some? ==>
            Inserted(p.cause) + p.deferred == l.deferred + Taken(cfg, l, r))
  {
    hide StepPlan, StepTaken, BoundaryDeferred, BoundaryCause, PolledInserts, Inserted, ValidLoop, LegalTools;
    hide ToolsTaken;
    var s := l.checkpoint.snapshot;
    var a, p := s.state.active, Pass(cfg, l, r);
    BoundaryAccount(a, l.deferred, r.boundary);
    if BoundaryCause(a, l.deferred, r.boundary).Some? {
      JoinCounts(Inserted(p.cause), p.deferred, l.deferred, PolledInserts(r.boundary));
    } else {
      var deferred := BoundaryDeferred(a, l.deferred, r.boundary);
      var later, lost := StepTaken(cfg, s, a, l.skipReducer, r), LostByTools(cfg, l, r);
      StepAccount(cfg, s, a, deferred, l.skipReducer, r);
      LostIsTaken(cfg, l, r);
      assert [] + deferred == deferred;
      assert (l.deferred + PolledInserts(r.boundary)) + later == l.deferred + (PolledInserts(r.boundary) + later);
      JoinCounts(p.deferred + Inserted(p.cause), lost, l.deferred, PolledInserts(r.boundary) + later);
    }
  }

  lemma LostIsTaken(cfg: Config, l: Loop, r: Round)
    requires LegalRound(cfg, l, r)
    requires BoundaryCause(l.checkpoint.snapshot.state.active, l.deferred, r.boundary).None?
    ensures var s := l.checkpoint.snapshot;
      LostByTools(cfg, l, r)
      == if s.state.active.ToolsPending? && r.tools.timedOut
         then StepTaken(cfg, s, s.state.active, l.skipReducer, r) else []
  {
  }

  /** Inserts a pass and its commit lose. */
  function Lost(cfg: Config, l: Loop, r: Round): seq<Insert>
    requires LegalRound(cfg, l, r)
  {
    LostByTools(cfg, l, r) + LostByDelay(Pass(cfg, l, r).cause, r.timing)
  }

  /** Nothing deferred or taken is missing afterwards, and nothing is there twice. */
  predicate Keeps(before: seq<Insert>, taken: seq<Insert>, after: seq<Insert>, committed: seq<Insert>) {
    multiset(before) + multiset(taken) == multiset(after) + multiset(committed)
  }

  lemma SomethingLost(before: multiset<Insert>, after: multiset<Insert>, lost: seq<Insert>)
    requires before == after + multiset(lost)
    ensures before == after <==> lost == []
  {
    if lost != [] { assert multiset(lost)[lost[0]] > 0; }
  }

  /**
   * Over a pass with its commit every insert is accounted for: what was deferred
   * and what was taken in is what is still deferred, what is committed, and what
   * is lost. So a pass keeps its inserts if and only if no tools that miss the
   * deadline had taken one, and no late commit replaces one.
   */
  lemma PassKeepsInserts(cfg: Config, l: Loop, r: Round)
    requires ValidLoop(l) && LegalRound(cfg, l, r) && Proceed(cfg, l, r).Moved?
    ensures var p, next := Pass(cfg, l, r), Proceed(cfg, l, r).loop;
      var committed := Inserted(CommittedCause(p.cause, r.timing));
      && multiset(l.deferred) + multiset(Taken(cfg, l, r))
         == multiset(next.deferred) + multiset(committed) + multiset(Lost(cfg, l, r))
      && (Keeps(l.deferred, Taken(cfg, l, r), next.deferred, committed)
          <==> LostByTools(cfg, l, r) == [] && !(p.cause.Inserts? && r.timing != OnTime))
  {
    PassAccount(cfg, l, r);
    ProceedDefers(cfg, l, r);
    hide Taken, LostByTools, Pass, ValidLoop, LegalRound, Proceed, Inserted, LostByDelay, CommittedCause;
    var p := Pass(cfg, l, r);
    CommitOrDelay(p.cause, r.timing);
    SumUp(l.deferred, Taken(cfg, l, r), p.deferred, Inserted(p.cause), Inserted(CommittedCause(p.cause, r.timing)),
          LostByTools(cfg, l, r), LostByDelay(p.cause, r.timing));
  }

  lemma SumUp(before: seq<Insert>, taken: seq<Insert>, after: seq<Insert>, planned: seq<Insert>,
              committed: seq<Insert>, byTools: seq<Insert>, byDelay: seq<Insert>)
    requires multiset(before) + multiset(taken) == multiset(after) + multiset(planned) + multiset(byTools)
    requires multiset(planned) == multiset(committed) + multiset(byDelay)
    ensures multiset(before) + multiset(taken) == multiset(after) + multiset(committed) + multiset(byTools + byDelay)
    ensures Keeps(before, taken, after, committed) <==> byTools == [] && byDelay == []
  {
    assert multiset(byTools + byDelay) == multiset(byTools) + multiset(byDelay);
    var kept := multiset(after) + multiset(committed);
    assert multiset(before) + multiset(taken) == kept + multiset(byTools + byDelay);
    SomethingLost(multiset(before) + multiset(taken), kept, byTools + byDelay);
  }

  lemma ProceedDefers(cfg: Config, l: Loop, r: Round)
    requires ValidLoop(l) && LegalRound(cfg, l, r) && Proceed(cfg, l, r).Moved?
    ensures Proceed(cfg, l, r).loop.deferred == Pass(cfg, l, r).deferred
  {
    PassAllowed(cfg, l, r);
    hide Pass, LegalRound, ValidLoop, CommitOf, Allowed;
  }

  /** A planned insert is committed, or lost to a delay. */
  lemma CommitOrDelay(cause: Cause, timing: CommitTiming)
    ensures multiset(Inserted(cause))
         == multiset(Inserted(CommittedCause(cause, timing))) + multiset(LostByDelay(cause, timing))
    ensures LostByDelay(cause, timing) == [] <==> !(cause.Inserts? && timing != OnTime)
  {
  }

  /** What a committed pass makes of the history. */
  lemma PassHistory(cfg: Config, l: Loop, r: Round)
    requires ValidLoop(l) && LegalRound(cfg, l, r) && Proceed(cfg, l, r).Moved?
    ensures var s, next := l.checkpoint.snapshot, Proceed(cfg, l, r).loop.checkpoint;
      var cause := CommittedCause(Pass(cfg, l, r).cause, r.timing);
      && Allowed(s, cause) && next.fact == ChangeFor(cfg.limits, s, cause).fact
      && next.snapshot.history == Edited(s.history, ChangeFor(cfg.limits, s, cause).append,
                                         ChangeFor(cfg.limits, s, cause).replace)
  {
    PassAllowed(cfg, l, r);
    hide Pass, LegalRound, BoundaryOk, ValidFact, Allowed, ChangeFor;
    CommitOutcome(cfg.limits, l, Pass(cfg, l, r), r.timing, r.id, l.supply - Delivered(r));
  }

  lemma JoinCounts(a: seq<Insert>, b: seq<Insert>, c: seq<Insert>, d: seq<Insert>)
    requires a + b == c + d
    ensures multiset(a) + multiset(b) == multiset(c) + multiset(d)
  {
    assert multiset(a + b) == multiset(c + d);
  }

  // ------------------------------------------------------ passes that raise

  /** A round in which the host does nothing but what is given. */
  function QuietRound(boundary: BoundaryInput, end: ModelEnd, timing: CommitTiming, id: Text): Round {
    Round(boundary, ReducerKeeps, ModelInput(0, [], end), ToolInput(None, [], ApprovalRaised, None, [], [], true),
          timing, id)
  }

  /** A pause the host may ask for, with an empty metadata key. */
  const UNNAMED := Suspension("review", "host", None, [Entry("", Null)])

  /** In every active loop a legal round raises: a pause whose metadata has an empty key, whatever the deadline does. */
  lemma EmptyKeyRaises(cfg: Config, l: Loop, timing: CommitTiming, id: Text)
    requires ValidLimits(cfg.limits) && ValidLoop(l) && l.checkpoint.snapshot.state.Active?
    requires id != "" && id !in l.used
    ensures var r := QuietRound(Polled(Some(UNNAMED), []), ModelTimedOut, timing, id);
      LegalRound(cfg, l, r) && Proceed(cfg, l, r).Crashed?
  {
    var r := QuietRound(Polled(Some(UNNAMED), []), ModelTimedOut, timing, id);
    assert LegalRound(cfg, l, r);
    PassAllowed(cfg, l, r);
    assert Keys(UNNAMED.metadata)[0] == "";
    CommitOutcome(cfg.limits, l, Pass(cfg, l, r), timing, id, l.supply);
  }

  /** A response that asks for one call and nothing else. */
  function Asking(call: ToolCall): Response { Response([Runtime(call)], None, None, false, []) }

  /**
   * In every planning loop with a step left and no insert to commit first, a
   * legal round raises once the history has used a call id: a response that
   * uses it again before the deadline.
   */
  lemma ReusedIdRaises(cfg: Config, l: Loop, call: ToolCall, timing: CommitTiming, id: Text)
    requires ValidLimits(cfg.limits) && ValidLoop(l) && l.checkpoint.snapshot.state.Active?
    requires l.checkpoint.snapshot.state.active.Planning?
    requires l.checkpoint.snapshot.metrics.planningSteps < cfg.limits.maxPlanningSteps
    requires l.deferred == [] || l.checkpoint.snapshot.state.active.providerTurnPending
    requires call.id != "" && call.id in Link(l.checkpoint.snapshot.history).value.seen
    requires id != "" && id !in l.used && timing != LateBefore
    ensures var r := QuietRound(Polled(None, []), ModelResponded(Asking(call)), timing, id);
      LegalRound(cfg, l, r) && Proceed(cfg, l, r).Crashed?
  {
    var s, r := l.checkpoint.snapshot, QuietRound(Polled(None, []), ModelResponded(Asking(call)), timing, id);
    AskingCalls(call);
    assert LegalRound(cfg, l, r);
    PassAllowed(cfg, l, r);
    var p := Pass(cfg, l, r);
    assert p.cause.Turns? && p.cause.response == Asking(call);
    assert Ids([call])[0] == call.id && call.id in ToSet(Ids([call])) * Link(s.history).value.seen;
    CommitOutcome(cfg.limits, l, p, timing, id, l.supply);
  }

  lemma AskingCalls(call: ToolCall)
    ensures RuntimeCalls(Asking(call).output) == [call]
    ensures call.id != "" ==> ValidResponse(Asking(call))
  {
    assert Asking(call).output[1..] == [];
  }

  /** A loop that has run one tool call and is planning again. */
  function OneCallDone(call: ToolCall): Loop {
    var done := SuccessOutcome([], Null);
    var history := [AssistantMessage(Asking(call)), ToolMessage(call, done)];
    var s := Snapshot(2, Context("run", []), history, Metrics(1, 1, NO_USAGE), Active(Planning(false)));
    Loop(Checkpoint("b", s, ToolBatch("batch", [call.id], false, [Success], None)), [], false, {"b"}, 0)
  }

  /** There is such a loop, so a reused id does raise. */
  lemma OneCallIsValid(call: ToolCall)
    requires call.id != ""
    ensures ValidLoop(OneCallDone(call)) && Link(OneCallDone(call).checkpoint.snapshot.history).value.seen == {call.id}
  {
    var history := OneCallDone(call).checkpoint.snapshot.history;
    AskingCalls(call);
    assert [call.id][0] in ToSet([call.id]);
    assert history == [history[0]] + [history[1]] && Ids([call]) == [call.id] && ToSet([call.id]) == {call.id};
    var linked := Linked({call.id}, [call]);
    assert CallsOf(history[0]) == [call] && Unique(Ids([call])) && {call.id} * {} == {} && {} + {call.id} == {call.id};
    assert LinkStep(NOTHING_LINKED, history[0]) == Ok(linked);
    assert LinkStep(linked, history[1]) == Ok(Linked({call.id}, []));
    assert [history[0]][1..] == [] && [history[1]][1..] == [];
    assert LinkFrom(NOTHING_LINKED, [history[0]]) == Ok(linked);
    assert LinkFrom(linked, [history[1]]) == Ok(Linked({call.id}, []));
    LinkConcat(NOTHING_LINKED, [history[0]], [history[1]]);
  }

  /** Both ways of raising happen, from one valid loop. */
  lemma SomePassesRaise(cfg: Config, call: ToolCall)
    requires ValidLimits(cfg.limits) && cfg.limits.maxPlanningSteps > 1 && call.id != ""
    ensures exists l: Loop, r: Round, again: Round ::
      && ValidLoop(l) && LegalRound(cfg, l, r) && LegalRound(cfg, l, again)
      && Proceed(cfg, l, r).Crashed? && r.boundary == Polled(Some(UNNAMED), [])
      && Proceed(cfg, l, again).Crashed? && again.model.end == ModelResponded(Asking(call))
  {
    var l := OneCallDone(call);
    OneCallIsValid(call);
    EmptyKeyRaises(cfg, l, OnTime, "c");
    ReusedIdRaises(cfg, l, call, OnTime, "c");
  }
}
