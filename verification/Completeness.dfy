/**
 * The trace verifier accepts every event stream the engine emits, for any
 * interleaving of tools, approvals and controls (engine.py and tooling.py
 * against diagnostics/verification.py).
 */
module Completeness {
  import opened Wrappers
  import opened Messages
  import opened Digests
  import opened State
  import opened Checkpoints
  import opened Views
  import opened Changes
  import opened Commits
  import opened Trace
  import opened Verifier
  import opened ToolExecution
  import opened Rounds
  import opened Progress
  import opened Tracking
  import L = Linkage

  // ------------------------------------------------------ between commits

  /** The verifier's durable endpoint is the loop's checkpoint. */
  predicate Endpoint(v: Evidence, l: Loop) {
    v.current == Some(ViewOf(l.checkpoint.snapshot)) && v.lastId == Some(l.checkpoint.id) && v.ids == l.used
  }

  /** The same, and closed unless the run is active. */
  predicate At(v: Evidence, l: Loop) { Endpoint(v, l) && v.closed == !l.checkpoint.snapshot.state.Active? }

  /** No effect is recorded since the last commit. */
  predicate Idle(v: Evidence) {
    && !ActiveEffect(v) && v.modelFinished.None? && v.settled == map[] && v.seen == {} && v.decided == {}
  }

  /** The first commit of a resumed run is behind. */
  predicate Underway(v: Evidence) { !(v.firstCommit && v.requestKind == ResumeKind) }

  /** Only effects happened between the two. */
  predicate SameCommit(v: Evidence, w: Evidence) {
    && w.requestKind == v.requestKind && w.current == v.current && w.lastId == v.lastId && w.ids == v.ids
    && w.firstCommit == v.firstCommit && w.closed == v.closed
  }

  /** The fact's effects are the recorded ones. */
  predicate Ready(w: Evidence, f: Fact) { ToolFactError(f).None? ==> BoundaryError(w, f).None? }

  lemma ViewIsValid(s: Snapshot)
    requires ValidSnapshot(s)
    ensures ValidRunView(ViewOf(s))
  {
  }

  lemma FactFieldsFit(f: Fact)
    requires ValidFact(f)
    ensures ToolFactError(f).None?
  {
  }

  /** A commit whose effects are recorded is accepted, and leaves the verifier idle at the next checkpoint. */
  lemma CommitAccepted(v: Evidence, w: Evidence, l: Loop, p: Plan, cause: Cause, limits: Limits, next: Loop)
    requires Endpoint(v, l) && SameCommit(v, w) && !v.closed && Allowed(l.checkpoint.snapshot, cause)
    requires Advances(l, p, cause, limits, next)
    requires Ready(w, next.checkpoint.fact)
    requires Underway(v) || next.checkpoint.fact.Resumed? || DeadlineFact(next.checkpoint.fact)
    ensures var r := Visit(w, CommitEvent(next.checkpoint));
      r.Ok? && At(r.value, next) && Idle(r.value) && Underway(r.value) && r.value.requestKind == v.requestKind
  {
    hide ValidSnapshot, BoundaryOk, Allowed, VerifyChange, ChangeFor, BoundaryError;
    ViewIsValid(next.checkpoint.snapshot);
    FactFieldsFit(next.checkpoint.fact);
    assert CheckpointError(w, next.checkpoint.id, next.checkpoint.fact, ViewOf(next.checkpoint.snapshot)).None?;
  }

  // --------------------------------------------------------- the model call

  lemma {:induction false} DeltasAccepted(v: Evidence, n: nat)
    requires v.modelActive && !v.closed
    ensures VisitAll(v, Deltas(n)) == Ok(v)
  {
    if n > 0 { DeltasAccepted(v, n - 1); }
  }

  lemma VisitOne(v: Evidence, event: Event)
    ensures VisitAll(v, [event]) == Visit(v, event)
  {
    assert [event][1..] == [];
  }

  /** A started model call, as the verifier sees it. */
  function Calling(v: Evidence): Evidence { v.(modelActive := true, modelFinished := None) }

  lemma StartAndDeltas(v: Evidence, steps: int, n: nat)
    requires Visit(v, ModelStarted(steps + 1)) == Ok(Calling(v)) && !v.closed
    ensures VisitAll(v, [ModelStarted(steps + 1)] + Deltas(n)) == Ok(Calling(v))
  {
    VisitConcat(v, [ModelStarted(steps + 1)], Deltas(n));
    VisitOne(v, ModelStarted(steps + 1));
    DeltasAccepted(Calling(v), n);
  }

  /** The evidence after a model call. */
  function AfterModel(v: Evidence, steps: int, input: ModelInput): Evidence {
    match input.end
    case RequestRefused(_) => v
    case ModelResponded(r) =>
      v.(modelActive := false, modelFinished :=
           Some(ModelFinished(r.finishReason, |RuntimeCalls(r.output)|, ProviderCallCount(r.output), r.usage)))
    case _ => Calling(v)
  }

  lemma ModelAccepted(v: Evidence, s: Snapshot, input: ModelInput)
    requires v.current == Some(ViewOf(s)) && s.state.Active? && s.state.active.Planning? && s.metrics.planningSteps >= 0
    requires Idle(v) && !v.closed
    ensures VisitAll(v, ModelEvents(s.metrics.planningSteps, input))
      == Ok(AfterModel(v, s.metrics.planningSteps, input))
  {
    var steps := s.metrics.planningSteps;
    if !input.end.RequestRefused? {
      StartAndDeltas(v, steps, input.deltas);
      if input.end.ModelResponded? {
        var r := input.end.response;
        var finished := ModelFinished(r.finishReason, |RuntimeCalls(r.output)|, ProviderCallCount(r.output), r.usage);
        VisitConcat(v, [ModelStarted(steps + 1)] + Deltas(input.deltas), [finished]);
        VisitOne(Calling(v), finished);
      }
    }
  }

  lemma TurnReady(v: Evidence, s: Snapshot, input: ModelInput, limits: Limits, waiting: bool)
    requires Idle(v) && input.end.ModelResponded?
    requires Allowed(s, Turns(input.end.response, waiting))
    ensures Ready(AfterModel(v, s.metrics.planningSteps, input),
      ChangeFor(limits, s, Turns(input.end.response, waiting)).fact)
  {
  }

  // ------------------------------------------------- selection and approval

  function SelectionOf(pending: seq<ToolCall>, b: Batch): Selection
    requires |b.calls| <= |pending|
  {
    Selection(b.id, Ids(b.calls), b.parallel, |pending| - |b.calls|, IdsDigest(Ids(pending[|b.calls|..])))
  }

  /** Calls a batch may be made of: the pending ones have distinct, non-empty ids. */
  predicate GoodBatch(b: Batch) { ValidBatch(b) && NamedCalls(b.calls) }

  lemma SelectionAccepted(v: Evidence, s: Snapshot, b: Batch)
    requires v.current == Some(ViewOf(s)) && s.state.Active? && s.state.active.ToolsPending?
    requires Idle(v) && !v.closed && GoodBatch(b) && b.calls <= s.state.active.pending
    ensures var pending := s.state.active.pending;
      Visit(v, SelectionEvent(pending, b)) == Ok(v.(selected := Some(SelectionOf(pending, b))))
  {
    BatchDigest(b, s.state.active.pending);
  }

  /** A batch is selected and none of its tools has started. */
  predicate Asking(v: Evidence, b: Batch) {
    && GoodBatch(b) && AtPending(v) && !v.modelActive && v.active == map[] && !v.closed
    && v.selected.Some? && v.selected.value.batchId == b.id && v.selected.value.callIds == Ids(b.calls)
  }

  function Asked(b: Batch, requests: seq<nat>): set<Text>
    requires InRange(requests, |b.calls|)
  {
    if requests == [] then {} else {b.calls[requests[0]].id} + Asked(b, requests[1..])
  }

  predicate Ascending(requests: seq<nat>) { forall k, m :: 0 <= k < m < |requests| ==> requests[k] < requests[m] }

  /** An id asked about is some request's. */
  lemma {:induction false} AskedFrom(b: Batch, requests: seq<nat>, i: nat)
    requires InRange(requests, |b.calls|) && i < |b.calls| && Unique(Ids(b.calls))
    requires forall k :: 0 <= k < |requests| ==> i < requests[k]
    ensures b.calls[i].id !in Asked(b, requests)
  {
    if requests != [] {
      assert Ids(b.calls)[i] != Ids(b.calls)[requests[0]];
      AskedFrom(b, requests[1..], i);
    }
  }

  lemma {:induction false} RequestsAccepted(v: Evidence, b: Batch, requests: seq<nat>)
    requires Asking(v, b) && InRange(requests, |b.calls|) && Ascending(requests)
    requires Asked(b, requests) !! v.waiting + v.decided
    ensures VisitAll(v, RequestEvents(b, requests)) == Ok(v.(waiting := v.waiting + Asked(b, requests)))
    decreases |requests|
  {
    if requests == [] {
      assert v.waiting + {} == v.waiting;
    } else {
      var id := b.calls[requests[0]].id;
      var next := v.(waiting := v.waiting + {id});
      assert Visit(v, ApprovalRequested(b.id, requests[0], id)) == Ok(next);
      AskedFrom(b, requests[1..], requests[0]);
      RequestsAccepted(next, b, requests[1..]);
      assert v.waiting + {id} + Asked(b, requests[1..]) == v.waiting + Asked(b, requests);
    }
  }

  lemma DecideOne(v: Evidence, b: Batch, i: nat)
    requires Asking(v, b) && i < |b.calls| && b.calls[i].id in v.waiting
    ensures var id := b.calls[i].id;
      Visit(v, ApprovalDecided(id)) == Ok(v.(waiting := v.waiting - {id}, decided := v.decided + {id}))
  {
  }

  /** Answers that fit their requests take them out of the waiting set, one by one. */
  lemma {:induction false} DecisionsAccepted(v: Evidence, b: Batch, requests: seq<nat>, answers: seq<Answer>)
    requires Asking(v, b) && InRange(requests, |b.calls|) && Ascending(requests) && Asked(b, requests) <= v.waiting
    ensures var n := Agreeing(b, requests, answers);
      && InRange(requests[..n], |b.calls|)
      && VisitAll(v, DecisionEvents(answers[..n]))
         == Ok(v.(waiting := v.waiting - Asked(b, requests[..n]), decided := v.decided + Asked(b, requests[..n])))
    decreases |requests|
  {
    var n := Agreeing(b, requests, answers);
    if n == 0 {
      assert v.waiting - {} == v.waiting && v.decided + {} == v.decided;
    } else {
      var id := b.calls[requests[0]].id;
      var next := v.(waiting := v.waiting - {id}, decided := v.decided + {id});
      DecideOne(v, b, requests[0]);
      AskedFrom(b, requests[1..], requests[0]);
      DecisionsAccepted(next, b, requests[1..], answers[1..]);
      assert answers[..n][1..] == answers[1..][..n - 1];
      assert requests[..n][1..] == requests[1..][..n - 1];
      var rest := Asked(b, requests[1..][..n - 1]);
      assert v.waiting - {id} - rest == v.waiting - ({id} + rest);
      assert v.decided + {id} + rest == v.decided + ({id} + rest);
    }
  }

  /** The evidence after an approval exchange. */
  function AfterApproval(v: Evidence, cfg: Config, b: Batch, prepared: seq<Prepared>, input: ApprovalInput): Evidence
    requires |prepared| == |b.calls|
  {
    var requests := Requests(prepared, 0);
    if !cfg.hasApproval || requests == [] then v
    else
      var n := |Decisions(b, requests, input)|;
      var decided := Asked(b, requests[..n]);
      v.(waiting := Asked(b, requests) - decided, decided := decided)
  }

  /** The answers a host may give to the waiting requests. */
  lemma AnswersAccepted(v: Evidence, b: Batch, requests: seq<nat>, input: ApprovalInput)
    requires Asking(v, b) && InRange(requests, |b.calls|) && Ascending(requests)
    requires v.waiting == Asked(b, requests) && v.decided == {}
    ensures var n := |Decisions(b, requests, input)|;
      && n <= |requests| && InRange(requests[..n], |b.calls|)
      && VisitAll(v, DecisionEvents(Decisions(b, requests, input)))
         == Ok(v.(waiting := Asked(b, requests) - Asked(b, requests[..n]), decided := Asked(b, requests[..n])))
  {
    hide VisitAll, Asking;
    if input.Answered? && |input.answers| == |requests| {
      DecisionsAccepted(v, b, requests, input.answers);
      var decided := Asked(b, requests[..Agreeing(b, requests, input.answers)]);
      assert {} + decided == decided;
    } else {
      assert v.waiting - {} == v.waiting && requests[..0] == [];
      NothingDecided(v);
    }
  }

  lemma NothingDecided(v: Evidence)
    ensures VisitAll(v, DecisionEvents([])) == Ok(v)
  {
  }

  /** The evidence after an exchange, and that approved calls have all been decided. */
  lemma ExchangeEnds(v: Evidence, cfg: Config, b: Batch, prepared: seq<Prepared>, input: ApprovalInput)
    requires |prepared| == |b.calls| && v.waiting == {}
    ensures var requests := Requests(prepared, 0);
      var end := AfterApproval(v, cfg, b, prepared, input);
      && (Approve(cfg, b, prepared, input).ApprovedCalls? ==> end.waiting == {})
      && (!cfg.hasApproval || requests == [] ==> end == v)
  {
    hide Asked, Agreeing;
    var requests := Requests(prepared, 0);
    assert requests[..|requests|] == requests;
  }

  lemma ApprovalAccepted(v: Evidence, cfg: Config, b: Batch, prepared: seq<Prepared>, input: ApprovalInput)
    requires Asking(v, b) && |prepared| == |b.calls| && v.waiting == {} && v.decided == {}
    ensures VisitAll(v, ApprovalEvents(cfg, b, prepared, input)) == Ok(AfterApproval(v, cfg, b, prepared, input))
    ensures Approve(cfg, b, prepared, input).ApprovedCalls? ==> AfterApproval(v, cfg, b, prepared, input).waiting == {}
  {
    var requests := Requests(prepared, 0);
    ExchangeEnds(v, cfg, b, prepared, input);
    if cfg.hasApproval && requests != [] {
      hide VisitAll, RequestEvents, DecisionEvents, Asked, Agreeing, Approve, Decisions;
      RequestsAccepted(v, b, requests);
      assert v.waiting + Asked(b, requests) == Asked(b, requests);
      VisitConcat(v, RequestEvents(b, requests), DecisionEvents(Decisions(b, requests, input)));
      AnswersAccepted(v.(waiting := Asked(b, requests)), b, requests, input);
    } else {
      hide Approve, AfterApproval;
    }
  }

  // -------------------------------------------------------- the tool batch

  lemma ToolsAccepted(w: Evidence, setup: Setup, input: ToolInput)
    requires Scheduled(setup, input) && Selecting(w, setup) && w.active == map[] && w.settled == map[] && w.seen == {}
    ensures var end := RunSteps(setup, StartExec(setup), input.steps);
      && Shaped(setup, end) && Inv(setup, end) && VisitAll(w, end.log).Ok?
      && Tracks(VisitAll(w, end.log).value, setup, end) && SameBase(w, VisitAll(w, end.log).value)
  {
    StartTracks(w, setup);
    assert StartExec(setup).log == [];
    assert VisitAll(w, []) == Ok(w);
    RunObserved(w, setup, StartExec(setup), input.steps);
    RunInv(setup, StartExec(setup), input.steps);
  }

  /** A finished batch leaves exactly the evidence its fact needs. */
  lemma BatchReady(w: Evidence, setup: Setup, end: Exec, s: Snapshot, pause: Option<Suspension>)
    requires Inv(setup, end) && Done(end) && Tracks(w, setup, end)
    requires s.state.Active? && s.state.active.ToolsPending? && setup.batch.calls <= s.state.active.pending
    requires forall i :: 0 <= i < |end.results| ==> end.results[i].Some?
    ensures Ready(w, BatchChange(s.state.active, setup.batch, FinalResults(end), pause).fact)
  {
    var f := BatchChange(s.state.active, setup.batch, FinalResults(end), pause).fact;
    DoneIsEvidence(w, setup, end, f);
  }

  /** What a pass has to leave behind for its commit. */
  ghost predicate Prepares(v: Evidence, p: Plan, s: Snapshot, limits: Limits)
    requires Allowed(s, p.cause)
  {
    var r := VisitAll(v, p.events);
    r.Ok? && SameCommit(v, r.value) && Ready(r.value, ChangeFor(limits, s, p.cause).fact)
  }

  lemma ExecutedPrepares(v: Evidence, w: Evidence, setup: Setup, input: ToolInput, s: Snapshot,
                         deferred: seq<Insert>, skip: bool, events: seq<Event>)
    requires VisitAll(v, events) == Ok(w) && SameCommit(v, w)
    requires Scheduled(setup, input) && Selecting(w, setup) && w.active == map[] && w.settled == map[] && w.seen == {}
    requires s.state.Active? && s.state.active.ToolsPending? && setup.batch.calls <= s.state.active.pending
    requires Allowed(s, ExecutedPlan(setup, input, deferred, skip, events).cause)
    ensures Prepares(v, ExecutedPlan(setup, input, deferred, skip, events), s, setup.limits)
  {
    hide Inv, Tracks, Selecting, VisitAll, BatchChange, Legal, RunSteps;
    var end := RunSteps(setup, StartExec(setup), input.steps);
    ToolsAccepted(w, setup, input);
    VisitConcat(v, events, end.log);
    if !input.timedOut {
      DoneIsComplete(setup, end);
      BatchReady(VisitAll(w, end.log).value, setup, end, s, if input.pause.Some? then input.pause else end.pause);
    }
  }

  lemma ChosenIsGood(cfg: Config, s: Snapshot, input: ToolInput)
    requires ValidSnapshot(s) && s.state.Active? && s.state.active.ToolsPending? && ValidLimits(cfg.limits)
    ensures var chosen := Chosen(cfg, s, s.state.active.pending, input);
      chosen.Some? ==> GoodBatch(chosen.value) && chosen.value.calls <= s.state.active.pending
  {
    ChosenIsPrefix(cfg, s, s.state.active.pending, input);
    UnresolvedNamed(L.NOTHING_LINKED, s.history);
  }

  /** The evidence once a batch is selected and approved. */
  function Approving(v: Evidence, cfg: Config, pending: seq<ToolCall>, b: Batch, input: ToolInput): Evidence
    requires |input.binds| == |b.calls| <= |pending|
  {
    AfterApproval(v.(selected := Some(SelectionOf(pending, b))), cfg, b, Prepare(b.calls, input.binds), input.approval)
  }

  lemma SelectionAndApproval(v: Evidence, cfg: Config, s: Snapshot, b: Batch, input: ToolInput)
    requires v.current == Some(ViewOf(s)) && s.state.Active? && s.state.active.ToolsPending? && Idle(v) && !v.closed
    requires GoodBatch(b) && b.calls <= s.state.active.pending && |input.binds| == |b.calls|
    ensures var pending, prepared := s.state.active.pending, Prepare(b.calls, input.binds);
      VisitAll(v, [SelectionEvent(pending, b)] + ApprovalEvents(cfg, b, prepared, input.approval))
      == Ok(Approving(v, cfg, pending, b, input))
    ensures var prepared := Prepare(b.calls, input.binds);
      Approve(cfg, b, prepared, input.approval).ApprovedCalls? ==>
        Approving(v, cfg, s.state.active.pending, b, input).waiting == {}
  {
    var pending, prepared := s.state.active.pending, Prepare(b.calls, input.binds);
    var chosen := v.(selected := Some(SelectionOf(pending, b)));
    SelectionAccepted(v, s, b);
    VisitOne(v, SelectionEvent(pending, b));
    VisitConcat(v, [SelectionEvent(pending, b)], ApprovalEvents(cfg, b, prepared, input.approval));
    ApprovalAccepted(chosen, cfg, b, prepared, input.approval);
  }

  /** Approved tools start from a verifier that has selected their batch and holds nothing of it yet. */
  lemma ApprovedStart(v: Evidence, cfg: Config, s: Snapshot, b: Batch, input: ToolInput, prepared: seq<Prepared>)
    requires v.current == Some(ViewOf(s)) && s.state.Active? && s.state.active.ToolsPending? && Idle(v) && !v.closed
    requires GoodBatch(b) && b.calls <= s.state.active.pending && |input.binds| == |b.calls|
    ensures var w := Approving(v, cfg, s.state.active.pending, b, input);
      && SameCommit(v, w) && w.active == map[] && w.settled == map[] && w.seen == {}
      && (w.waiting == {} ==> Selecting(w, Setup(b, prepared, cfg.limits)))
  {
  }

  lemma BatchPrepares(v: Evidence, cfg: Config, s: Snapshot, b: Batch, deferred: seq<Insert>, skip: bool,
                      input: ToolInput)
    requires v.current == Some(ViewOf(s)) && s.state.Active? && s.state.active.ToolsPending? && Idle(v) && !v.closed
    requires GoodBatch(b) && b.calls <= s.state.active.pending && |input.binds| == |b.calls|
    requires var approved := Approve(cfg, b, Prepare(b.calls, input.binds), input.approval);
      approved.ApprovedCalls? ==> Scheduled(Setup(b, approved.prepared, cfg.limits), input)
    requires Allowed(s, BatchPass(cfg, s.state.active.pending, b, deferred, skip, input).cause)
    ensures Prepares(v, BatchPass(cfg, s.state.active.pending, b, deferred, skip, input), s, cfg.limits)
  {
    hide ExecutedPlan, VisitAll, Scheduled, Approving, Selecting, Approve, ApprovalEvents, SelectionEvent;
    var pending, prepared := s.state.active.pending, Prepare(b.calls, input.binds);
    SelectionAndApproval(v, cfg, s, b, input);
    var w := Approving(v, cfg, pending, b, input);
    var approved := Approve(cfg, b, prepared, input.approval);
    ApprovedStart(v, cfg, s, b, input, prepared);
    if approved.ApprovedCalls? {
      ApprovedStart(v, cfg, s, b, input, approved.prepared);
      var events := [SelectionEvent(pending, b)] + ApprovalEvents(cfg, b, prepared, input.approval);
      ExecutedPrepares(v, w, Setup(b, approved.prepared, cfg.limits), input, s, deferred, skip, events);
    }
  }

  // ------------------------------------------------------------ whole passes

  lemma PlanningPrepares(v: Evidence, cfg: Config, s: Snapshot, pending: bool, deferred: seq<Insert>, skip: bool,
                         r: Round)
    requires v.current == Some(ViewOf(s)) && s.state == Active(Planning(pending)) && s.metrics.planningSteps >= 0
    requires Idle(v) && !v.closed
    requires Allowed(s, PlanningPass(cfg, s, pending, deferred, skip, r).cause)
    ensures Prepares(v, PlanningPass(cfg, s, pending, deferred, skip, r), s, cfg.limits)
  {
    if Reduction(cfg, s, pending, skip, r).None? && s.metrics.planningSteps < cfg.limits.maxPlanningSteps {
      hide ModelEvents, VisitAll, ReducerCause;
      ModelAccepted(v, s, r.model);
      if r.model.end.ModelResponded? {
        var waiting := deferred + if pending then r.model.deferred else [];
        TurnReady(v, s, r.model, cfg.limits, pending && waiting != []);
      }
    }
  }

  lemma ToolsPrepare(v: Evidence, cfg: Config, s: Snapshot, deferred: seq<Insert>, skip: bool, input: ToolInput)
    requires ValidSnapshot(s) && v.current == Some(ViewOf(s)) && s.state.Active? && s.state.active.ToolsPending?
    requires Idle(v) && !v.closed && ValidLimits(cfg.limits) && LegalTools(cfg, s, s.state.active.pending, input)
    requires Allowed(s, ToolPass(cfg, s, s.state.active.pending, deferred, skip, input).cause)
    ensures Prepares(v, ToolPass(cfg, s, s.state.active.pending, deferred, skip, input), s, cfg.limits)
  {
    var chosen := Chosen(cfg, s, s.state.active.pending, input);
    if chosen.Some? {
      ChosenIsGood(cfg, s, input);
      BatchPrepares(v, cfg, s, chosen.value, deferred, skip, input);
    }
  }

  lemma PassPrepares(v: Evidence, cfg: Config, l: Loop, r: Round)
    requires ValidLoop(l) && LegalRound(cfg, l, r) && At(v, l) && Idle(v)
    ensures Allowed(l.checkpoint.snapshot, Pass(cfg, l, r).cause)
    ensures Prepares(v, Pass(cfg, l, r), l.checkpoint.snapshot, cfg.limits)
  {
    PassAllowed(cfg, l, r);
    var s := l.checkpoint.snapshot;
    var a := s.state.active;
    if BoundaryCause(a, l.deferred, r.boundary).None? {
      var deferred := BoundaryDeferred(a, l.deferred, r.boundary);
      match a
      case Planning(pending) => PlanningPrepares(v, cfg, s, pending, deferred, l.skipReducer, r);
      case ToolsPending(_, _) => ToolsPrepare(v, cfg, s, deferred, l.skipReducer, r.tools);
    }
  }

  /** The events are accepted and leave the verifier idle at the loop's checkpoint. */
  predicate Accepts(v: Evidence, next: Loop, events: seq<Event>) {
    var r := VisitAll(v, events);
    && r.Ok? && ValidLoop(next) && At(r.value, next) && Idle(r.value) && Underway(r.value)
    && r.value.requestKind == v.requestKind
  }

  /** Events that prepare a plan, then its commit or the deadline's in its place, are accepted. */
  lemma MoveAccepted(v: Evidence, limits: Limits, l: Loop, p: Plan, timing: CommitTiming, id: Text, supply: nat)
    requires ValidLoop(l) && Endpoint(v, l) && !v.closed && id != "" && id !in l.used && ProperInserts(p.deferred)
    requires Allowed(l.checkpoint.snapshot, p.cause) && Prepares(v, p, l.checkpoint.snapshot, limits)
    requires Underway(v) || p.cause.Resumes?
    ensures var out := Commit(limits, l, p, timing, id, supply);
      out.Crashed? || Accepts(v, out.loop, out.events)
  {
    var out := Commit(limits, l, p, timing, id, supply);
    CommitOutcome(limits, l, p, timing, id, supply);
    if out.Moved? {
      var w, cause := VisitAll(v, p.events).value, CommittedCause(p.cause, timing);
      CommitAccepted(v, w, l, p, cause, limits, out.loop);
      VisitConcat(v, p.events, [CommitEvent(out.loop.checkpoint)]);
      VisitOne(w, CommitEvent(out.loop.checkpoint));
    }
  }

  /** One pass of the loop keeps the verifier at the loop's checkpoint. */
  lemma PassAccepted(v: Evidence, cfg: Config, l: Loop, r: Round)
    requires ValidLoop(l) && LegalRound(cfg, l, r) && At(v, l) && Idle(v) && Underway(v)
    ensures var out := Proceed(cfg, l, r);
      out.Crashed? || Accepts(v, out.loop, out.events)
  {
    PassPrepares(v, cfg, l, r);
    PassAllowed(cfg, l, r);
    MoveAccepted(v, cfg.limits, l, Pass(cfg, l, r), r.timing, r.id, l.supply - Delivered(r));
  }
}
