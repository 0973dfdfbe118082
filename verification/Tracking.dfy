/**
 * The trace verifier follows the tools of one batch under every schedule
 * (tooling.py, execute, against diagnostics/verification.py).
 */
module Tracking {
  import opened Wrappers
  import opened Messages
  import opened Checkpoints
  import opened Changes
  import opened Commits
  import opened Trace
  import opened Verifier
  import opened ToolExecution

  /** What the verifier holds of a started call. */
  function Opened(s: Setup, i: nat): Observation { Observation(s.batch.id, i, s.batch.parallel, None) }

  /** The batch is selected, nothing waits for approval, and named ids are distinct. */
  predicate Selecting(v: Evidence, s: Setup) {
    && AtPending(v) && !v.modelActive && !v.closed && v.waiting == {}
    && s.batch.id != "" && NamedCalls(s.batch.calls) && Unique(Ids(s.batch.calls))
    && v.selected.Some? && v.selected.value.batchId == s.batch.id && v.selected.value.callIds == Ids(s.batch.calls)
    && v.selected.value.parallel == s.batch.parallel
  }

  /** The active entries are the calls in flight. */
  predicate ActiveTracks(v: Evidence, s: Setup, e: Exec)
    requires |e.tasks| == |s.batch.calls|
  {
    && (forall i :: 0 <= i < |e.tasks| && InFlight(e.tasks[i]) ==>
          s.batch.calls[i].id in v.active && v.active[s.batch.calls[i].id] == Opened(s, i))
    && (forall id <- v.active.Keys :: FlyingId(s, e, id))
  }

  predicate ReportedId(s: Setup, e: Exec, id: Text)
    requires |e.tasks| == |s.batch.calls|
  {
    exists i :: 0 <= i < |e.tasks| && s.batch.calls[i].id == id && e.tasks[i].Reported?
  }

  /** The settled entries are the reported calls, with the kinds of their results. */
  predicate SettledTracks(v: Evidence, s: Setup, e: Exec)
    requires |e.tasks| == |s.batch.calls| == |e.results|
  {
    && (forall i :: 0 <= i < |e.tasks| && e.tasks[i].Reported? ==>
          && e.results[i].Some? && s.batch.calls[i].id in v.settled
          && v.settled[s.batch.calls[i].id] == Opened(s, i).(outcome := Some(e.results[i].value.outcome.Kind())))
    && (forall id <- v.settled.Keys :: ReportedId(s, e, id))
  }

  /** Only calls that left the queue have been seen. */
  predicate SeenTracks(v: Evidence, s: Setup, e: Exec)
    requires |e.tasks| == |s.batch.calls|
  {
    forall id <- v.seen :: FlyingId(s, e, id) || ReportedId(s, e, id)
  }

  predicate Tracks(v: Evidence, s: Setup, e: Exec)
    requires |e.tasks| == |s.batch.calls| == |e.results|
  {
    Selecting(v, s) && ActiveTracks(v, s, e) && SettledTracks(v, s, e) && SeenTracks(v, s, e)
  }

  predicate Shaped(s: Setup, e: Exec) { |e.tasks| == |s.batch.calls| == |e.results| }

  lemma StartTracks(v: Evidence, s: Setup)
    requires ValidSetup(s) && Selecting(v, s) && v.active == map[] && v.settled == map[] && v.seen == {}
    ensures Tracks(v, s, StartExec(s))
  {
  }

  lemma SameCall(s: Setup, i: nat, j: nat)
    requires i < |s.batch.calls| && j < |s.batch.calls| && Unique(Ids(s.batch.calls))
    requires s.batch.calls[i].id == s.batch.calls[j].id
    ensures i == j
  {
    var ids := Ids(s.batch.calls);
    assert ids[i] == ids[j];
  }

  lemma OtherCall(s: Setup, i: nat, j: nat)
    requires i < |s.batch.calls| && j < |s.batch.calls| && i != j && Unique(Ids(s.batch.calls))
    ensures s.batch.calls[i].id != s.batch.calls[j].id
  {
    var ids := Ids(s.batch.calls);
    assert ids[i] != ids[j];
  }

  /** A queued call has not been seen. */
  lemma QueuedUnseen(v: Evidence, s: Setup, e: Exec, i: nat)
    requires Shaped(s, e) && Tracks(v, s, e) && i < |e.tasks| && e.tasks[i].Queued?
    ensures s.batch.calls[i].id !in v.seen
  {
    var id := s.batch.calls[i].id;
    if id in v.seen {
      var j :| 0 <= j < |e.tasks| && s.batch.calls[j].id == id && (InFlight(e.tasks[j]) || e.tasks[j].Reported?);
      SameCall(s, i, j);
    }
  }

  // ------------------------------------------------- starting and finishing

  function Starting(v: Evidence, s: Setup, i: nat): Evidence
    requires i < |s.batch.calls|
  {
    var id := s.batch.calls[i].id;
    v.(seen := v.seen + {id}, active := v.active[id := Opened(s, i)])
  }

  /** Calls other than i stay what they were. */
  lemma OthersStay(s: Setup, e: Exec, next: Exec, i: nat, id: Text)
    requires Shaped(s, e) && Shaped(s, next) && i < |e.tasks| && s.batch.calls[i].id != id
    requires forall j :: 0 <= j < |e.tasks| && j != i ==> next.tasks[j] == e.tasks[j]
    ensures FlyingId(s, next, id) <==> FlyingId(s, e, id)
    ensures ReportedId(s, next, id) <==> ReportedId(s, e, id)
  {
    if FlyingId(s, e, id) {
      var j :| 0 <= j < |e.tasks| && s.batch.calls[j].id == id && InFlight(e.tasks[j]);
      assert InFlight(next.tasks[j]);
    }
    if FlyingId(s, next, id) {
      var j :| 0 <= j < |e.tasks| && s.batch.calls[j].id == id && InFlight(next.tasks[j]);
      assert InFlight(e.tasks[j]);
    }
    if ReportedId(s, e, id) {
      var j :| 0 <= j < |e.tasks| && s.batch.calls[j].id == id && e.tasks[j].Reported?;
      assert next.tasks[j].Reported?;
    }
    if ReportedId(s, next, id) {
      var j :| 0 <= j < |e.tasks| && s.batch.calls[j].id == id && next.tasks[j].Reported?;
      assert e.tasks[j].Reported?;
    }
  }

  lemma AcquireActive(v: Evidence, s: Setup, e: Exec, i: nat)
    requires Shaped(s, e) && Tracks(v, s, e) && i < |e.tasks| && e.tasks[i].Queued?
    ensures ActiveTracks(Starting(v, s, i), s, DoAcquire(s, e, i))
  {
    var next, id := DoAcquire(s, e, i), s.batch.calls[i].id;
    var w := Starting(v, s, i);
    assert InFlight(next.tasks[i]) && FlyingId(s, next, id);
    forall j | 0 <= j < |next.tasks| && InFlight(next.tasks[j])
      ensures s.batch.calls[j].id in w.active && w.active[s.batch.calls[j].id] == Opened(s, j)
    {
      if j != i { OtherCall(s, i, j); }
    }
    forall k | k in w.active.Keys ensures FlyingId(s, next, k) {
      if k != id { OthersStay(s, e, next, i, k); }
    }
  }

  lemma AcquireSettled(v: Evidence, s: Setup, e: Exec, i: nat)
    requires Shaped(s, e) && Tracks(v, s, e) && i < |e.tasks| && e.tasks[i].Queued?
    ensures SettledTracks(Starting(v, s, i), s, DoAcquire(s, e, i))
    ensures SeenTracks(Starting(v, s, i), s, DoAcquire(s, e, i))
  {
    var next, id := DoAcquire(s, e, i), s.batch.calls[i].id;
    assert InFlight(next.tasks[i]) && FlyingId(s, next, id);
    forall k | k in v.settled.Keys ensures ReportedId(s, next, k) {
      var j :| 0 <= j < |e.tasks| && s.batch.calls[j].id == k && e.tasks[j].Reported?;
      assert next.tasks[j].Reported?;
    }
    forall k | k in v.seen && k != id ensures FlyingId(s, next, k) || ReportedId(s, next, k) {
      OthersStay(s, e, next, i, k);
    }
  }

  lemma AcquireTracked(v: Evidence, s: Setup, e: Exec, i: nat)
    requires Shaped(s, e) && Tracks(v, s, e) && i < |e.tasks| && e.tasks[i].Queued?
    ensures Visit(v, ToolStarted(s.batch.id, i, s.batch.calls[i].id, s.batch.parallel)) == Ok(Starting(v, s, i))
    ensures Tracks(Starting(v, s, i), s, DoAcquire(s, e, i))
  {
    QueuedUnseen(v, s, e, i);
    AcquireActive(v, s, e, i);
    AcquireSettled(v, s, e, i);
  }

  function Finishing(v: Evidence, s: Setup, i: nat, kind: OutcomeKind): Evidence
    requires i < |s.batch.calls|
  {
    var id := s.batch.calls[i].id;
    v.(active := v.active - {id}, settled := v.settled[id := Opened(s, i).(outcome := Some(kind))])
  }

  lemma ReportActive(v: Evidence, s: Setup, e: Exec, kind: OutcomeKind)
    requires Shaped(s, e) && Tracks(v, s, e) && OrderReturned(e) && e.order != []
    ensures ActiveTracks(Finishing(v, s, e.order[0], kind), s, ReportHead(s, e))
  {
    var i, next := e.order[0], ReportHead(s, e);
    var id, w := s.batch.calls[i].id, Finishing(v, s, i, kind);
    forall j | 0 <= j < |next.tasks| && InFlight(next.tasks[j])
      ensures s.batch.calls[j].id in w.active && w.active[s.batch.calls[j].id] == Opened(s, j)
    {
      OtherCall(s, i, j);
    }
    forall k | k in w.active.Keys ensures FlyingId(s, next, k) { OthersStay(s, e, next, i, k); }
  }

  lemma ReportSettled(v: Evidence, s: Setup, e: Exec)
    requires Shaped(s, e) && Tracks(v, s, e) && OrderReturned(e) && e.order != []
    ensures var kind := e.tasks[e.order[0]].result.outcome.Kind();
      SettledTracks(Finishing(v, s, e.order[0], kind), s, ReportHead(s, e))
  {
    hide ActiveTracks, SeenTracks;
    var i, next := e.order[0], ReportHead(s, e);
    var id, w := s.batch.calls[i].id, Finishing(v, s, i, e.tasks[i].result.outcome.Kind());
    forall j | 0 <= j < |next.tasks| && next.tasks[j].Reported?
      ensures next.results[j].Some? && s.batch.calls[j].id in w.settled
      ensures w.settled[s.batch.calls[j].id] == Opened(s, j).(outcome := Some(next.results[j].value.outcome.Kind()))
    {
      if j != i { OtherCall(s, i, j); }
    }
    assert next.tasks[i].Reported?;
    forall k | k in w.settled.Keys ensures ReportedId(s, next, k) {
      if k != id { OthersStay(s, e, next, i, k); }
    }
  }

  lemma ReportSeen(v: Evidence, s: Setup, e: Exec, kind: OutcomeKind)
    requires Shaped(s, e) && Tracks(v, s, e) && OrderReturned(e) && e.order != []
    ensures SeenTracks(Finishing(v, s, e.order[0], kind), s, ReportHead(s, e))
  {
    var i, next := e.order[0], ReportHead(s, e);
    assert next.tasks[i].Reported?;
    forall k | k in v.seen ensures FlyingId(s, next, k) || ReportedId(s, next, k) {
      if k != s.batch.calls[i].id { OthersStay(s, e, next, i, k); }
    }
  }

  // ---------------------------------------------------------- observed logs

  /** Walking the log from v accepts it and leaves the verifier tracking the tools. */
  ghost predicate Observed(v: Evidence, s: Setup, e: Exec)
    requires Shaped(s, e)
  {
    var r := VisitAll(v, e.log);
    r.Ok? && Tracks(r.value, s, e) && SameBase(v, r.value)
  }

  /** What tools never change. */
  predicate SameBase(v: Evidence, w: Evidence) {
    && w.requestKind == v.requestKind && w.current == v.current && w.lastId == v.lastId && w.ids == v.ids
    && w.firstCommit == v.firstCommit && w.closed == v.closed && w.selected == v.selected
    && w.modelFinished == v.modelFinished
  }

  lemma LogOne(v: Evidence, log: seq<Event>, event: Event)
    requires VisitAll(v, log).Ok?
    ensures VisitAll(v, log + [event]) == Visit(VisitAll(v, log).value, event)
  {
    VisitConcat(v, log, [event]);
    assert [event][1..] == [];
  }

  lemma ProgressTracked(v: Evidence, s: Setup, e: Exec, id: Text)
    requires Shaped(s, e) && Tracks(v, s, e) && FlyingId(s, e, id)
    ensures Visit(v, ToolProgress(id)) == Ok(v) && Visit(v, ToolCancelRequested(id)) == Ok(v)
  {
    var i :| 0 <= i < |e.tasks| && s.batch.calls[i].id == id && InFlight(e.tasks[i]);
  }

  lemma {:induction false} DrainTracked(v: Evidence, s: Setup, e: Exec, ids: seq<Text>)
    requires Shaped(s, e) && Tracks(v, s, e)
    requires forall k :: 0 <= k < |ids| ==> FlyingId(s, e, ids[k])
    ensures VisitAll(v, ProgressEvents(ids)) == Ok(v)
  {
    if ids != [] {
      ProgressTracked(v, s, e, ids[0]);
      forall k | 0 <= k < |ids| - 1 ensures FlyingId(s, e, ids[1..][k]) { assert ids[1..][k] == ids[k + 1]; }
      DrainTracked(v, s, e, ids[1..]);
    }
  }

  lemma EmitHeldObserved(v: Evidence, s: Setup, e: Exec)
    requires Inv(s, e) && Observed(v, s, e)
    ensures Observed(v, s, EmitHeld(e))
  {
    if e.held.Some? {
      var w := VisitAll(v, e.log).value;
      LogOne(v, e.log, ToolProgress(e.held.value));
      ProgressTracked(w, s, e, e.held.value);
      SameTasks(w, s, e, EmitHeld(e));
    }
  }

  /** Nothing but the tasks and the results matters to the relation. */
  lemma SameTasks(v: Evidence, s: Setup, e: Exec, next: Exec)
    requires Shaped(s, e) && Tracks(v, s, e) && next.tasks == e.tasks && next.results == e.results
    ensures Tracks(v, s, next)
  {
    forall id ensures FlyingId(s, next, id) == FlyingId(s, e, id) {}
    forall id ensures ReportedId(s, next, id) == ReportedId(s, e, id) {}
  }

  /** Only an active call's cancellation is observable, and an active call is running. */
  lemma CancelObserved(v: Evidence, s: Setup, e: Exec, id: Text)
    requires Inv(s, e) && Observed(v, s, e) && id in e.active
    ensures VisitAll(v, e.log + [ToolCancelRequested(id)]) == VisitAll(v, e.log)
  {
    var i :| 0 <= i < |e.tasks| && s.batch.calls[i].id == id && e.tasks[i] == Running;
    assert InFlight(e.tasks[i]) && FlyingId(s, e, id);
    LogOne(v, e.log, ToolCancelRequested(id));
    ProgressTracked(VisitAll(v, e.log).value, s, e, id);
  }

  lemma ControlObserved(v: Evidence, s: Setup, e: Exec, control: Option<Control>)
    requires Shaped(s, e) && Observed(v, s, e) && Inv(s, e)
    ensures Shaped(s, DoControl(e, control)) && Observed(v, s, DoControl(e, control))
  {
    hide Tracks;
    SameTasks(VisitAll(v, e.log).value, s, e, DoControl(e, control));
    if control.Some? && control.value.CancelControl? && control.value.callId in e.active {
      CancelObserved(v, s, e, control.value.callId);
    }
  }

  lemma FinishedTracked(w: Evidence, s: Setup, e: Exec)
    requires Shaped(s, e) && Tracks(w, s, e) && OrderReturned(e) && e.order != []
    ensures var i := e.order[0];
      var kind := e.tasks[i].result.outcome.Kind();
      && Visit(w, ToolFinished(s.batch.id, i, s.batch.calls[i].id, kind)) == Ok(Finishing(w, s, i, kind))
      && Tracks(Finishing(w, s, i, kind), s, ReportHead(s, e))
  {
    var i := e.order[0];
    assert InFlight(e.tasks[i]);
    ReportActive(w, s, e, e.tasks[i].result.outcome.Kind());
    ReportSettled(w, s, e);
    ReportSeen(w, s, e, e.tasks[i].result.outcome.Kind());
  }

  lemma ReportHeadObserved(v: Evidence, s: Setup, e: Exec)
    requires Inv(s, e) && e.order != [] && Observed(v, s, e)
    ensures Observed(v, s, ReportHead(s, e))
  {
    var w, i := VisitAll(v, e.log).value, e.order[0];
    DrainTracked(w, s, e, e.progress);
    VisitConcat(v, e.log, ProgressEvents(e.progress));
    FinishedTracked(w, s, e);
    LogOne(v, Drained(e).log, ToolFinished(s.batch.id, i, s.batch.calls[i].id, e.tasks[i].result.outcome.Kind()));
  }

  lemma {:induction false} FinishReadyObserved(v: Evidence, s: Setup, e: Exec)
    requires Inv(s, e) && e.held.None? && Observed(v, s, e)
    ensures Shaped(s, AllReported(s, e)) && Observed(v, s, AllReported(s, e))
    decreases |e.order|
  {
    if e.order != [] {
      ReportHeadPermits(s, e);
      ReportHeadOrder(s, e);
      ReportHeadObserved(v, s, e);
      FinishReadyObserved(v, s, ReportHead(s, e));
    }
  }

  lemma StillReported(s: Setup, e: Exec, next: Exec, id: Text)
    requires Shaped(s, e) && Shaped(s, next) && ReportedId(s, e, id)
    requires forall j :: 0 <= j < |e.tasks| && e.tasks[j].Reported? ==> next.tasks[j].Reported?
    ensures ReportedId(s, next, id)
  {
    var j :| 0 <= j < |e.tasks| && s.batch.calls[j].id == id && e.tasks[j].Reported?;
    assert next.tasks[j].Reported?;
  }

  /** A task that returns is still in flight. */
  lemma FinishTracked(v: Evidence, s: Setup, e: Exec, i: nat, ending: Ending)
    requires Shaped(s, e) && Tracks(v, s, e) && i < |e.tasks| && e.tasks[i].Running?
    ensures Tracks(v, s, DoFinish(s, e, i, ending))
  {
    hide Selecting;
    var next := DoFinish(s, e, i, ending);
    forall id | FlyingId(s, e, id) ensures FlyingId(s, next, id) { StillFlies(s, e, next, id); }
    forall id | ReportedId(s, e, id) ensures ReportedId(s, next, id) { StillReported(s, e, next, id); }
  }

  /** Every step of every schedule is one the verifier accepts. */
  lemma StepObserved(v: Evidence, s: Setup, e: Exec, step: Step)
    requires Inv(s, e) && Enabled(s, e, step) && Observed(v, s, e)
    ensures Shaped(s, Do(s, e, step)) && Observed(v, s, Do(s, e, step))
  {
    var w := VisitAll(v, e.log).value;
    match step
    case Acquire(i) =>
      AcquireTracked(w, s, e, i);
      LogOne(v, e.log, ToolStarted(s.batch.id, i, s.batch.calls[i].id, s.batch.parallel));
    case Report(i) => SameTasks(w, s, e, DoReport(s, e, i));
    case Grab => SameTasks(w, s, e, DoGrab(e));
    case Finish(i, ending) => FinishTracked(w, s, e, i, ending);
    case Advance(control) =>
      EmitHeldInv(s, e);
      ControlInv(s, EmitHeld(e), control);
      EmitHeldObserved(v, s, e);
      ControlObserved(v, s, EmitHeld(e), control);
      FinishReadyObserved(v, s, DoControl(EmitHeld(e), control));
  }

  /** Every schedule of the tools of a batch emits a log the verifier accepts. */
  lemma {:induction false} RunObserved(v: Evidence, s: Setup, e: Exec, steps: seq<Step>)
    requires Inv(s, e) && Legal(s, e, steps) && Observed(v, s, e)
    ensures Shaped(s, RunSteps(s, e, steps)) && Observed(v, s, RunSteps(s, e, steps))
    decreases |steps|
  {
    if steps != [] {
      StepInv(s, e, steps[0]);
      StepObserved(v, s, e, steps[0]);
      RunObserved(v, s, Do(s, e, steps[0]), steps[1..]);
    }
  }

  // ------------------------------------------------------ the batch's fact

  /** When every task is done the settled entries are exactly what the batch's fact reports. */
  lemma DoneIsEvidence(v: Evidence, s: Setup, e: Exec, f: Fact)
    requires Inv(s, e) && Done(e) && Tracks(v, s, e)
    requires forall i :: 0 <= i < |e.results| ==> e.results[i].Some?
    requires f.ToolBatch? && f.batchId == s.batch.id && f.parallel == s.batch.parallel
      && f.callIds == Ids(s.batch.calls)
    requires f.outcomes == Outcomes(FinalResults(e))
    ensures v.active == map[] && ToolEvidence(v, f)
  {
    forall id ensures !FlyingId(s, e, id) {}
    assert v.active.Keys == {};
    forall id | id in v.settled.Keys ensures ReportedAs(f, id, v.settled[id]) {
      var i :| 0 <= i < |e.tasks| && s.batch.calls[i].id == id && e.tasks[i].Reported?;
    }
    forall i | 0 <= i < |f.callIds| && f.outcomes[i] != Failure ensures f.callIds[i] in v.settled {
      assert !e.tasks[i].NoTask?;
    }
  }
}
