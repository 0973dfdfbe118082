/**
 * What the events of a tool batch tell of its schedule: every start, ending,
 * progress report and cancellation, in the order in which they happened
 * (_engine/tooling.py, execute and below).
 */
module ToolLog {
  import opened Wrappers
  import opened Messages
  import opened Trace
  import opened ToolExecution

  /** Places that started and that finished, and ids that progressed and that were cancelled, each in order. */
  datatype Trail = Trail(starts: seq<int>, finishes: seq<int>, progress: seq<Text>, cancels: seq<Text>)

  const NOTHING := Trail([], [], [], [])

  function Then(a: Trail, b: Trail): Trail {
    Trail(a.starts + b.starts, a.finishes + b.finishes, a.progress + b.progress, a.cancels + b.cancels)
  }

  lemma ThenIsAssociative(a: Trail, b: Trail, c: Trail)
    ensures Then(Then(a, b), c) == Then(a, Then(b, c))
  {
  }

  function Shows(e: Event): Trail {
    match e
    case ToolStarted(_, index, _, _) => NOTHING.(starts := [index])
    case ToolFinished(_, index, _, _) => NOTHING.(finishes := [index])
    case ToolProgress(callId) => NOTHING.(progress := [callId])
    case ToolCancelRequested(callId) => NOTHING.(cancels := [callId])
    case _ => NOTHING
  }

  /** What a log tells. */
  function Told(log: seq<Event>): Trail {
    if log == [] then NOTHING else Then(Told(log[..|log| - 1]), Shows(log[|log| - 1]))
  }

  lemma {:induction false} ToldJoin(a: seq<Event>, b: seq<Event>)
    ensures Told(a + b) == Then(Told(a), Told(b))
    decreases |b|
  {
    if b == [] {
      assert a + b == a;
    } else {
      var n := |b| - 1;
      assert (a + b)[..|a + b| - 1] == a + b[..n];
      ToldJoin(a, b[..n]);
      ThenIsAssociative(Told(a), Told(b[..n]), Shows(b[n]));
    }
  }

  lemma ToldOne(log: seq<Event>, e: Event)
    ensures Told(log + [e]) == Then(Told(log), Shows(e))
  {
    assert (log + [e])[..|log + [e]| - 1] == log;
  }

  lemma {:induction false} ProgressTold(ids: seq<Text>)
    ensures Told(ProgressEvents(ids)) == NOTHING.(progress := ids)
  {
    if ids != [] {
      ProgressTold(ids[1..]);
      ToldJoin([ToolProgress(ids[0])], ProgressEvents(ids[1..]));
      ToldOne([], ToolProgress(ids[0]));
      assert [] + [ToolProgress(ids[0])] == [ToolProgress(ids[0])] && [ids[0]] + ids[1..] == ids;
    }
  }

  /** What has happened and is not told yet: completions in order, held and then queued progress. */
  function Due(e: Exec): Trail {
    Trail([], e.order, (if e.held.Some? then [e.held.value] else []) + e.progress, [])
  }

  function Known(e: Exec): Trail { Then(Told(e.log), Due(e)) }

  /** A tool runs under this id. */
  predicate Runs(s: Setup, e: Exec, id: Text)
    requires |e.tasks| == |s.batch.calls|
  {
    exists i :: 0 <= i < |e.tasks| && e.tasks[i] == Running && s.batch.calls[i].id == id
  }

  /** What a step makes happen: progress only while there is room, a cancellation only of a tool that runs. */
  function Happens(s: Setup, e: Exec, step: Step): Trail
    requires |e.tasks| == |s.batch.calls| && Enabled(s, e, step)
  {
    match step
    case Acquire(i) => NOTHING.(starts := [i])
    case Finish(i, _) => NOTHING.(finishes := [i])
    case Report(i) =>
      if |e.progress| < s.limits.maxBufferedProgress then NOTHING.(progress := [s.batch.calls[i].id]) else NOTHING
    case Advance(Some(CancelControl(id))) => if Runs(s, e, id) then NOTHING.(cancels := [id]) else NOTHING
    case _ => NOTHING
  }

  /** Every running tool is in the active set. */
  predicate AllActive(s: Setup, e: Exec)
    requires |e.tasks| == |s.batch.calls|
  {
    forall i :: 0 <= i < |e.tasks| && e.tasks[i] == Running ==> s.batch.calls[i].id in e.active
  }

  lemma HeadTrail(t: Trail, progress: seq<Text>, i: int, rest: seq<int>)
    ensures Then(Then(Then(t, NOTHING.(progress := progress)), NOTHING.(finishes := [i])), Trail([], rest, [], []))
         == Then(t, Trail([], [i] + rest, progress, []))
  {
    assert (t.finishes + [i]) + rest == t.finishes + ([i] + rest);
  }

  lemma HeldTrail(t: Trail, held: Text, order: seq<int>, progress: seq<Text>)
    ensures Then(Then(t, NOTHING.(progress := [held])), Trail([], order, progress, []))
         == Then(t, Trail([], order, [held] + progress, []))
  {
    assert (t.progress + [held]) + progress == t.progress + ([held] + progress);
  }

  lemma CancelTrail(t: Trail, id: Text, due: Trail)
    requires due.cancels == []
    ensures Then(Then(t, NOTHING.(cancels := [id])), due) == Then(Then(t, due), NOTHING.(cancels := [id]))
  {
  }

  lemma StartTrail(t: Trail, i: int, due: Trail)
    requires due.starts == []
    ensures Then(Then(t, NOTHING.(starts := [i])), due) == Then(Then(t, due), NOTHING.(starts := [i]))
  {
  }

  lemma NothingTrail(t: Trail)
    ensures Then(t, NOTHING) == t == Then(NOTHING, t)
  {
  }

  lemma HeadTells(s: Setup, e: Exec)
    requires OrderReturned(e) && |e.tasks| == |s.batch.calls| && e.order != [] && e.held.None?
    ensures Known(ReportHead(s, e)) == Known(e)
  {
    var i, event := e.order[0],
      ToolFinished(s.batch.id, e.order[0], s.batch.calls[e.order[0]].id, e.tasks[e.order[0]].result.outcome.Kind());
    hide Told, ProgressEvents, Then;
    ToldJoin(e.log, ProgressEvents(e.progress));
    ProgressTold(e.progress);
    ToldOne(Drained(e).log, event);
    HeadTrail(Told(e.log), e.progress, i, e.order[1..]);
    assert [i] + e.order[1..] == e.order && [] + e.progress == e.progress;
  }

  lemma HeadKeepsActive(s: Setup, e: Exec)
    requires OrderReturned(e) && |e.tasks| == |s.batch.calls| && e.order != [] && AllActive(s, e)
    ensures var next := ReportHead(s, e);
      |next.tasks| == |e.tasks| && next.held == e.held && AllActive(s, next)
  {
  }

  lemma {:induction false} ReportsTell(s: Setup, e: Exec)
    requires OrderReturned(e) && |e.tasks| == |s.batch.calls| && e.held.None? && AllActive(s, e)
    ensures var next := AllReported(s, e);
      |next.tasks| == |e.tasks| && Known(next) == Known(e) && AllActive(s, next)
    decreases |e.order|
  {
    if e.order != [] {
      hide Known, AllActive;
      ReportKeepsOrder(s, e);
      HeadTells(s, e);
      HeadKeepsActive(s, e);
      ReportsTell(s, ReportHead(s, e));
    }
  }

  lemma StepTells(s: Setup, e: Exec, step: Step)
    requires Inv(s, e) && Enabled(s, e, step) && AllActive(s, e)
    ensures |Do(s, e, step).tasks| == |e.tasks|
    ensures Known(Do(s, e, step)) == Then(Known(e), Happens(s, e, step)) && AllActive(s, Do(s, e, step))
  {
    hide Told, Then, Due, DoAcquire, DoFinish, DoReport, DoGrab, DoAdvance, Happens, Enabled, ResultOf;
    assert Unique(Ids(s.batch.calls)) && OrderReturned(e) && ActiveRuns(s, e);
    match step
    case Acquire(i) => AcquireTells(s, e, i);
    case Report(i) => ReportTells(s, e, i);
    case Grab => GrabTells(s, e);
    case Finish(i, ending) => FinishTells(s, e, i, ending);
    case Advance(control) => AdvanceTells(s, e, control);
  }

  lemma ReportTells(s: Setup, e: Exec, i: nat)
    requires |e.tasks| == |s.batch.calls| && Enabled(s, e, Step.Report(i)) && AllActive(s, e)
    ensures var next := DoReport(s, e, i);
      && |next.tasks| == |e.tasks| && Known(next) == Then(Known(e), Happens(s, e, Step.Report(i)))
      && AllActive(s, next)
  {
    hide Told;
  }

  lemma GrabTells(s: Setup, e: Exec)
    requires |e.tasks| == |s.batch.calls| && Enabled(s, e, Grab) && AllActive(s, e)
    ensures var next := DoGrab(e);
      |next.tasks| == |e.tasks| && Known(next) == Then(Known(e), Happens(s, e, Grab)) && AllActive(s, next)
  {
    hide Told, Then;
    assert [] + e.progress == e.progress == [e.progress[0]] + e.progress[1..];
    NothingTrail(Known(e));
  }

  lemma AcquireTells(s: Setup, e: Exec, i: nat)
    requires |e.tasks| == |s.batch.calls| && Enabled(s, e, Step.Acquire(i)) && AllActive(s, e)
    ensures var next := DoAcquire(s, e, i);
      |next.tasks| == |e.tasks| && Known(next) == Then(Known(e), Happens(s, e, Step.Acquire(i))) && AllActive(s, next)
  {
    hide Told, Then;
    ToldOne(e.log, ToolStarted(s.batch.id, i, s.batch.calls[i].id, s.batch.parallel));
    StartTrail(Told(e.log), i, Due(e));
  }

  lemma FinishTells(s: Setup, e: Exec, i: nat, ending: Ending)
    requires |e.tasks| == |s.batch.calls| && Enabled(s, e, Finish(i, ending)) && AllActive(s, e)
    requires Unique(Ids(s.batch.calls))
    ensures var next := DoFinish(s, e, i, ending);
      |next.tasks| == |e.tasks| && Known(next) == Then(Known(e), Happens(s, e, Finish(i, ending))) && AllActive(s, next)
  {
    hide Told, ResultOf;
    forall j | 0 <= j < |e.tasks| && j != i ensures s.batch.calls[j].id != s.batch.calls[i].id {
      assert Ids(s.batch.calls)[j] != Ids(s.batch.calls)[i];
    }
  }

  lemma AdvanceTells(s: Setup, e: Exec, control: Option<Control>)
    requires OrderReturned(e) && |e.tasks| == |s.batch.calls| && ActiveRuns(s, e) && AllActive(s, e)
    requires Enabled(s, e, Step.Advance(control))
    ensures var next := DoAdvance(s, e, control);
      && |next.tasks| == |e.tasks| && AllActive(s, next)
      && Known(next) == Then(Known(e), Happens(s, e, Step.Advance(control)))
  {
    hide Known, AllReported, Then;
    var emitted := EmitHeld(e);
    assert ActiveRuns(s, emitted) && AllActive(s, emitted);
    EmissionTells(s, e);
    ControlTells(s, emitted, control);
    ReportsTell(s, DoControl(emitted, control));
    assert forall id :: Runs(s, emitted, id) == Runs(s, e, id);
  }

  lemma EmissionTells(s: Setup, e: Exec)
    requires |e.tasks| == |s.batch.calls|
    ensures Known(EmitHeld(e)) == Known(e)
  {
    hide Told, Then;
    if e.held.Some? {
      ToldOne(e.log, ToolProgress(e.held.value));
      HeldTrail(Told(e.log), e.held.value, e.order, e.progress);
      assert [] + e.progress == e.progress;
    }
  }

  lemma ControlTells(s: Setup, e: Exec, control: Option<Control>)
    requires OrderReturned(e) && |e.tasks| == |s.batch.calls| && ActiveRuns(s, e) && AllActive(s, e)
    ensures var next, happens := DoControl(e, control),
        if control.Some? && control.value.CancelControl? && Runs(s, e, control.value.callId)
          then NOTHING.(cancels := [control.value.callId]) else NOTHING;
      Known(next) == Then(Known(e), happens)
  {
    hide Told, Then;
    NothingTrail(Known(e));
    if control.Some? && control.value.CancelControl? {
      var id := control.value.callId;
      assert id in e.active <==> Runs(s, e, id);
      ToldOne(e.log, ToolCancelRequested(id));
      CancelTrail(Told(e.log), id, Due(e));
    }
  }

  /** All that a schedule makes happen, in order. */
  function Happened(s: Setup, e: Exec, steps: seq<Step>): Trail
    requires Inv(s, e) && Legal(s, e, steps)
    decreases |steps|
  {
    if steps == [] then NOTHING
    else
      StepInv(s, e, steps[0]);
      Then(Happens(s, e, steps[0]), Happened(s, Do(s, e, steps[0]), steps[1..]))
  }

  lemma {:induction false} RunTells(s: Setup, e: Exec, steps: seq<Step>)
    requires Inv(s, e) && Legal(s, e, steps) && AllActive(s, e)
    ensures Known(RunSteps(s, e, steps)) == Then(Known(e), Happened(s, e, steps))
    decreases |steps|
  {
    hide Do, Enabled, Done, PermitsConserved, ProgressFlies, ActiveRuns, ProperResults, Happens, Known;
    if steps != [] {
      StepInv(s, e, steps[0]);
      StepTells(s, e, steps[0]);
      RunTells(s, Do(s, e, steps[0]), steps[1..]);
      ThenIsAssociative(Known(e), Happens(s, e, steps[0]), Happened(s, Do(s, e, steps[0]), steps[1..]));
    }
  }

  /**
   * The events of a batch that ran to its end tell all that happened and nothing
   * else: starts in the order of the permits, endings in the order the tools
   * ended, every progress report that found room in the order it was made, and
   * a cancellation exactly when its tool was running.
   */
  lemma LogTellsAll(s: Setup, steps: seq<Step>)
    requires ValidSetup(s) && Inv(s, StartExec(s)) && Legal(s, StartExec(s), steps)
    requires Done(RunSteps(s, StartExec(s), steps))
    ensures Told(RunSteps(s, StartExec(s), steps).log) == Happened(s, StartExec(s), steps)
  {
    var start := StartExec(s);
    RunTells(s, start, steps);
    RunInv(s, start, steps);
    DoneIsComplete(s, RunSteps(s, start, steps));
    if RunSteps(s, start, steps).order != [] { StillLeft(RunSteps(s, start, steps)); }
    NothingTrail(Told(RunSteps(s, start, steps).log));
    NothingTrail(Happened(s, start, steps));
  }

  lemma StillLeft(e: Exec)
    requires OrderReturned(e) && e.order != []
    ensures !Done(e)
  {
    assert e.tasks[e.order[0]].Returned?;
  }
}
