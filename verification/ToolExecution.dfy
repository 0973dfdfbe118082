/**
 * One bounded tool batch (_engine/tooling.py, execute and below): the tool
 * tasks, the progress queue and the permits as a transition system over every
 * schedule, and the record the program updates in place.
 */
module ToolExecution {
  import opened Wrappers
  import opened Messages
  import opened State
  import opened Changes
  import opened Commits
  import opened Trace

  /** One call of a batch, bound or already decided. */
  datatype Prepared = Bound(call: ToolCall) | Decided(call: ToolCall, result: ToolResult)

  /** A call's task: none at all, waiting for a permit, running, returned, or reported. */
  datatype Task = NoTask | Queued | Running | Returned(result: ToolResult) | Reported

  datatype Control = PauseControl(suspension: Suspension) | InsertControl(insert: Insert) | CancelControl(callId: Text)

  /** How a tool ended: with a result, or by raising. */
  datatype Ending = Gave(result: ToolResult) | Raised(message: Text)

  /** What the event loop does next. */
  datatype Step =
    | Acquire(i: nat)
    | Report(i: nat)
    | Grab
    | Finish(i: nat, ending: Ending)
    | Advance(control: Option<Control>)

  /** _Execution, with the events emitted so far. */
  datatype Exec = Exec(
    results: seq<Option<ToolResult>>, tasks: seq<Task>, progress: seq<Text>, held: Option<Text>,
    overflowed: set<Text>, active: set<Text>, permits: int, order: seq<nat>,
    pause: Option<Suspension>, inserts: seq<Insert>, log: seq<Event>)

  datatype Setup = Setup(batch: Batch, prepared: seq<Prepared>, limits: Limits)

  predicate ValidSetup(s: Setup) {
    && |s.prepared| == |s.batch.calls| && Unique(Ids(s.batch.calls)) && ValidLimits(s.limits)
    && (forall i :: 0 <= i < |s.prepared| ==> s.prepared[i].call == s.batch.calls[i])
    && (forall i :: 0 <= i < |s.prepared| ==> s.prepared[i].Decided? ==>
          s.prepared[i].result.outcome.Kind() == Failure && ProperResult(s.prepared[i].result))
  }

  /** How many tools may run at once: one unless the batch is parallel. */
  function Capacity(s: Setup): int { if s.batch.parallel then s.limits.maxToolConcurrency else 1 }

  function StartResults(prepared: seq<Prepared>): (r: seq<Option<ToolResult>>)
    ensures |r| == |prepared|
  {
    seq(|prepared|, i requires 0 <= i < |prepared| =>
      if prepared[i].Bound? then None else Some(prepared[i].result))
  }

  function StartTasks(prepared: seq<Prepared>): (t: seq<Task>)
    ensures |t| == |prepared|
  {
    seq(|prepared|, i requires 0 <= i < |prepared| => if prepared[i].Bound? then Queued else NoTask)
  }

  /** _start */
  function StartExec(s: Setup): Exec {
    Exec(StartResults(s.prepared), StartTasks(s.prepared), [], None, {}, {}, Capacity(s), [], None, [], [])
  }

  function FailureResult(code: Text, message: Text): ToolResult {
    Settled(FailureOutcome([ContentPart("text", Some(message), None, None, None, None, [], [])], Null,
                           ErrorInfo(code, message)))
  }

  // --------------------------------------------------------------- one step

  /** The permit is there: the tool starts. */
  function DoAcquire(s: Setup, e: Exec, i: nat): Exec
    requires i < |e.tasks| == |s.batch.calls|
  {
    var id := s.batch.calls[i].id;
    e.(permits := e.permits - 1, tasks := e.tasks[i := Running], active := e.active + {id},
       log := e.log + [ToolStarted(s.batch.id, i, id, s.batch.parallel)])
  }

  /** A progress value is queued, or the call is marked as overflowed. */
  function DoReport(s: Setup, e: Exec, i: nat): Exec
    requires i < |s.batch.calls|
  {
    var id := s.batch.calls[i].id;
    if |e.progress| < s.limits.maxBufferedProgress then e.(progress := e.progress + [id])
    else e.(overflowed := e.overflowed + {id})
  }

  /** The waiting progress reader takes the oldest queued value. */
  function DoGrab(e: Exec): Exec
    requires e.progress != []
  {
    e.(held := Some(e.progress[0]), progress := e.progress[1..])
  }

  /** What a tool's ending becomes: a raise, or lost progress, is a failure. */
  function ResultOf(e: Exec, id: Text, ending: Ending): ToolResult {
    match ending
    case Raised(message) => FailureResult("tool_error", message)
    case Gave(result) =>
      if id in e.overflowed then FailureResult("progress_overflow", "tool progress buffer exceeded") else result
  }

  /** The tool returned: its completion is recorded, its permit stays taken. */
  function DoFinish(s: Setup, e: Exec, i: nat, ending: Ending): Exec
    requires i < |e.tasks| == |s.batch.calls|
  {
    var id := s.batch.calls[i].id;
    e.(tasks := e.tasks[i := Returned(ResultOf(e, id, ending))], active := e.active - {id}, order := e.order + [i])
  }

  function ProgressEvents(ids: seq<Text>): seq<Event> {
    if ids == [] then [] else [ToolProgress(ids[0])] + ProgressEvents(ids[1..])
  }

  /** _drain_progress */
  function Drained(e: Exec): Exec {
    e.(progress := [], log := e.log + ProgressEvents(e.progress))
  }

  /** The completion at the head of the order is reported, and its permit given back. */
  function ReportHead(s: Setup, e: Exec): Exec
    requires e.order != [] && e.order[0] < |e.tasks| == |e.results| == |s.batch.calls|
    requires e.tasks[e.order[0]].Returned?
  {
    var i, d := e.order[0], Drained(e);
    var result := e.tasks[i].result;
    d.(order := e.order[1..], results := e.results[i := Some(result)], tasks := e.tasks[i := Reported],
       permits := e.permits + 1,
       log := d.log + [ToolFinished(s.batch.id, i, s.batch.calls[i].id, result.outcome.Kind())])
  }

  /** Every completion in the order names a task that has returned. */
  predicate OrderReturned(e: Exec) {
    && |e.results| == |e.tasks|
    && (forall k :: 0 <= k < |e.order| ==> e.order[k] < |e.tasks| && e.tasks[e.order[k]].Returned?)
    && Unique(e.order)
  }

  /** _finish_ready */
  function AllReported(s: Setup, e: Exec): Exec
    requires OrderReturned(e) && |e.tasks| == |s.batch.calls|
    decreases |e.order|
  {
    if e.order == [] then e
    else
      ReportKeepsOrder(s, e);
      AllReported(s, ReportHead(s, e))
  }

  lemma ReportKeepsOrder(s: Setup, e: Exec)
    requires OrderReturned(e) && |e.tasks| == |s.batch.calls| && e.order != []
    ensures OrderReturned(ReportHead(s, e))
  {
    forall k | 0 <= k < |e.order| - 1 ensures e.order[1..][k] != e.order[0] {
      assert e.order[1..][k] == e.order[k + 1];
    }
  }

  /** A held progress value is emitted. */
  function EmitHeld(e: Exec): Exec {
    if e.held.None? then e else e.(held := None, log := e.log + [ToolProgress(e.held.value)])
  }

  /** One control command; cancelling an active call is observable. */
  function DoControl(e: Exec, control: Option<Control>): Exec {
    match control
    case None => e
    case Some(PauseControl(suspension)) => if e.pause.None? then e.(pause := Some(suspension)) else e
    case Some(InsertControl(insert)) => e.(inserts := e.inserts + [insert])
    case Some(CancelControl(callId)) =>
      if callId in e.active then e.(log := e.log + [ToolCancelRequested(callId)]) else e
  }

  /** _advance, once something is ready. */
  function DoAdvance(s: Setup, e: Exec, control: Option<Control>): Exec
    requires OrderReturned(e) && |e.tasks| == |s.batch.calls|
  {
    AllReported(s, DoControl(EmitHeld(e), control))
  }

  predicate ProperControl(c: Control) {
    match c
    case PauseControl(suspension) => ProperSuspension(suspension)
    case InsertControl(insert) => ProperInsert(insert)
    case CancelControl(_) => true
  }

  /** What can happen in a state. */
  predicate Enabled(s: Setup, e: Exec, step: Step) {
    match step
    case Acquire(i) => i < |e.tasks| && e.tasks[i] == Queued && e.permits > 0
    case Report(i) => i < |e.tasks| && e.tasks[i] == Running
    case Grab => e.held.None? && e.progress != []
    case Finish(i, ending) =>
      i < |e.tasks| && e.tasks[i] == Running && (ending.Gave? ==> ProperResult(ending.result))
    case Advance(control) =>
      && (e.held.Some? || control.Some? || e.order != [])
      && (control.Some? ==> ProperControl(control.value))
  }

  function Do(s: Setup, e: Exec, step: Step): Exec
    requires Enabled(s, e, step) && OrderReturned(e) && |e.tasks| == |s.batch.calls|
  {
    match step
    case Acquire(i) => DoAcquire(s, e, i)
    case Report(i) => DoReport(s, e, i)
    case Grab => DoGrab(e)
    case Finish(i, ending) => DoFinish(s, e, i, ending)
    case Advance(control) => DoAdvance(s, e, control)
  }

  // -------------------------------------------------------------- invariants

  /** Started in the eyes of an observer, and not reported as finished yet. */
  predicate InFlight(t: Task) { t.Running? || t.Returned? }

  function Flying(tasks: seq<Task>): nat {
    if tasks == [] then 0 else (if InFlight(tasks[0]) then 1 else 0) + Flying(tasks[1..])
  }

  /** Call i is in flight under this id. */
  predicate FlyingId(s: Setup, e: Exec, id: Text)
    requires |e.tasks| == |s.batch.calls|
  {
    exists i :: 0 <= i < |e.tasks| && s.batch.calls[i].id == id && InFlight(e.tasks[i])
  }

  /** Permits taken are exactly the tools in flight. */
  predicate PermitsConserved(s: Setup, e: Exec) { e.permits >= 0 && e.permits + Flying(e.tasks) == Capacity(s) }

  /** Only bound calls have tasks, and a result is known exactly when none is owed. */
  predicate ResultsMatch(s: Setup, e: Exec) {
    && |e.tasks| == |e.results| == |s.prepared|
    && forall i :: 0 <= i < |e.tasks| ==>
         && (e.tasks[i].NoTask? <==> s.prepared[i].Decided?)
         && (e.tasks[i].NoTask? ==> e.results[i] == Some(s.prepared[i].result))
         && (e.tasks[i].Reported? <==> s.prepared[i].Bound? && e.results[i].Some?)
  }

  /** The completion order lists exactly the returned tasks. */
  predicate OrderMatches(e: Exec) {
    OrderReturned(e) && forall i :: 0 <= i < |e.tasks| && e.tasks[i].Returned? ==> i in e.order
  }

  /** Queued and held progress, and every active id, belong to calls in flight. */
  predicate ProgressFlies(s: Setup, e: Exec)
    requires |e.tasks| == |s.batch.calls|
  {
    && (forall k :: 0 <= k < |e.progress| ==> FlyingId(s, e, e.progress[k]))
    && (e.held.Some? ==> FlyingId(s, e, e.held.value))
  }

  /** The active ids are those of the running tools. */
  predicate ActiveRuns(s: Setup, e: Exec)
    requires |e.tasks| == |s.batch.calls|
  {
    forall id <- e.active :: exists i :: 0 <= i < |e.tasks| && s.batch.calls[i].id == id && e.tasks[i] == Running
  }

  /** Every known result is one a tool message can carry. */
  predicate ProperResults(e: Exec) {
    && (forall i :: 0 <= i < |e.results| ==> e.results[i].Some? ==> ProperResult(e.results[i].value))
    && (forall i :: 0 <= i < |e.tasks| ==> e.tasks[i].Returned? ==> ProperResult(e.tasks[i].result))
  }

  predicate Inv(s: Setup, e: Exec) {
    && ValidSetup(s) && PermitsConserved(s, e) && ResultsMatch(s, e) && OrderMatches(e) && ProgressFlies(s, e)
    && ActiveRuns(s, e) && ProperResults(e)
  }

  lemma {:induction false} FlyingUpdate(tasks: seq<Task>, i: nat, t: Task)
    requires i < |tasks|
    ensures Flying(tasks[i := t])
         == Flying(tasks) - (if InFlight(tasks[i]) then 1 else 0) + (if InFlight(t) then 1 else 0)
    decreases |tasks|
  {
    if i == 0 {
      assert tasks[i := t][1..] == tasks[1..];
    } else {
      assert tasks[i := t][1..] == tasks[1..][i - 1 := t];
      FlyingUpdate(tasks[1..], i - 1, t);
    }
  }

  lemma {:induction false} NothingFlies(tasks: seq<Task>)
    requires forall i :: 0 <= i < |tasks| ==> !InFlight(tasks[i])
    ensures Flying(tasks) == 0
  {
    if tasks != [] {
      assert forall i :: 0 <= i < |tasks[1..]| ==> tasks[1..][i] == tasks[i + 1];
      NothingFlies(tasks[1..]);
    }
  }

  lemma StartInv(s: Setup)
    requires ValidSetup(s)
    ensures Inv(s, StartExec(s))
  {
    NothingFlies(StartTasks(s.prepared));
  }

  /** A call in flight keeps flying when another task changes, or when it returns. */
  lemma StillFlies(s: Setup, e: Exec, next: Exec, id: Text)
    requires |e.tasks| == |s.batch.calls| == |next.tasks|
    requires forall i :: 0 <= i < |e.tasks| && InFlight(e.tasks[i]) && s.batch.calls[i].id == id ==>
      InFlight(next.tasks[i])
    requires FlyingId(s, e, id)
    ensures FlyingId(s, next, id)
  {
    var i :| 0 <= i < |e.tasks| && s.batch.calls[i].id == id && InFlight(e.tasks[i]);
    assert InFlight(next.tasks[i]);
  }

  lemma AcquireInv(s: Setup, e: Exec, i: nat)
    requires Inv(s, e) && Enabled(s, e, Acquire(i))
    ensures Inv(s, DoAcquire(s, e, i))
  {
    var next := DoAcquire(s, e, i);
    FlyingUpdate(e.tasks, i, Running);
    forall id | FlyingId(s, e, id) ensures FlyingId(s, next, id) { StillFlies(s, e, next, id); }
    assert InFlight(next.tasks[i]) && FlyingId(s, next, s.batch.calls[i].id);
  }

  lemma ReportInv(s: Setup, e: Exec, i: nat)
    requires Inv(s, e) && Enabled(s, e, Report(i))
    ensures Inv(s, DoReport(s, e, i))
  {
    var next := DoReport(s, e, i);
    assert InFlight(e.tasks[i]) && FlyingId(s, e, s.batch.calls[i].id);
    forall id | FlyingId(s, e, id) ensures FlyingId(s, next, id) { StillFlies(s, e, next, id); }
  }

  lemma GrabInv(s: Setup, e: Exec)
    requires Inv(s, e) && Enabled(s, e, Grab)
    ensures Inv(s, DoGrab(e))
  {
    var next := DoGrab(e);
    forall id | FlyingId(s, e, id) ensures FlyingId(s, next, id) { StillFlies(s, e, next, id); }
    assert FlyingId(s, e, e.progress[0]);
    forall k | 0 <= k < |next.progress| ensures FlyingId(s, next, next.progress[k]) {
      assert next.progress[k] == e.progress[k + 1];
    }
  }

  lemma FinishOrder(s: Setup, e: Exec, i: nat, ending: Ending)
    requires Inv(s, e) && Enabled(s, e, Finish(i, ending))
    ensures OrderMatches(DoFinish(s, e, i, ending)) && ActiveRuns(s, DoFinish(s, e, i, ending))
  {
    var next := DoFinish(s, e, i, ending);
    assert i !in e.order;
    forall k | 0 <= k < |next.order| ensures next.order[k] < |next.tasks| && next.tasks[next.order[k]].Returned? {
      if k < |e.order| { assert e.order[k] != i; }
    }
    assert next.order[|e.order|] == i;
    forall j | 0 <= j < |next.tasks| && next.tasks[j].Returned? ensures j in next.order {
      if j != i { assert j in e.order; }
    }
  }

  lemma FinishInv(s: Setup, e: Exec, i: nat, ending: Ending)
    requires Inv(s, e) && Enabled(s, e, Finish(i, ending))
    ensures Inv(s, DoFinish(s, e, i, ending))
  {
    var next := DoFinish(s, e, i, ending);
    FinishOrder(s, e, i, ending);
    FlyingUpdate(e.tasks, i, next.tasks[i]);
    forall id | FlyingId(s, e, id) ensures FlyingId(s, next, id) { StillFlies(s, e, next, id); }
  }

  /** Emitting what is held and obeying a control touch neither tasks nor permits. */
  lemma EmitHeldInv(s: Setup, e: Exec)
    requires Inv(s, e)
    ensures Inv(s, EmitHeld(e)) && EmitHeld(e).held.None?
  {
    var next := EmitHeld(e);
    forall id | FlyingId(s, e, id) ensures FlyingId(s, next, id) { StillFlies(s, e, next, id); }
  }

  lemma ControlInv(s: Setup, e: Exec, control: Option<Control>)
    requires Inv(s, e) && e.held.None?
    ensures Inv(s, DoControl(e, control)) && DoControl(e, control).held.None?
  {
    SameTasksInv(s, e, DoControl(e, control));
  }

  /** What the controls change, and the log, play no part in the invariant. */
  lemma SameTasksInv(s: Setup, e: Exec, next: Exec)
    requires Inv(s, e) && next == e.(pause := next.pause, inserts := next.inserts, log := next.log)
    ensures Inv(s, next)
  {
    assert PermitsConserved(s, next) && ResultsMatch(s, next) && OrderMatches(next) && ActiveRuns(s, next);
    assert ProperResults(next);
    hide PermitsConserved, ResultsMatch, OrderMatches, ActiveRuns, ProperResults;
    assert ProgressFlies(s, next) by {
      assert |next.tasks| == |s.batch.calls| && |e.tasks| == |s.batch.calls|;
      forall id | FlyingId(s, e, id) ensures FlyingId(s, next, id) { StillFlies(s, e, next, id); }
    }
  }

  lemma ReportHeadPermits(s: Setup, e: Exec)
    requires Inv(s, e) && e.order != []
    ensures PermitsConserved(s, ReportHead(s, e)) && ResultsMatch(s, ReportHead(s, e))
      && ProperResults(ReportHead(s, e))
  {
    FlyingUpdate(e.tasks, e.order[0], Reported);
  }

  lemma ReportHeadOrder(s: Setup, e: Exec)
    requires Inv(s, e) && e.order != []
    ensures OrderMatches(ReportHead(s, e)) && ActiveRuns(s, ReportHead(s, e))
  {
    ReportKeepsOrder(s, e);
    var next := ReportHead(s, e);
    forall i | 0 <= i < |next.tasks| && next.tasks[i].Returned? ensures i in next.order {
      assert i in e.order;
      var k :| 0 <= k < |e.order| && e.order[k] == i;
      assert next.order[k - 1] == i;
    }
    forall id | id in next.active
      ensures exists i :: 0 <= i < |next.tasks| && s.batch.calls[i].id == id && next.tasks[i] == Running
    {
      var i :| 0 <= i < |e.tasks| && s.batch.calls[i].id == id && e.tasks[i] == Running;
      assert next.tasks[i] == Running;
    }
  }

  lemma {:induction false} FinishReadyInv(s: Setup, e: Exec)
    requires Inv(s, e) && e.held.None?
    ensures Inv(s, AllReported(s, e)) && AllReported(s, e).held.None? && AllReported(s, e).order == []
    decreases |e.order|
  {
    if e.order != [] {
      ReportHeadPermits(s, e);
      ReportHeadOrder(s, e);
      FinishReadyInv(s, ReportHead(s, e));
    }
  }

  /** Every step of every schedule keeps the invariant. */
  lemma StepInv(s: Setup, e: Exec, step: Step)
    requires Inv(s, e) && Enabled(s, e, step)
    ensures Inv(s, Do(s, e, step))
  {
    match step
    case Acquire(i) => AcquireInv(s, e, i);
    case Report(i) => ReportInv(s, e, i);
    case Grab => GrabInv(s, e);
    case Finish(i, ending) => FinishInv(s, e, i, ending);
    case Advance(control) =>
      EmitHeldInv(s, e);
      ControlInv(s, EmitHeld(e), control);
      FinishReadyInv(s, DoControl(EmitHeld(e), control));
  }

  // ------------------------------------------------- the controls it collected

  predicate ProperInserts(inserts: seq<Insert>) { forall i :: 0 <= i < |inserts| ==> ProperInsert(inserts[i]) }

  predicate ProperControls(e: Exec) {
    ProperInserts(e.inserts) && (e.pause.Some? ==> ProperSuspension(e.pause.value))
  }

  /** Reporting completions touches no control. */
  lemma {:induction false} ReportsKeepControls(s: Setup, e: Exec)
    requires OrderReturned(e) && |e.tasks| == |s.batch.calls|
    ensures AllReported(s, e).inserts == e.inserts && AllReported(s, e).pause == e.pause
    decreases |e.order|
  {
    if e.order != [] {
      ReportKeepsOrder(s, e);
      ReportsKeepControls(s, ReportHead(s, e));
    }
  }

  lemma StepControls(s: Setup, e: Exec, step: Step)
    requires Enabled(s, e, step) && OrderReturned(e) && |e.tasks| == |s.batch.calls|
    requires ProperControls(e)
    ensures ProperControls(Do(s, e, step))
    ensures |Do(s, e, step).inserts| == |e.inserts| + InsertsIn(step)
  {
    if step.Advance? {
      ControlKeepsProper(EmitHeld(e), step.control);
      ReportsKeepControls(s, DoControl(EmitHeld(e), step.control));
    }
  }

  lemma ControlKeepsProper(e: Exec, control: Option<Control>)
    requires ProperControls(e) && (control.Some? ==> ProperControl(control.value))
    ensures ProperControls(DoControl(e, control))
    ensures |DoControl(e, control).inserts|
         == |e.inserts| + if control.Some? && control.value.InsertControl? then 1 else 0
  {
  }

  /** How many inserts a step delivers. */
  function InsertsIn(step: Step): nat {
    if step.Advance? && step.control.Some? && step.control.value.InsertControl? then 1 else 0
  }

  // ------------------------------------------------------- what it guarantees

  /** At no time are more tools in flight than there are permits, one when the batch is serial. */
  lemma FlightIsBounded(s: Setup, e: Exec)
    requires Inv(s, e)
    ensures Flying(e.tasks) <= Capacity(s) && (!s.batch.parallel ==> Flying(e.tasks) <= 1)
  {
  }

  /** The loop's end: no task is left. */
  predicate Done(e: Exec) { forall i :: 0 <= i < |e.tasks| ==> e.tasks[i].NoTask? || e.tasks[i].Reported? }

  /** No schedule gets stuck: while a task is left, something can happen. */
  lemma NeverStuck(s: Setup, e: Exec)
    requires Inv(s, e) && !Done(e)
    ensures exists step: Step :: Enabled(s, e, step)
  {
    var i :| 0 <= i < |e.tasks| && !e.tasks[i].NoTask? && !e.tasks[i].Reported?;
    if e.order != [] {
      assert Enabled(s, e, Advance(None));
    } else if exists j :: 0 <= j < |e.tasks| && e.tasks[j] == Running {
      var j :| 0 <= j < |e.tasks| && e.tasks[j] == Running;
      assert Enabled(s, e, Finish(j, Raised("")));
    } else {
      NothingFlies(e.tasks);
      assert Enabled(s, e, Acquire(i));
    }
  }

  /** When the loop ends every call has its result and no progress is left behind. */
  lemma DoneIsComplete(s: Setup, e: Exec)
    requires Inv(s, e) && Done(e)
    ensures forall i :: 0 <= i < |e.results| ==> e.results[i].Some?
    ensures e.progress == [] && e.held.None? && e.permits == Capacity(s)
    ensures Drained(e) == e
  {
    assert e.progress != [] ==> FlyingId(s, e, e.progress[0]);
    NothingFlies(e.tasks);
    forall id ensures !FlyingId(s, e, id) {}
    assert e.log + [] == e.log;
  }

  // ------------------------------------------------------- exactly once

  /** The event is call i's start, or its finish. */
  predicate Marks(event: Event, i: int, finish: bool) {
    if finish then event.ToolFinished? && event.index == i else event.ToolStarted? && event.index == i
  }

  function CountOf(log: seq<Event>, i: int, finish: bool): nat {
    if log == [] then 0
    else CountOf(log[..|log| - 1], i, finish) + if Marks(log[|log| - 1], i, finish) then 1 else 0
  }

  lemma CountOne(log: seq<Event>, event: Event, i: int, finish: bool)
    ensures CountOf(log + [event], i, finish) == CountOf(log, i, finish) + if Marks(event, i, finish) then 1 else 0
  {
    assert (log + [event])[..|log|] == log;
  }

  lemma {:induction false} CountProgress(log: seq<Event>, ids: seq<Text>, i: int, finish: bool)
    ensures CountOf(log + ProgressEvents(ids), i, finish) == CountOf(log, i, finish)
    decreases |ids|
  {
    if ids == [] {
      assert log + [] == log;
    } else {
      var first := ToolProgress(ids[0]);
      CountOne(log, first, i, finish);
      CountProgress(log + [first], ids[1..], i, finish);
      SameLog(log, first, ProgressEvents(ids[1..]));
    }
  }

  lemma SameLog(log: seq<Event>, first: Event, rest: seq<Event>)
    ensures log + ([first] + rest) == log + [first] + rest
  {
  }

  /** The log says of each call: started once if it ever left the queue, finished once if reported. */
  predicate Counted(e: Exec, i: nat, finish: bool) {
    && i < |e.tasks|
    && CountOf(e.log, i, finish)
       == (if e.tasks[i].Reported? || (!finish && InFlight(e.tasks[i])) then 1 else 0)
  }

  lemma ReportHeadCounted(s: Setup, e: Exec, i: nat, finish: bool)
    requires Inv(s, e) && e.order != [] && Counted(e, i, finish)
    ensures Counted(ReportHead(s, e), i, finish)
  {
    CountProgress(e.log, e.progress, i, finish);
    var head := e.order[0];
    CountOne(Drained(e).log,
             ToolFinished(s.batch.id, head, s.batch.calls[head].id, e.tasks[head].result.outcome.Kind()), i, finish);
  }

  lemma {:induction false} FinishReadyCounted(s: Setup, e: Exec, i: nat, finish: bool)
    requires Inv(s, e) && Counted(e, i, finish) && e.held.None?
    ensures Counted(AllReported(s, e), i, finish)
    decreases |e.order|
  {
    if e.order != [] {
      ReportHeadPermits(s, e);
      ReportHeadOrder(s, e);
      ReportHeadCounted(s, e, i, finish);
      FinishReadyCounted(s, ReportHead(s, e), i, finish);
    }
  }

  lemma EmitHeldCounted(e: Exec, i: nat, finish: bool)
    requires Counted(e, i, finish)
    ensures Counted(EmitHeld(e), i, finish)
  {
    if e.held.Some? { CountOne(e.log, ToolProgress(e.held.value), i, finish); }
  }

  lemma ControlCounted(e: Exec, control: Option<Control>, i: nat, finish: bool)
    requires Counted(e, i, finish)
    ensures Counted(DoControl(e, control), i, finish)
  {
    if control.Some? && control.value.CancelControl? {
      CountOne(e.log, ToolCancelRequested(control.value.callId), i, finish);
    }
  }

  lemma StepCounted(s: Setup, e: Exec, step: Step, i: nat, finish: bool)
    requires Inv(s, e) && Enabled(s, e, step) && Counted(e, i, finish)
    ensures Counted(Do(s, e, step), i, finish)
  {
    match step
    case Advance(control) => AdvanceCounted(s, e, control, i, finish);
    case _ => SilentCounted(s, e, step, i, finish);
  }

  lemma AdvanceCounted(s: Setup, e: Exec, control: Option<Control>, i: nat, finish: bool)
    requires Inv(s, e) && Counted(e, i, finish)
    ensures Counted(DoAdvance(s, e, control), i, finish)
  {
    EmitHeldInv(s, e);
    ControlInv(s, EmitHeld(e), control);
    EmitHeldCounted(e, i, finish);
    ControlCounted(EmitHeld(e), control, i, finish);
    FinishReadyCounted(s, DoControl(EmitHeld(e), control), i, finish);
  }

  /** Any other step starts one call at most, and finishes none. */
  lemma SilentCounted(s: Setup, e: Exec, step: Step, i: nat, finish: bool)
    requires OrderReturned(e) && |e.tasks| == |s.batch.calls| && Enabled(s, e, step) && !step.Advance?
    requires Counted(e, i, finish)
    ensures Counted(Do(s, e, step), i, finish)
  {
    hide AllReported, CountOf, DoAdvance;
    if step.Acquire? {
      CountOne(e.log, ToolStarted(s.batch.id, step.i, s.batch.calls[step.i].id, s.batch.parallel), i, finish);
    }
  }

  // ------------------------------------------------------------- schedules

  /** A schedule every step of which is enabled when its turn comes, while a task is left. */
  predicate Legal(s: Setup, e: Exec, steps: seq<Step>)
    requires Inv(s, e)
    decreases |steps|
  {
    steps != [] ==>
      && !Done(e) && Enabled(s, e, steps[0])
      && (StepInv(s, e, steps[0]); Legal(s, Do(s, e, steps[0]), steps[1..]))
  }

  function RunSteps(s: Setup, e: Exec, steps: seq<Step>): Exec
    requires Inv(s, e) && Legal(s, e, steps)
    decreases |steps|
  {
    if steps == [] then e
    else
      StepInv(s, e, steps[0]);
      RunSteps(s, Do(s, e, steps[0]), steps[1..])
  }

  lemma {:induction false} RunInv(s: Setup, e: Exec, steps: seq<Step>)
    requires Inv(s, e) && Legal(s, e, steps)
    ensures Inv(s, RunSteps(s, e, steps))
    decreases |steps|
  {
    if steps != [] {
      StepInv(s, e, steps[0]);
      RunInv(s, Do(s, e, steps[0]), steps[1..]);
    }
  }

  lemma {:induction false} RunCounted(s: Setup, e: Exec, steps: seq<Step>, i: nat, finish: bool)
    requires Inv(s, e) && Legal(s, e, steps) && Counted(e, i, finish)
    ensures Counted(RunSteps(s, e, steps), i, finish)
    decreases |steps|
  {
    if steps != [] {
      StepInv(s, e, steps[0]);
      StepCounted(s, e, steps[0], i, finish);
      RunCounted(s, Do(s, e, steps[0]), steps[1..], i, finish);
    }
  }

  lemma {:induction false} RunControls(s: Setup, e: Exec, steps: seq<Step>)
    requires Inv(s, e) && Legal(s, e, steps) && ProperControls(e)
    ensures ProperControls(RunSteps(s, e, steps))
    ensures |RunSteps(s, e, steps).inserts| == |e.inserts| + TotalInserts(steps)
    decreases |steps|
  {
    if steps != [] {
      StepInv(s, e, steps[0]);
      StepControls(s, e, steps[0]);
      RunControls(s, Do(s, e, steps[0]), steps[1..]);
    }
  }

  function TotalInserts(steps: seq<Step>): nat {
    if steps == [] then 0 else InsertsIn(steps[0]) + TotalInserts(steps[1..])
  }

  /** The results in batch order, whatever the completion order was. */
  function FinalResults(e: Exec): (r: seq<ToolResult>)
    requires forall i :: 0 <= i < |e.results| ==> e.results[i].Some?
    ensures |r| == |e.results|
  {
    seq(|e.results|, i requires 0 <= i < |e.results| => e.results[i].value)
  }

  /** What call i's own ending in a schedule becomes, where it ends. */
  function GivenBy(s: Setup, e: Exec, steps: seq<Step>, i: nat): Option<ToolResult>
    requires Inv(s, e) && Legal(s, e, steps) && i < |s.prepared|
    decreases |steps|
  {
    if steps == [] then None
    else if steps[0].Finish? && steps[0].i == i then Some(ResultOf(e, s.batch.calls[i].id, steps[0].ending))
    else
      StepInv(s, e, steps[0]);
      GivenBy(s, Do(s, e, steps[0]), steps[1..], i)
  }

  /** The result task i has returned with, recorded yet or not. */
  function Held(e: Exec, i: nat): Option<ToolResult>
    requires i < |e.tasks| == |e.results|
  {
    match e.tasks[i]
    case Returned(result) => Some(result)
    case Reported => e.results[i]
    case _ => None
  }

  /** Reporting completions, in whatever order, records each result at its own call. */
  lemma {:induction false} ReportsKeepHeld(s: Setup, e: Exec, i: nat)
    requires OrderReturned(e) && |e.tasks| == |s.batch.calls| && i < |e.tasks|
    ensures |AllReported(s, e).tasks| == |AllReported(s, e).results| == |e.tasks|
    ensures Held(AllReported(s, e), i) == Held(e, i)
    decreases |e.order|
  {
    if e.order != [] {
      ReportKeepsOrder(s, e);
      ReportsKeepHeld(s, ReportHead(s, e), i);
    }
  }

  lemma AdvanceGives(s: Setup, e: Exec, control: Option<Control>, i: nat)
    requires Inv(s, e) && i < |s.prepared|
    ensures |DoAdvance(s, e, control).tasks| == |DoAdvance(s, e, control).results| == |e.tasks| == |e.results|
    ensures Held(DoAdvance(s, e, control), i) == Held(e, i)
  {
    hide AllReported, ProgressFlies, ActiveRuns, PermitsConserved, ProperResults;
    ReportsKeepHeld(s, DoControl(EmitHeld(e), control), i);
  }

  lemma FinishGives(s: Setup, e: Exec, j: nat, ending: Ending, i: nat)
    requires |e.tasks| == |e.results| == |s.batch.calls| && j < |e.tasks| && e.tasks[j] == Running && i < |e.tasks|
    ensures Held(DoFinish(s, e, j, ending), i)
         == if j == i then Some(ResultOf(e, s.batch.calls[i].id, ending)) else Held(e, i)
    ensures j == i ==> Held(e, i).None?
  {
  }

  /** Only a call's own ending gives it a result. */
  lemma StepGives(s: Setup, e: Exec, step: Step, i: nat)
    requires Inv(s, e) && Enabled(s, e, step) && i < |s.prepared|
    ensures i < |Do(s, e, step).tasks| == |Do(s, e, step).results|
    ensures Held(Do(s, e, step), i)
         == if step.Finish? && step.i == i then Some(ResultOf(e, s.batch.calls[i].id, step.ending)) else Held(e, i)
    ensures step.Finish? && step.i == i ==> Held(e, i).None?
  {
    hide ProgressFlies, ActiveRuns, PermitsConserved, ProperResults, DoAdvance, DoFinish;
    match step
    case Finish(j, ending) =>
      FinishGives(s, e, j, ending, i);
      FinishSizes(s, e, j, ending);
    case Advance(control) => AdvanceGives(s, e, control, i);
    case _ =>
  }

  lemma FinishSizes(s: Setup, e: Exec, j: nat, ending: Ending)
    requires j < |e.tasks| == |s.batch.calls|
    ensures |DoFinish(s, e, j, ending).tasks| == |e.tasks| && |DoFinish(s, e, j, ending).results| == |e.results|
  {
  }

  lemma {:induction false} RunGives(s: Setup, e: Exec, steps: seq<Step>, i: nat)
    requires Inv(s, e) && Legal(s, e, steps) && i < |s.prepared|
    ensures var end := RunSteps(s, e, steps);
      && i < |end.tasks| == |end.results|
      && Held(end, i) == if Held(e, i).Some? then Held(e, i) else GivenBy(s, e, steps, i)
    decreases |steps|
  {
    hide Held, Do, Enabled, Done;
    if steps != [] {
      StepInv(s, e, steps[0]);
      StepGives(s, e, steps[0], i);
      RunGives(s, Do(s, e, steps[0]), steps[1..], i);
    }
  }

  /** A call's part of a finished batch, given what its own ending became. */
  predicate RanOnce(p: Prepared, result: Option<ToolResult>, given: Option<ToolResult>, starts: nat, finishes: nat) {
    && result.Some? && ProperResult(result.value)
    && match p
       case Decided(_, decided) => result.value == decided && starts == 0 && finishes == 0
       case Bound(_) => result == given && starts == 1 && finishes == 1
  }

  /**
   * A batch that runs to its end, under any schedule: each bound call was
   * started once and finished once, each decided call never, the permits are
   * all back, and at each call's place stands what its own ending became,
   * whatever the completion order.
   */
  lemma BatchRunsOnce(s: Setup, steps: seq<Step>, i: nat)
    requires ValidSetup(s) && Inv(s, StartExec(s)) && Legal(s, StartExec(s), steps) && i < |s.prepared|
    requires Done(RunSteps(s, StartExec(s), steps))
    ensures var end := RunSteps(s, StartExec(s), steps);
      && end.permits == Capacity(s) && |end.results| == |s.prepared|
      && RanOnce(s.prepared[i], end.results[i], GivenBy(s, StartExec(s), steps, i), CountOf(end.log, i, false),
                 CountOf(end.log, i, true))
  {
    var end := RunSteps(s, StartExec(s), steps);
    RunInv(s, StartExec(s), steps);
    DoneIsComplete(s, end);
    RunCounted(s, StartExec(s), steps, i, false);
    RunCounted(s, StartExec(s), steps, i, true);
    RunGives(s, StartExec(s), steps, i);
  }

  // ------------------------------------------------------ the record in place

  /** _Execution: the fields `_invoke`, `_advance` and `_finish_ready` change. */
  class Execution {
    const setup: Setup
    var results: seq<Option<ToolResult>>
    var tasks: seq<Task>
    var progress: seq<Text>
    var held: Option<Text>
    var overflowed: set<Text>
    var active: set<Text>
    var permits: int
    var completionOrder: seq<nat>
    var pause: Option<Suspension>
    var inserts: seq<Insert>
    var emitted: seq<Event>

    ghost function State(): Exec
      reads this
    {
      Exec(results, tasks, progress, held, overflowed, active, permits, completionOrder, pause, inserts, emitted)
    }

    ghost predicate Valid()
      reads this
    {
      Inv(setup, State())
    }

    constructor (s: Setup)
      requires ValidSetup(s)
      ensures setup == s && State() == StartExec(s) && Valid()
    {
      setup := s;
      results, tasks := StartResults(s.prepared), StartTasks(s.prepared);
      progress, held, overflowed, active := [], None, {}, {};
      permits := Capacity(s);
      completionOrder, pause, inserts, emitted := [], None, [], [];
      StartInv(s);
    }

    /** _invoke up to the tool's own code. */
    method Acquire(i: nat)
      requires Valid() && Enabled(setup, State(), Step.Acquire(i))
      modifies this
      ensures State() == DoAcquire(setup, old(State()), i) && Valid()
    {
      AcquireInv(setup, State(), i);
      var id := setup.batch.calls[i].id;
      permits := permits - 1;
      tasks := tasks[i := Running];
      active := active + {id};
      emitted := emitted + [ToolStarted(setup.batch.id, i, id, setup.batch.parallel)];
    }

    /** _progress: a full queue marks the call instead. */
    method EmitProgress(i: nat) returns (accepted: bool)
      requires Valid() && Enabled(setup, State(), Report(i))
      modifies this
      ensures State() == DoReport(setup, old(State()), i) && Valid()
      ensures accepted <==> |old(progress)| < setup.limits.maxBufferedProgress
    {
      ReportInv(setup, State(), i);
      var id := setup.batch.calls[i].id;
      if |progress| >= setup.limits.maxBufferedProgress {
        overflowed := overflowed + {id};
        return false;
      }
      progress := progress + [id];
      accepted := true;
    }

    /** The pending progress.get() takes a value. */
    method GrabProgress()
      requires Valid() && Enabled(setup, State(), Grab)
      modifies this
      ensures State() == DoGrab(old(State())) && Valid()
    {
      GrabInv(setup, State());
      held := Some(progress[0]);
      progress := progress[1..];
    }

    /** _invoke from the tool's return on. */
    method Complete(i: nat, ending: Ending)
      requires Valid() && Enabled(setup, State(), Finish(i, ending))
      modifies this
      ensures State() == DoFinish(setup, old(State()), i, ending) && Valid()
    {
      FinishInv(setup, State(), i, ending);
      var id := setup.batch.calls[i].id;
      var result;
      match ending {
        case Raised(message) => result := FailureResult("tool_error", message);
        case Gave(given) =>
          result := given;
          if id in overflowed { result := FailureResult("progress_overflow", "tool progress buffer exceeded"); }
      }
      active := active - {id};
      tasks := tasks[i := Returned(result)];
      completionOrder := completionOrder + [i];
    }

    /** _advance, once something is ready. */
    method Advance(control: Option<Control>)
      requires Valid() && Enabled(setup, State(), Step.Advance(control))
      modifies this
      ensures State() == DoAdvance(setup, old(State()), control) && Valid()
    {
      EmitHeldInv(setup, State());
      if held.Some? {
        emitted := emitted + [ToolProgress(held.value)];
        held := None;
      }
      ControlInv(setup, State(), control);
      if control.Some? { Obey(control.value); }
      FinishReady();
    }

    method Obey(control: Control)
      modifies this
      ensures State() == DoControl(old(State()), Some(control))
    {
      match control
      case PauseControl(suspension) => if pause.None? { pause := Some(suspension); }
      case InsertControl(insert) => inserts := inserts + [insert];
      case CancelControl(callId) =>
        if callId in active { emitted := emitted + [ToolCancelRequested(callId)]; }
    }

    /** _finish_ready: report completions in the order they were recorded; none is left unrecorded. */
    method FinishReady()
      requires Valid() && held.None?
      modifies this
      ensures State() == AllReported(setup, old(State())) && Valid()
      ensures completionOrder == [] && forall i :: 0 <= i < |tasks| ==> !tasks[i].Returned?
    {
      while completionOrder != []
        invariant Valid() && held.None? && AllReported(setup, State()) == AllReported(setup, old(State()))
        decreases |completionOrder|
      {
        ReportFirst();
      }
    }

    /** The head of the order: its queued progress first, then its finish, then its permit. */
    method ReportFirst()
      requires Valid() && held.None? && completionOrder != []
      modifies this
      ensures State() == ReportHead(setup, old(State())) && Valid()
    {
      ReportHeadPermits(setup, State());
      ReportHeadOrder(setup, State());
      var index := completionOrder[0];
      var result := tasks[index].result;
      completionOrder := completionOrder[1..];
      DrainProgress();
      results := results[index := Some(result)];
      tasks := tasks[index := Reported];
      emitted := emitted + [ToolFinished(setup.batch.id, index, setup.batch.calls[index].id, result.outcome.Kind())];
      permits := permits + 1;
    }

    /** _drain_progress */
    method DrainProgress()
      modifies this`progress, this`emitted
      ensures State() == Drained(old(State()))
    {
      assert emitted + [] == emitted;
      while progress != []
        invariant emitted + ProgressEvents(progress) == old(emitted) + ProgressEvents(old(progress))
        decreases |progress|
      {
        SameLog(emitted, ToolProgress(progress[0]), ProgressEvents(progress[1..]));
        emitted := emitted + [ToolProgress(progress[0])];
        progress := progress[1..];
      }
      assert emitted + [] == emitted;
    }
  }

  /** execute, under a given schedule of the event loop. */
  method Execute(s: Setup, steps: seq<Step>) returns (end: Exec)
    requires ValidSetup(s) && Inv(s, StartExec(s)) && Legal(s, StartExec(s), steps)
    ensures end == RunSteps(s, StartExec(s), steps)
  {
    var x := new Execution(s);
    assert steps[0..] == steps;
    for k := 0 to |steps|
      invariant x.setup == s && x.Valid() && Legal(s, x.State(), steps[k..])
      invariant RunSteps(s, x.State(), steps[k..]) == RunSteps(s, StartExec(s), steps)
    {
      assert steps[k..][1..] == steps[k + 1..] && steps[k..][0] == steps[k];
      Perform(x, steps[k]);
    }
    end := Exec(x.results, x.tasks, x.progress, x.held, x.overflowed, x.active, x.permits, x.completionOrder,
                x.pause, x.inserts, x.emitted);
  }

  method Perform(x: Execution, step: Step)
    requires x.Valid() && Enabled(x.setup, x.State(), step)
    modifies x
    ensures x.State() == Do(x.setup, old(x.State()), step) && x.Valid()
  {
    match step
    case Acquire(i) => x.Acquire(i);
    case Report(i) => var _ := x.EmitProgress(i);
    case Grab => x.GrabProgress();
    case Finish(i, ending) => x.Complete(i, ending);
    case Advance(control) => x.Advance(control);
  }
}
