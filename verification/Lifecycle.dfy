/**
 * The trace verifier against the events themselves: a trace is accepted
 * exactly when each entry may follow the ones before it, stated without the
 * verifier's evidence (diagnostics/verification.py).
 */
module Lifecycle {
  import opened Wrappers
  import opened Messages
  import opened Digests
  import opened State
  import opened Checkpoints
  import opened Views
  import opened Trace
  import opened Verifier
  import S = Soundness

  // ---------------------------------------------------- what a history holds

  /** The events since the last commit. */
  function Since(h: seq<Event>): seq<Event> {
    if h == [] then []
    else if h[|h| - 1].CheckpointCommitted? then []
    else Since(h[..|h| - 1]) + [h[|h| - 1]]
  }

  function LastCommit(h: seq<Event>): Option<Event> {
    if h == [] then None
    else if h[|h| - 1].CheckpointCommitted? then Some(h[|h| - 1])
    else LastCommit(h[..|h| - 1])
  }

  function CommittedIn(h: seq<Event>): set<Text> { set e <- h | e.CheckpointCommitted? :: e.checkpointId }

  function AskedIn(h: seq<Event>): set<Text> { set e <- h | e.ApprovalRequested? :: e.callId }

  function AnsweredIn(h: seq<Event>): set<Text> { set e <- h | e.ApprovalDecided? :: e.callId }

  function StartedIn(h: seq<Event>): set<Text> { set e <- h | e.ToolStarted? :: e.callId }

  function FinishedIn(h: seq<Event>): set<Text> { set e <- h | e.ToolFinished? :: e.callId }

  /** The latest start or finish of a model call. */
  function LastModel(h: seq<Event>): Option<Event> {
    if h == [] then None
    else if h[|h| - 1].ModelStarted? || h[|h| - 1].ModelFinished? then Some(h[|h| - 1])
    else LastModel(h[..|h| - 1])
  }

  /** A model call was started and has not finished. */
  predicate ModelOpen(h: seq<Event>) { LastModel(h).Some? && LastModel(h).value.ModelStarted? }

  /** The latest batch announced. */
  function Announced(h: seq<Event>): Option<Event> {
    if h == [] then None
    else if h[|h| - 1].ToolBatchSelected? then Some(h[|h| - 1])
    else Announced(h[..|h| - 1])
  }

  /** The latest start, or finish, of a tool under an id. */
  function StartOf(h: seq<Event>, id: Text): Option<Event> {
    if h == [] then None
    else if h[|h| - 1].ToolStarted? && h[|h| - 1].callId == id then Some(h[|h| - 1])
    else StartOf(h[..|h| - 1], id)
  }

  function FinishOf(h: seq<Event>, id: Text): Option<Event> {
    if h == [] then None
    else if h[|h| - 1].ToolFinished? && h[|h| - 1].callId == id then Some(h[|h| - 1])
    else FinishOf(h[..|h| - 1], id)
  }

  predicate NoToolRuns(h: seq<Event>) { StartedIn(h) <= FinishedIn(h) }

  predicate NothingOpen(h: seq<Event>) { AskedIn(h) <= AnsweredIn(h) }

  /** The announced batch has this id, and this call at this place. */
  predicate Names(h: seq<Event>, batchId: Text, index: int, callId: Text) {
    && Announced(h).Some? && Announced(h).value.ToolBatchSelected?
    && Announced(h).value.batchId == batchId && 0 <= index < |Announced(h).value.callIds|
    && Announced(h).value.callIds[index] == callId
  }

  // ------------------------------------------------- what may follow a history

  /** Whether an event other than a commit may follow those since the last commit, at the committed view. */
  predicate MayFollow(view: Option<RunView>, h: seq<Event>, event: Event) {
    match event
    case ModelStarted(step) =>
      && view.Some? && view.value.state.PlanningView? && !ModelOpen(h) && NoToolRuns(h)
      && step == view.value.metrics.planningSteps + 1 >= 1
    case ModelDelta => ModelOpen(h)
    case ModelFinished(_, _, _, _) => ModelOpen(h)
    case ToolBatchSelected(batchId, callIds, _, count, digest) =>
      && view.Some? && view.value.state.PendingView?
      && !ModelOpen(h) && Announced(h).None? && NoToolRuns(h) && NothingOpen(h)
      && batchId != "" && callIds != [] && Unique(callIds) && count >= 0
      && |callIds| + count == view.value.state.pendingCount
      && ComposeIds(callIds, digest) == view.value.state.callIdDigest
    case ApprovalRequested(batchId, index, callId) =>
      && view.Some? && view.value.state.PendingView? && !ModelOpen(h) && NoToolRuns(h)
      && batchId != "" && callId != "" && Names(h, batchId, index, callId) && callId !in AskedIn(h)
    case ApprovalDecided(callId) => callId != "" && callId in AskedIn(h) && callId !in AnsweredIn(h)
    case ToolStarted(batchId, index, callId, parallel) =>
      && view.Some? && view.value.state.PendingView? && !ModelOpen(h) && NothingOpen(h)
      && batchId != "" && callId != "" && Names(h, batchId, index, callId)
      && parallel == Announced(h).value.parallel && callId !in StartedIn(h)
    case ToolProgress(callId) => callId != "" && callId in StartedIn(h) && callId !in FinishedIn(h)
    case ToolCancelRequested(callId) => callId != "" && callId in StartedIn(h) && callId !in FinishedIn(h)
    case ToolFinished(batchId, index, callId, _) =>
      && callId != "" && batchId != "" && callId in StartedIn(h) && callId !in FinishedIn(h)
      && StartOf(h, callId).Some? && StartOf(h, callId).value.ToolStarted?
      && StartOf(h, callId).value.batchId == batchId && StartOf(h, callId).value.index == index >= 0
    case _ => false
  }

  /** A tool that finished is in the fact, at the place and with the batch it started under and the outcome it had. */
  predicate Reports(h: seq<Event>, f: Fact, id: Text)
    requires f.ToolBatch? && |f.callIds| == |f.outcomes|
  {
    && StartOf(h, id).Some? && StartOf(h, id).value.ToolStarted?
    && FinishOf(h, id).Some? && FinishOf(h, id).value.ToolFinished?
    && var start := StartOf(h, id).value;
      && start.batchId == f.batchId && start.parallel == f.parallel
      && 0 <= start.index < |f.callIds| && f.callIds[start.index] == id
      && FinishOf(h, id).value.outcome == f.outcomes[start.index]
  }

  /** What a fact asks of the events since the last commit. */
  predicate Settles(h: seq<Event>, f: Fact) {
    match f
    case ModelTurn(_, _, callIds, _, finishReason, usage, _) =>
      && LastModel(h).Some? && LastModel(h).value.ModelFinished? && NoToolRuns(h) && NothingOpen(h)
      && LastModel(h).value.runtimeCalls == |callIds| && LastModel(h).value.providerCalls >= 0
      && LastModel(h).value.finishReason == finishReason && LastModel(h).value.usage == usage
    case ToolBatch(batchId, callIds, parallel, outcomes, _) =>
      && batchId != "" && callIds != [] && |callIds| == |outcomes| && Unique(callIds)
      && !ModelOpen(h) && NoToolRuns(h) && NothingOpen(h)
      && Announced(h).Some? && Announced(h).value.ToolBatchSelected? && Announced(h).value.batchId == batchId
      && Announced(h).value.callIds == callIds && Announced(h).value.parallel == parallel
      && (forall id <- FinishedIn(h) :: Reports(h, f, id))
      && (forall i :: 0 <= i < |callIds| && outcomes[i] != Failure ==> callIds[i] in FinishedIn(h))
    case Control(_) => true
    case ConversationInsert(_) => true
    case _ => !ModelOpen(h) && Announced(h).None? && NoToolRuns(h) && NothingOpen(h)
  }

  /** How a trace stands before its first visited entry. */
  datatype Beginning = Beginning(kind: RequestKind, view: Option<RunView>, lastId: Option<Text>, ids: set<Text>)

  function ViewAt(b: Beginning, h: seq<Event>): Option<RunView> {
    match LastCommit(h)
    case Some(CheckpointCommitted(_, _, after)) => Some(after)
    case _ => b.view
  }

  /** Whether any entry may follow the ones before it. */
  predicate Fits(b: Beginning, h: seq<Event>, event: Event) {
    && (LastCommit(h).Some? && LastCommit(h).value.CheckpointCommitted? ==>
          LastCommit(h).value.after.state.PlanningView? || LastCommit(h).value.after.state.PendingView?)
    && match event
       case CheckpointCommitted(id, f, after) =>
         && id != "" && id !in b.ids + CommittedIn(h) && ValidRunView(after)
         && (b.kind == ResumeKind && LastCommit(h).None? ==>
               f.Resumed? || f == Control(LimitedControl(DeadlineReached)))
         && VerifyChange(ViewAt(b, h), f, after).None? && Settles(Since(h), f)
       case _ => MayFollow(ViewAt(b, h), Since(h), event)
  }

  /** Every entry may follow the ones before it. */
  predicate Orderly(b: Beginning, events: seq<Event>) {
    forall j :: 0 <= j < |events| ==> Fits(b, events[..j], events[j])
  }

  // ------------------------------------------------ the evidence tells of it

  function SelectionOf(event: Event): Selection
    requires event.ToolBatchSelected?
  {
    Selection(event.batchId, event.callIds, event.parallel, event.remainingCount, event.remainingDigest)
  }

  /** The evidence of a stretch without commits. */
  ghost predicate Tells(e: Evidence, h: seq<Event>) {
    TellsRest(e, h) && TellsApprovals(e, h) && TellsTools(e, h)
  }

  /** Of the model call and the batch. */
  predicate TellsRest(e: Evidence, h: seq<Event>) {
    && (e.modelActive <==> ModelOpen(h))
    && e.modelFinished == (if LastModel(h).Some? && LastModel(h).value.ModelFinished? then LastModel(h) else None)
    && (LastModel(h).Some? ==> LastModel(h).value.ModelStarted? || LastModel(h).value.ModelFinished?)
    && (Announced(h).Some? ==> Announced(h).value.ToolBatchSelected?)
    && (if Announced(h).Some? then e.selected == Some(SelectionOf(Announced(h).value)) else e.selected.None?)
  }

  ghost predicate TellsApprovals(e: Evidence, h: seq<Event>) {
    e.waiting == AskedIn(h) - AnsweredIn(h) && e.decided == AnsweredIn(h) && AnsweredIn(h) <= AskedIn(h)
  }

  ghost predicate TellsTools(e: Evidence, h: seq<Event>) {
    && e.seen == StartedIn(h) && FinishedIn(h) <= StartedIn(h)
    && e.active.Keys == StartedIn(h) - FinishedIn(h) && e.settled.Keys == FinishedIn(h)
    && (forall id <- e.active.Keys :: Begins(h, id, e.active[id]) && e.active[id].outcome.None?)
    && (forall id <- e.settled.Keys :: Finishes(h, id, e.settled[id]))
  }

  /** The start and the finish under an id are the observed ones. */
  predicate Finishes(h: seq<Event>, id: Text, o: Observation) {
    && Begins(h, id, o) && FinishOf(h, id).Some? && FinishOf(h, id).value.ToolFinished?
    && o.outcome == Some(FinishOf(h, id).value.outcome)
  }

  /** The start under an id is the observed one. */
  predicate Begins(h: seq<Event>, id: Text, o: Observation) {
    && StartOf(h, id).Some? && StartOf(h, id).value.ToolStarted?
    && StartOf(h, id).value.batchId == o.batchId && StartOf(h, id).value.index == o.index
    && StartOf(h, id).value.parallel == o.parallel
  }

  lemma Snoc(h: seq<Event>, event: Event)
    ensures (h + [event])[..|h|] == h && (h + [event])[|h|] == event
    ensures AskedIn(h + [event]) == AskedIn(h) + if event.ApprovalRequested? then {event.callId} else {}
    ensures AnsweredIn(h + [event]) == AnsweredIn(h) + if event.ApprovalDecided? then {event.callId} else {}
    ensures StartedIn(h + [event]) == StartedIn(h) + if event.ToolStarted? then {event.callId} else {}
    ensures FinishedIn(h + [event]) == FinishedIn(h) + if event.ToolFinished? then {event.callId} else {}
    ensures CommittedIn(h + [event]) == CommittedIn(h) + if event.CheckpointCommitted? then {event.checkpointId} else {}
  {
  }

  /** What the evidence says of open effects. */
  lemma OpenEffects(e: Evidence, h: seq<Event>)
    requires Tells(e, h)
    ensures e.waiting == {} <==> NothingOpen(h)
    ensures e.active == map[] <==> NoToolRuns(h)
    ensures forall id :: id in e.active <==> id in StartedIn(h) && id !in FinishedIn(h)
    ensures forall id :: id in e.waiting <==> id in AskedIn(h) && id !in AnsweredIn(h)
    ensures e.waiting + e.decided == AskedIn(h)
  {
    if e.active == map[] { assert e.active.Keys == {}; }
    if NoToolRuns(h) { assert e.active.Keys == {}; }
    if e.waiting == {} {
      forall id <- AskedIn(h) ensures id in AnsweredIn(h) { assert id !in e.waiting; }
    }
    forall id ensures id in e.active <==> id in StartedIn(h) && id !in FinishedIn(h) {
      assert id in e.active <==> id in e.active.Keys;
    }
  }

  lemma NamesSelected(e: Evidence, h: seq<Event>, batchId: Text, index: int, callId: Text)
    requires Tells(e, h)
    ensures Names(h, batchId, index, callId) <==>
      e.selected.Some? && InSelection(e.selected.value, batchId, index, callId)
  {
  }

  /** The verifier takes an event other than a commit exactly when it may follow. */
  lemma TakesExactly(e: Evidence, h: seq<Event>, event: Event)
    requires Tells(e, h) && !e.closed && !event.CheckpointCommitted?
    ensures Visit(e, event).Ok? <==> MayFollow(e.current, h, event)
  {
    OpenEffects(e, h);
    match event
    case ApprovalRequested(batchId, index, callId) => NamesSelected(e, h, batchId, index, callId);
    case ToolStarted(batchId, index, callId, _) => NamesSelected(e, h, batchId, index, callId);
    case ToolFinished(batchId, index, callId, _) =>
      if callId in e.active { assert Begins(h, callId, e.active[callId]); }
    case _ =>
    hide TellsTools, TellsApprovals, AskedIn, AnsweredIn, StartedIn, FinishedIn, StartOf, FinishOf, LastModel,
      Announced, Names, InSelection;
  }

  lemma TellsApprovalsNext(e: Evidence, h: seq<Event>, event: Event)
    requires TellsApprovals(e, h) && Visit(e, event).Ok? && !event.CheckpointCommitted?
    ensures TellsApprovals(Visit(e, event).value, h + [event])
  {
    Snoc(h, event);
    hide AskedIn, AnsweredIn;
  }

  lemma StartsNext(h: seq<Event>, event: Event, id: Text)
    ensures StartOf(h + [event], id)
         == if event.ToolStarted? && event.callId == id then Some(event) else StartOf(h, id)
    ensures FinishOf(h + [event], id)
         == if event.ToolFinished? && event.callId == id then Some(event) else FinishOf(h, id)
  {
    Snoc(h, event);
  }

  lemma ToolsKept(e: Evidence, next: Evidence, h: seq<Event>, event: Event)
    requires TellsTools(e, h) && !event.ToolStarted? && !event.ToolFinished?
    requires next.seen == e.seen && next.active == e.active && next.settled == e.settled
    ensures TellsTools(next, h + [event])
  {
    var all := h + [event];
    Snoc(h, event);
    hide StartedIn, FinishedIn, StartOf, FinishOf;
    forall id ensures StartOf(all, id) == StartOf(h, id) && FinishOf(all, id) == FinishOf(h, id) {
      StartsNext(h, event, id);
    }
  }

  lemma StartTold(e: Evidence, h: seq<Event>, batchId: Text, index: int, id: Text, parallel: bool)
    requires TellsTools(e, h) && id !in e.seen
    ensures var event, o := ToolStarted(batchId, index, id, parallel), Observation(batchId, index, parallel, None);
      TellsTools(e.(seen := e.seen + {id}, active := e.active[id := o]), h + [event])
  {
    var event, o := ToolStarted(batchId, index, id, parallel), Observation(batchId, index, parallel, None);
    var all, next := h + [event], e.(seen := e.seen + {id}, active := e.active[id := o]);
    Snoc(h, event);
    hide StartedIn, FinishedIn, StartOf, FinishOf;
    forall other ensures StartOf(all, other) == (if other == id then Some(event) else StartOf(h, other)) {
      StartsNext(h, event, other);
    }
    forall other ensures FinishOf(all, other) == FinishOf(h, other) { StartsNext(h, event, other); }
    assert next.active.Keys == e.active.Keys + {id} == StartedIn(all) - FinishedIn(all);
    assert id !in e.settled.Keys;
  }

  lemma FinishTold(e: Evidence, h: seq<Event>, batchId: Text, index: int, id: Text, outcome: OutcomeKind)
    requires TellsTools(e, h) && id in e.active
    requires batchId == e.active[id].batchId && index == e.active[id].index
    ensures var event := ToolFinished(batchId, index, id, outcome);
      var o := Observation(batchId, index, e.active[id].parallel, Some(outcome));
      TellsTools(e.(active := e.active - {id}, settled := e.settled[id := o]), h + [event])
  {
    var event := ToolFinished(batchId, index, id, outcome);
    var o := Observation(batchId, index, e.active[id].parallel, Some(outcome));
    var all, next := h + [event], e.(active := e.active - {id}, settled := e.settled[id := o]);
    hide StartedIn, FinishedIn, StartOf, FinishOf, Begins, Finishes;
    assert id in e.active.Keys && Begins(h, id, e.active[id]);
    FinishKeys(e, h, event, o);
    forall other | other in next.active.Keys
      ensures Begins(all, other, next.active[other]) && next.active[other].outcome.None?
    {
      assert other in e.active.Keys && other != id;
      BeginsNext(h, event, other, next.active[other]);
    }
    forall other | other in next.settled.Keys ensures Finishes(all, other, next.settled[other]) {
      if other != id { assert other in e.settled.Keys; }
      FinishesNext(e, h, event, other, o);
    }
  }

  lemma FinishKeys(e: Evidence, h: seq<Event>, event: Event, o: Observation)
    requires TellsTools(e, h) && event.ToolFinished? && event.callId in e.active
    ensures var all := h + [event];
      && StartedIn(all) == StartedIn(h) && FinishedIn(all) <= StartedIn(all)
      && (e.active - {event.callId}).Keys == StartedIn(all) - FinishedIn(all)
      && e.settled[event.callId := o].Keys == FinishedIn(all)
  {
    Snoc(h, event);
    hide StartedIn, FinishedIn, Begins, Finishes;
    assert event.callId in e.active.Keys;
    assert (e.active - {event.callId}).Keys == e.active.Keys - {event.callId};
    assert e.settled[event.callId := o].Keys == e.settled.Keys + {event.callId};
  }

  lemma FinishesNext(e: Evidence, h: seq<Event>, event: Event, id: Text, o: Observation)
    requires event.ToolFinished? && event.callId in e.active && o.outcome == Some(event.outcome)
    requires Begins(h, event.callId, e.active[event.callId])
    requires o.batchId == e.active[event.callId].batchId && o.index == e.active[event.callId].index
    requires o.parallel == e.active[event.callId].parallel
    requires id != event.callId ==> id in e.settled && Finishes(h, id, e.settled[id])
    ensures Finishes(h + [event], id, if id == event.callId then o else e.settled[id])
  {
    hide StartOf, FinishOf;
    StartsNext(h, event, id);
  }

  lemma BeginsNext(h: seq<Event>, event: Event, id: Text, o: Observation)
    requires !event.ToolStarted?
    ensures Begins(h + [event], id, o) <==> Begins(h, id, o)
  {
    StartsNext(h, event, id);
  }

  lemma TellsToolsNext(e: Evidence, h: seq<Event>, event: Event)
    requires TellsTools(e, h) && Visit(e, event).Ok? && !event.CheckpointCommitted?
    ensures TellsTools(Visit(e, event).value, h + [event])
  {
    hide TellsTools;
    var next := Visit(e, event).value;
    if event.ToolStarted? {
      StartTold(e, h, event.batchId, event.index, event.callId, event.parallel);
    } else if event.ToolFinished? {
      FinishTold(e, h, event.batchId, event.index, event.callId, event.outcome);
    } else {
      ToolsKept(e, next, h, event);
    }
  }

  lemma TellsModel(e: Evidence, h: seq<Event>, event: Event)
    requires Visit(e, event).Ok? && !event.CheckpointCommitted? && TellsRest(e, h)
    ensures TellsRest(Visit(e, event).value, h + [event])
  {
    Snoc(h, event);
    hide OnSelected, InSelection;
    if event.ToolBatchSelected? { SelectionKept(e, event); }
  }

  lemma SelectionKept(e: Evidence, event: Event)
    requires event.ToolBatchSelected? && Visit(e, event).Ok?
    ensures Visit(e, event).value == e.(selected := Some(SelectionOf(event)))
  {
  }

  lemma TellsNext(e: Evidence, h: seq<Event>, event: Event)
    requires Tells(e, h) && Visit(e, event).Ok? && !event.CheckpointCommitted?
    ensures Tells(Visit(e, event).value, h + [event])
  {
    hide TellsTools, TellsApprovals, TellsRest, Visit;
    TellsApprovalsNext(e, h, event);
    TellsToolsNext(e, h, event);
    TellsModel(e, h, event);
  }

  // ---------------------------------------------------------------- commits

  lemma ReportedExactly(e: Evidence, h: seq<Event>, f: Fact, id: Text)
    requires TellsTools(e, h) && f.ToolBatch? && |f.callIds| == |f.outcomes| && id in e.settled
    ensures ReportedAs(f, id, e.settled[id]) <==> Reports(h, f, id)
  {
    assert id in e.settled.Keys && Finishes(h, id, e.settled[id]);
  }

  lemma EvidenceExactly(e: Evidence, h: seq<Event>, f: Fact)
    requires TellsTools(e, h) && f.ToolBatch? && |f.callIds| == |f.outcomes|
    ensures ToolEvidence(e, f) <==>
      && (forall id <- FinishedIn(h) :: Reports(h, f, id))
      && (forall i :: 0 <= i < |f.callIds| && f.outcomes[i] != Failure ==> f.callIds[i] in FinishedIn(h))
  {
    hide Reports, ReportedAs, FinishedIn, StartedIn, Begins, Finishes;
    assert e.settled.Keys == FinishedIn(h);
    forall id | id in e.settled.Keys ensures ReportedAs(f, id, e.settled[id]) <==> Reports(h, f, id) {
      ReportedExactly(e, h, f, id);
    }
    forall id ensures id in e.settled <==> id in FinishedIn(h) { assert id in e.settled <==> id in e.settled.Keys; }
  }

  /** The boundary checks of a fact, on the evidence and on the events. */
  lemma SettlesExactly(e: Evidence, h: seq<Event>, f: Fact)
    requires Tells(e, h)
    ensures ToolFactError(f).None? && BoundaryError(e, f).None? <==> Settles(h, f)
  {
    OpenEffects(e, h);
    if f.ToolBatch? && |f.callIds| == |f.outcomes| { EvidenceExactly(e, h, f); }
    hide TellsTools, TellsApprovals, AskedIn, AnsweredIn, StartedIn, FinishedIn, Announced, LastModel, ToolEvidence,
      NoToolRuns, NothingOpen, Reports;
  }

  // ------------------------------------------------------------ whole traces

  /** The evidence after a history. */
  ghost predicate Stands(b: Beginning, e: Evidence, h: seq<Event>) {
    && (LastCommit(h).Some? ==> LastCommit(h).value.CheckpointCommitted?)
    && e.requestKind == b.kind && e.current == ViewAt(b, h) && e.ids == b.ids + CommittedIn(h)
    && e.lastId == (if LastCommit(h).Some? then Some(LastCommit(h).value.checkpointId) else b.lastId)
    && (e.firstCommit <==> LastCommit(h).None?)
    && (e.closed <==> LastCommit(h).Some? && !ActiveKind(LastCommit(h).value.after.state))
    && Tells(e, Since(h))
  }

  lemma HistoryNext(h: seq<Event>, event: Event)
    ensures Since(h + [event]) == if event.CheckpointCommitted? then [] else Since(h) + [event]
    ensures LastCommit(h + [event]) == if event.CheckpointCommitted? then Some(event) else LastCommit(h)
  {
    Snoc(h, event);
  }

  lemma NothingTold(e: Evidence)
    requires !e.modelActive && e.modelFinished.None? && e.selected.None? && e.active == map[] && e.settled == map[]
    requires e.seen == {} && e.waiting == {} && e.decided == {}
    ensures Tells(e, [])
  {
    var none: seq<Event> := [];
    assert AskedIn(none) == {} && AnsweredIn(none) == {} && StartedIn(none) == {} && FinishedIn(none) == {};
  }

  /** The verifier takes a commit exactly when it fits. */
  lemma CommitsExactly(b: Beginning, e: Evidence, h: seq<Event>, id: Text, f: Fact, after: RunView)
    requires Stands(b, e, h) && !e.closed
    ensures CheckpointError(e, id, f, after).None? <==> Fits(b, h, CheckpointCommitted(id, f, after))
  {
    SettlesExactly(e, Since(h), f);
    hide Tells, VerifyChange, Settles, Since, LastCommit, CommittedIn, BoundaryError, ToolFactError, ValidRunView;
  }

  lemma KeepsEndpoint(e: Evidence, event: Event)
    requires Visit(e, event).Ok? && !event.CheckpointCommitted?
    ensures var next := Visit(e, event).value;
      && next.requestKind == e.requestKind && next.current == e.current && next.ids == e.ids && next.lastId == e.lastId
      && next.firstCommit == e.firstCommit && next.closed == e.closed && !e.closed
  {
  }

  lemma CommitStands(b: Beginning, e: Evidence, h: seq<Event>, id: Text, f: Fact, after: RunView)
    requires Stands(b, e, h)
    ensures Stands(b, Committed(e, id, after), h + [CheckpointCommitted(id, f, after)])
  {
    HistoryNext(h, CheckpointCommitted(id, f, after));
    Snoc(h, CheckpointCommitted(id, f, after));
    NothingTold(Committed(e, id, after));
    hide Tells, Since, LastCommit, CommittedIn;
  }

  /** One entry: the verifier takes it exactly when it fits, and its evidence goes on telling of the history. */
  lemma VisitsExactly(b: Beginning, e: Evidence, h: seq<Event>, event: Event)
    requires Stands(b, e, h)
    ensures Visit(e, event).Ok? <==> Fits(b, h, event)
    ensures Visit(e, event).Ok? ==> Stands(b, Visit(e, event).value, h + [event])
  {
    if event.CheckpointCommitted? {
      if !e.closed { CommitsExactly(b, e, h, event.checkpointId, event.fact, event.after); }
      CommitStands(b, e, h, event.checkpointId, event.fact, event.after);
      hide Tells, Since, LastCommit, CommittedIn, CheckpointError, Committed, VerifyChange, Settles, Stands;
    } else {
      OrdinaryVisit(b, e, h, event);
    }
  }

  lemma OrdinaryVisit(b: Beginning, e: Evidence, h: seq<Event>, event: Event)
    requires Stands(b, e, h) && !event.CheckpointCommitted?
    ensures Visit(e, event).Ok? <==> Fits(b, h, event)
    ensures Visit(e, event).Ok? ==> Stands(b, Visit(e, event).value, h + [event])
  {
    hide Tells, Since, LastCommit, CommittedIn, MayFollow, Visit;
    if e.closed { ClosedTakesNothing(e, event); } else { TakesExactly(e, Since(h), event); }
    if Visit(e, event).Ok? {
      KeepsEndpoint(e, event);
      TellsNext(e, Since(h), event);
      HistoryNext(h, event);
      Snoc(h, event);
    }
  }

  lemma ClosedTakesNothing(e: Evidence, event: Event)
    requires e.closed
    ensures Visit(e, event).Err?
  {
  }

  lemma OrderlyNext(b: Beginning, events: seq<Event>)
    requires events != []
    ensures var front, last := events[..|events| - 1], events[|events| - 1];
      Orderly(b, events) <==> Orderly(b, front) && Fits(b, front, last)
  {
    hide Fits;
    var front := events[..|events| - 1];
    forall j | 0 <= j < |front| ensures front[..j] == events[..j] && front[j] == events[j] {}
    if Orderly(b, front) && Fits(b, front, events[|events| - 1]) {
      forall j | 0 <= j < |events| ensures Fits(b, events[..j], events[j]) {
        if j < |front| { assert Fits(b, front[..j], front[j]); }
      }
    }
    if Orderly(b, events) {
      forall j | 0 <= j < |front| ensures Fits(b, front[..j], front[j]) { assert Fits(b, events[..j], events[j]); }
    }
  }

  /**
   * The verifier takes a sequence of entries exactly when every one of them may
   * follow the ones before it.
   */
  lemma {:induction false} AcceptedExactly(b: Beginning, e: Evidence, events: seq<Event>)
    requires Stands(b, e, [])
    ensures VisitAll(e, events).Ok? <==> Orderly(b, events)
    ensures VisitAll(e, events).Ok? ==> Stands(b, VisitAll(e, events).value, events)
    decreases |events|
  {
    hide Visit, Fits, Stands, Orderly;
    if events == [] {
      assert Orderly(b, []) by { NothingToFit(b); }
    } else {
      var front, last := events[..|events| - 1], events[|events| - 1];
      assert events == front + [last];
      VisitConcat(e, front, [last]);
      AcceptedExactly(b, e, front);
      OrderlyNext(b, events);
      if VisitAll(e, front).Ok? {
        var middle := VisitAll(e, front).value;
        VisitsExactly(b, middle, front, last);
        OneVisited(middle, last);
      }
    }
  }

  lemma NothingToFit(b: Beginning)
    ensures Orderly(b, [])
  {
  }

  lemma OneVisited(e: Evidence, event: Event)
    ensures VisitAll(e, [event]).Ok? <==> Visit(e, event).Ok?
    ensures VisitAll(e, [event]).Ok? ==> VisitAll(e, [event]).value == Visit(e, event).value
  {
    assert [event][1..] == [];
  }

  /** How an entry that starts an invocation begins a trace of some kind, if it may. */
  predicate Begun(kind: RequestKind, event: Event) {
    && event.InvocationStarted? && event.requestKind == kind
    && match kind
       case StartKind => event.startingId.None? && event.starting.None?
       case ContinueKind =>
         && event.startingId.Some? && event.startingId.value != ""
         && event.starting.Some? && ValidRunView(event.starting.value)
         && (event.starting.value.state.PlanningView? || event.starting.value.state.PendingView?)
       case ResumeKind =>
         && event.startingId.Some? && event.startingId.value != ""
         && event.starting.Some? && ValidRunView(event.starting.value) && event.starting.value.state.SuspendedView?
  }

  function BeginningOf(event: Event): Beginning
    requires event.InvocationStarted?
  {
    Beginning(event.requestKind, event.starting, event.startingId,
              if event.startingId.Some? then {event.startingId.value} else {})
  }

  lemma BegunExactly(kind: RequestKind, event: Event)
    ensures OnStart(kind, event).Ok? <==> Begun(kind, event)
    ensures OnStart(kind, event).Ok? ==> Stands(BeginningOf(event), OnStart(kind, event).value, [])
  {
    if OnStart(kind, event).Ok? { NothingTold(OnStart(kind, event).value); }
    hide Tells, ValidRunView;
  }

  /** Whether the last entry may end a trace. */
  predicate Ends(b: Beginning, h: seq<Event>, event: Event) {
    var view, open := ViewAt(b, h), ModelOpen(Since(h)) || Announced(Since(h)).Some? || !NoToolRuns(Since(h))
                                    || !NothingOpen(Since(h));
    && event.InvocationStopped? && event.lastId != Some("")
    && event.lastId == (match LastCommit(h) case Some(CheckpointCommitted(id, _, _)) => Some(id) case _ => b.lastId)
    && match event.stopReason
       case TerminalStop =>
         !open && view.Some?
         && (view.value.state.CompletedView? || view.value.state.FailedView? || view.value.state.LimitedView?)
       case SuspendedStop => !open && view.Some? && view.value.state.SuspendedView?
       case _ =>
         LastCommit(h).None? || !LastCommit(h).value.CheckpointCommitted?
         || LastCommit(h).value.after.state.PlanningView? || LastCommit(h).value.after.state.PendingView?
  }

  lemma EndsExactly(b: Beginning, e: Evidence, h: seq<Event>, event: Event)
    requires Stands(b, e, h)
    ensures StopError(e, event).None? <==> Ends(b, h, event)
  {
    OpenEffects(e, Since(h));
    hide TellsTools, TellsApprovals, AskedIn, AnsweredIn, StartedIn, FinishedIn, Announced, LastModel, Since,
      LastCommit, NoToolRuns, NothingOpen, CommittedIn;
  }

  /**
   * The trace verifier, exactly: it accepts a trace if and only if the entries
   * are in order, the first begins it, each of the others may follow the ones
   * before it, and the last may end it.
   */
  lemma TraceExactly(trace: RunTrace)
    requires |trace.entries| >= 2
    ensures var events := Events(trace.entries);
      var body := events[1..|events| - 1];
      VerifyTrace(trace).Ok? <==>
        && Increasing(trace.entries) && Begun(trace.requestKind, events[0])
        && Orderly(BeginningOf(events[0]), body) && Ends(BeginningOf(events[0]), body, events[|events| - 1])
  {
    hide Orderly, Ends, Stands, Visit, OnStart, StopError;
    var events := Events(trace.entries);
    var body := events[1..|events| - 1];
    BegunExactly(trace.requestKind, events[0]);
    if OnStart(trace.requestKind, events[0]).Ok? {
      var b, e := BeginningOf(events[0]), OnStart(trace.requestKind, events[0]).value;
      AcceptedExactly(b, e, body);
      if VisitAll(e, body).Ok? { EndsExactly(b, VisitAll(e, body).value, body, events[|events| - 1]); }
    }
    StopIsLast(events[|events| - 1]);
  }

  lemma StopIsLast(event: Event)
    ensures forall e: Evidence :: StopError(e, event).None? ==> event.InvocationStopped?
    ensures forall b: Beginning, h: seq<Event> :: Ends(b, h, event) ==> event.InvocationStopped?
  {
  }

  /** An announced batch takes the leading pending ids, and its digest is that of the others. */
  lemma AnnouncedIsPrefix(view: RunView, h: seq<Event>, event: Event, ids: seq<Text>)
    requires event.ToolBatchSelected? && MayFollow(Some(view), h, event) && S.Denotes(view.state, ids)
    ensures event.callIds <= ids && event.remainingCount == |ids| - |event.callIds|
    ensures event.remainingDigest == IdsDigest(ids[|event.callIds|..])
  {
    ComposedPrefix(event.callIds, event.remainingDigest, ids);
  }

  // -------------------------------------------------------------- approvals

  predicate WithoutCommits(events: seq<Event>) { forall i :: 0 <= i < |events| ==> !events[i].CheckpointCommitted? }

  lemma {:induction false} SinceAll(events: seq<Event>)
    requires WithoutCommits(events)
    ensures Since(events) == events && LastCommit(events).None?
    decreases |events|
  {
    if events != [] {
      SinceAll(events[..|events| - 1]);
      assert events == events[..|events| - 1] + [events[|events| - 1]];
    }
  }

  /** Entry j may follow those before it, when none of them is a commit. */
  lemma FollowsAt(b: Beginning, events: seq<Event>, j: nat)
    requires Orderly(b, events) && j < |events| && WithoutCommits(events[..j])
    requires !events[j].CheckpointCommitted?
    ensures MayFollow(b.view, events[..j], events[j])
  {
    assert Fits(b, events[..j], events[j]);
    SinceAll(events[..j]);
  }

  /** No call is asked about twice between commits. */
  lemma AskedOnce(b: Beginning, events: seq<Event>, i: nat, j: nat)
    requires Orderly(b, events) && WithoutCommits(events) && i < j < |events|
    requires events[i].ApprovalRequested? && events[j].ApprovalRequested?
    ensures events[i].callId != events[j].callId
  {
    FollowsAt(b, events, j);
    assert events[..j][i] == events[i] && events[i] in events[..j];
  }

  /** A decision answers an earlier request that no decision before it has answered. */
  lemma DecisionAnswers(b: Beginning, events: seq<Event>, j: nat) returns (i: nat)
    requires Orderly(b, events) && WithoutCommits(events) && j < |events| && events[j].ApprovalDecided?
    ensures i < j && events[i].ApprovalRequested? && events[i].callId == events[j].callId
    ensures forall k :: 0 <= k < j ==> events[k] != events[j]
  {
    FollowsAt(b, events, j);
    var h := events[..j];
    var e :| e in h && e.ApprovalRequested? && e.callId == events[j].callId;
    i :| 0 <= i < |h| && h[i] == e;
    forall k | 0 <= k < j ensures events[k] != events[j] { assert h[k] == events[k] && h[k] in h; }
  }

  /** Where nothing is open each request has been decided after it was made. */
  lemma DecidedAfter(b: Beginning, events: seq<Event>, i: nat, j: nat) returns (k: nat)
    requires Orderly(b, events) && WithoutCommits(events) && i < j <= |events|
    requires events[i].ApprovalRequested? && NothingOpen(events[..j])
    ensures i < k < j && events[k] == ApprovalDecided(events[i].callId)
  {
    var h := events[..j];
    assert h[i] == events[i] && events[i] in h && events[i].callId in AskedIn(h);
    assert events[i].callId in AnsweredIn(h);
    var e :| e in h && e.ApprovalDecided? && e.callId == events[i].callId;
    k :| 0 <= k < |h| && h[k] == e;
    assert events[k] == e;
    var asked := DecisionAnswers(b, events, k);
    if asked < i { AskedOnce(b, events, asked, i); } else if i < asked { AskedOnce(b, events, i, asked); }
  }

  /** No tool starts while a request is undecided: its decision stands between the two. */
  lemma DecidedBeforeStart(b: Beginning, events: seq<Event>, i: nat, j: nat) returns (k: nat)
    requires Orderly(b, events) && WithoutCommits(events) && i < j < |events|
    requires events[i].ApprovalRequested? && events[j].ToolStarted?
    ensures i < k < j && events[k] == ApprovalDecided(events[i].callId)
  {
    FollowsAt(b, events, j);
    k := DecidedAfter(b, events, i, j);
  }

  /** No batch and no turn is committed while a request is undecided. */
  lemma DecidedBeforeCommit(b: Beginning, events: seq<Event>, i: nat, commit: Event) returns (k: nat)
    requires Orderly(b, events + [commit]) && WithoutCommits(events) && i < |events|
    requires events[i].ApprovalRequested? && commit.CheckpointCommitted?
    requires commit.fact.ModelTurn? || commit.fact.ToolBatch?
    ensures i < k < |events| && events[k] == ApprovalDecided(events[i].callId)
  {
    hide Orderly, NothingOpen, Fits, WithoutCommits;
    OrderlyNext(b, events + [commit]);
    assert (events + [commit])[..|events|] == events && (events + [commit])[|events|] == commit;
    NothingOpenAt(b, events, commit);
    assert events[..|events|] == events;
    k := DecidedAfter(b, events, i, |events|);
  }

  lemma NothingOpenAt(b: Beginning, h: seq<Event>, commit: Event)
    requires Fits(b, h, commit) && WithoutCommits(h) && commit.CheckpointCommitted?
    requires commit.fact.ModelTurn? || commit.fact.ToolBatch?
    ensures NothingOpen(h)
  {
    SinceAll(h);
    hide VerifyChange, Reports, AskedIn, AnsweredIn, StartedIn, FinishedIn, Announced, LastModel;
  }
}
