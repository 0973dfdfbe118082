/**
 * The single-pass trace verifier (diagnostics/verification.py): what each
 * event does to its evidence, and the class that does it in place.
 */
module Verifier {
  import opened Wrappers
  import opened Messages
  import opened Digests
  import opened State
  import opened Checkpoints
  import opened Views
  import opened Trace

  datatype Observation = Observation(batchId: Text, index: int, parallel: bool, outcome: Option<OutcomeKind>)

  datatype Selection = Selection(
    batchId: Text, callIds: seq<Text>, parallel: bool, remainingCount: int, remainingDigest: Digest)

  /** The evidence kept while walking a trace. */
  datatype Evidence = Evidence(
    requestKind: RequestKind, current: Option<RunView>, lastId: Option<Text>, ids: set<Text>, checkpoints: nat,
    firstCommit: bool, closed: bool, modelActive: bool, modelFinished: Option<Event>, selected: Option<Selection>,
    active: map<Text, Observation>, settled: map<Text, Observation>, seen: set<Text>,
    waiting: set<Text>, decided: set<Text>)

  // --------------------------------------------------------------- view checks

  predicate ActiveKind(s: ViewState) { s.PlanningView? || s.PendingView? }

  predicate TerminalKind(s: ViewState) { s.CompletedView? || s.FailedView? || s.LimitedView? }

  /** _validate_view */
  predicate ValidRunView(v: RunView) {
    && v.revision >= 0 && v.historyCount >= 1 && v.metrics.planningSteps >= 0 && v.metrics.toolCalls >= 0
    && (v.state.PendingView? ==> v.state.pendingCount >= 1)
  }

  predicate AtPlanning(e: Evidence) { e.current.Some? && e.current.value.state.PlanningView? }

  predicate AtPending(e: Evidence) { e.current.Some? && e.current.value.state.PendingView? }

  /** _has_active_effect */
  predicate ActiveEffect(e: Evidence) {
    e.modelActive || e.selected.Some? || e.active != map[] || e.waiting != {}
  }

  // ------------------------------------------------- what each event does

  /** _start */
  function OnStart(header: RequestKind, event: Event): Result<Evidence, Text> {
    if !event.InvocationStarted? then Err("lifecycle")
    else if event.requestKind != header then Err("request_mismatch")
    else if event.startingId == Some("") then Err("invalid_entry")
    else if header == StartKind && (event.startingId.Some? || event.starting.Some?) then Err("request_mismatch")
    else if header != StartKind && (event.startingId.None? || event.starting.None?) then Err("request_mismatch")
    else if event.starting.Some? && !ValidRunView(event.starting.value) then Err("invalid_entry")
    else
      var fits := match header
        case StartKind => true
        case ContinueKind => ActiveKind(event.starting.value.state)
        case ResumeKind => event.starting.value.state.SuspendedView?;
      if !fits then Err("request_mismatch")
      else Ok(Evidence(
        header, event.starting, event.startingId, if event.startingId.Some? then {event.startingId.value} else {},
        0, true, false, false, None, None, map[], map[], {}, {}, {}))
  }

  /** _model_started */
  function OnModelStarted(e: Evidence, step: int): Result<Evidence, Text> {
    if !AtPlanning(e) || e.modelActive || e.active != map[] then Err("model_lifecycle")
    else if step < 1 then Err("invalid_entry")
    else if step != e.current.value.metrics.planningSteps + 1 then Err("model_lifecycle")
    else Ok(e.(modelActive := true, modelFinished := None))
  }

  /** _model_completed */
  function OnModelFinished(e: Evidence, event: Event): Result<Evidence, Text> {
    if !e.modelActive then Err("model_lifecycle")
    else Ok(e.(modelActive := false, modelFinished := Some(event)))
  }

  /** _tool_batch_selected: the batch must be the pending prefix, by count and by digest. */
  function OnSelected(e: Evidence, s: Selection): Result<Evidence, Text> {
    if !AtPending(e) || e.modelActive || e.selected.Some? || e.active != map[] || e.waiting != {}
      then Err("tool_lifecycle")
    else if s.batchId == "" then Err("invalid_entry")
    else if s.callIds == [] || !Unique(s.callIds) then Err("tool_lifecycle")
    else if s.remainingCount < 0 then Err("invalid_entry")
    else
      var state := e.current.value.state;
      if |s.callIds| + s.remainingCount != state.pendingCount
         || ComposeIds(s.callIds, s.remainingDigest) != state.callIdDigest
        then Err("tool_lifecycle")
      else Ok(e.(selected := Some(s)))
  }

  /** _validate_selected_envelope */
  predicate InSelection(s: Selection, batchId: Text, index: int, callId: Text) {
    batchId == s.batchId && 0 <= index < |s.callIds| && s.callIds[index] == callId
  }

  /** _approval_requested */
  function OnApprovalRequested(e: Evidence, batchId: Text, index: int, callId: Text): Result<Evidence, Text> {
    if !AtPending(e) then Err("tool_lifecycle")
    else if e.modelActive || e.active != map[] || e.selected.None? then Err("approval_lifecycle")
    else if callId == "" || batchId == "" || index < 0 then Err("invalid_entry")
    else if !InSelection(e.selected.value, batchId, index, callId) || callId in e.waiting + e.decided
      then Err("approval_lifecycle")
    else Ok(e.(waiting := e.waiting + {callId}))
  }

  /** _approval_decided */
  function OnApprovalDecided(e: Evidence, callId: Text): Result<Evidence, Text> {
    if callId == "" then Err("invalid_entry")
    else if callId !in e.waiting then Err("approval_lifecycle")
    else Ok(e.(waiting := e.waiting - {callId}, decided := e.decided + {callId}))
  }

  /** _tool_started */
  function OnToolStarted(e: Evidence, batchId: Text, index: int, callId: Text, parallel: bool): Result<Evidence, Text> {
    if !AtPending(e) || e.modelActive || e.waiting != {} || e.selected.None? then Err("tool_lifecycle")
    else if callId == "" || batchId == "" || index < 0 then Err("invalid_entry")
    else if !InSelection(e.selected.value, batchId, index, callId) || parallel != e.selected.value.parallel
            || callId in e.seen
      then Err("tool_lifecycle")
    else Ok(e.(seen := e.seen + {callId}, active := e.active[callId := Observation(batchId, index, parallel, None)]))
  }

  /** _tool_progress and _tool_cancel_requested */
  function OnActiveTool(e: Evidence, callId: Text): Result<Evidence, Text> {
    if callId == "" then Err("invalid_entry")
    else if callId !in e.active then Err("tool_lifecycle")
    else Ok(e)
  }

  /** _tool_finished */
  function OnToolFinished(e: Evidence, batchId: Text, index: int, callId: Text, outcome: OutcomeKind)
    : Result<Evidence, Text>
  {
    if callId == "" then Err("invalid_entry")
    else if callId !in e.active then Err("tool_lifecycle")
    else if batchId == "" || index < 0 then Err("invalid_entry")
    else
      var started := e.active[callId];
      if batchId != started.batchId || index != started.index then Err("tool_lifecycle")
      else Ok(e.(active := e.active - {callId},
                 settled := e.settled[callId := Observation(batchId, index, started.parallel, Some(outcome))]))
  }

  predicate DeadlineFact(f: Fact) { f == Control(LimitedControl(DeadlineReached)) }

  /** _tool_fact_fields */
  function ToolFactError(f: Fact): Option<Text> {
    if !f.ToolBatch? then None
    else if f.batchId == "" then Some("invalid_entry")
    else if f.callIds == [] || |f.callIds| != |f.outcomes| || !Unique(f.callIds) then Some("tool_fact_mismatch")
    else None
  }

  /** _verify_model_boundary */
  function ModelBoundaryError(e: Evidence, f: Fact): Option<Text>
    requires f.ModelTurn?
  {
    if e.modelActive || e.modelFinished.None? || e.active != map[] then Some("model_lifecycle")
    else if e.waiting != {} then Some("approval_lifecycle")
    else
      var finished := e.modelFinished.value;
      if !finished.ModelFinished? || finished.runtimeCalls < 0 || finished.providerCalls < 0 then Some("invalid_entry")
      else if finished.runtimeCalls != |f.callIds| || finished.finishReason != f.finishReason
        || finished.usage != f.usage
        then Some("model_fact_mismatch")
      else None
  }

  /** A settled tool is reported by the fact at its index, with its outcome and its envelope. */
  predicate ReportedAs(f: Fact, callId: Text, o: Observation)
    requires f.ToolBatch? && |f.callIds| == |f.outcomes|
  {
    && 0 <= o.index < |f.callIds| && f.callIds[o.index] == callId
    && o.outcome == Some(f.outcomes[o.index]) && o.batchId == f.batchId && o.parallel == f.parallel
  }

  /** Every settled tool is in the fact, and every call with another outcome than failure was settled. */
  predicate ToolEvidence(e: Evidence, f: Fact)
    requires f.ToolBatch? && |f.callIds| == |f.outcomes|
  {
    && (forall id <- e.settled.Keys :: ReportedAs(f, id, e.settled[id]))
    && (forall i :: 0 <= i < |f.callIds| && f.outcomes[i] != Failure ==> f.callIds[i] in e.settled)
  }

  /** _verify_tool_boundary */
  function ToolBoundaryError(e: Evidence, f: Fact): Option<Text>
    requires f.ToolBatch? && |f.callIds| == |f.outcomes|
  {
    if e.modelActive || e.active != map[] then Some("tool_lifecycle")
    else if e.waiting != {} then Some("approval_lifecycle")
    else if e.selected.None? || e.selected.value.batchId != f.batchId || e.selected.value.callIds != f.callIds
            || e.selected.value.parallel != f.parallel
      then Some("tool_fact_mismatch")
    else if !ToolEvidence(e, f) then Some("tool_fact_mismatch")
    else None
  }

  /** _verify_boundary_events */
  function BoundaryError(e: Evidence, f: Fact): Option<Text>
    requires ToolFactError(f).None?
  {
    match f
    case ModelTurn(_, _, _, _, _, _, _) => ModelBoundaryError(e, f)
    case ToolBatch(_, _, _, _, _) => ToolBoundaryError(e, f)
    case Control(_) => None
    case ConversationInsert(_) => None
    case _ => if ActiveEffect(e) then Some("effect_unsettled") else None
  }

  /** The evidence after a commit: a new durable endpoint and an empty boundary. */
  function Committed(e: Evidence, id: Text, after: RunView): Evidence {
    e.(current := Some(after), lastId := Some(id), ids := e.ids + {id}, checkpoints := e.checkpoints + 1,
       firstCommit := false, closed := !ActiveKind(after.state), modelActive := false, modelFinished := None,
       selected := None, active := map[], settled := map[], seen := {}, waiting := {}, decided := {})
  }

  /** _checkpoint: why a commit is refused. */
  function CheckpointError(e: Evidence, id: Text, f: Fact, after: RunView): Option<Text> {
    if id == "" then Some("invalid_entry")
    else if id in e.ids then Some("duplicate_checkpoint_id")
    else if !ValidRunView(after) then Some("invalid_entry")
    else if ToolFactError(f).Some? then ToolFactError(f)
    else if e.firstCommit && e.requestKind == ResumeKind && !f.Resumed? && !DeadlineFact(f)
      then Some("request_mismatch")
    else if VerifyChange(e.current, f, after).Some? then VerifyChange(e.current, f, after)
    else BoundaryError(e, f)
  }

  function OnCheckpoint(e: Evidence, id: Text, f: Fact, after: RunView): Result<Evidence, Text> {
    var error := CheckpointError(e, id, f, after);
    if error.Some? then Err(error.value) else Ok(Committed(e, id, after))
  }

  /** _visit: any entry between the first and the last. */
  function Visit(e: Evidence, event: Event): Result<Evidence, Text> {
    if e.closed then Err("lifecycle")
    else match event
      case ModelStarted(step) => OnModelStarted(e, step)
      case ModelDelta => if e.modelActive then Ok(e) else Err("model_lifecycle")
      case ModelFinished(_, _, _, _) => OnModelFinished(e, event)
      case ToolBatchSelected(id, ids, parallel, count, digest) =>
        OnSelected(e, Selection(id, ids, parallel, count, digest))
      case ApprovalRequested(id, index, callId) => OnApprovalRequested(e, id, index, callId)
      case ApprovalDecided(callId) => OnApprovalDecided(e, callId)
      case ToolStarted(id, index, callId, parallel) => OnToolStarted(e, id, index, callId, parallel)
      case ToolProgress(callId) => OnActiveTool(e, callId)
      case ToolCancelRequested(callId) => OnActiveTool(e, callId)
      case ToolFinished(id, index, callId, outcome) => OnToolFinished(e, id, index, callId, outcome)
      case CheckpointCommitted(id, f, after) => OnCheckpoint(e, id, f, after)
      case _ => Err("lifecycle")
  }

  /** _stop */
  function StopError(e: Evidence, event: Event): Option<Text> {
    if !event.InvocationStopped? then Some("lifecycle")
    else if event.lastId == Some("") then Some("invalid_entry")
    else if event.lastId != e.lastId then Some("stop_mismatch")
    else
      var terminal := e.current.Some? && TerminalKind(e.current.value.state);
      var suspended := e.current.Some? && e.current.value.state.SuspendedView?;
      if event.stopReason == TerminalStop && !terminal then Some("stop_mismatch")
      else if event.stopReason == SuspendedStop && !suspended then Some("stop_mismatch")
      else if (event.stopReason == TerminalStop || event.stopReason == SuspendedStop) && ActiveEffect(e)
        then Some("effect_unsettled")
      else if e.closed && event.stopReason != (if suspended then SuspendedStop else TerminalStop)
        then Some("stop_mismatch")
      else None
  }

  // ---------------------------------------------------------- whole traces

  /** Visiting entries one after the other. */
  function VisitAll(e: Evidence, events: seq<Event>): Result<Evidence, Text>
    decreases |events|
  {
    if events == [] then Ok(e)
    else match Visit(e, events[0])
      case Err(code) => Err(code)
      case Ok(next) => VisitAll(next, events[1..])
  }

  /** _verify_order, past the kinds of the first and last entry. */
  predicate Increasing(entries: seq<TraceEntry>) {
    && (forall i :: 0 <= i < |entries| ==> entries[i].sequence > 0)
    && (forall i :: 0 < i < |entries| ==> entries[i - 1].sequence < entries[i].sequence)
  }

  function Events(entries: seq<TraceEntry>): (events: seq<Event>)
    ensures |events| == |entries|
  {
    seq(|entries|, i requires 0 <= i < |entries| => entries[i].event)
  }

  /** Evidence at the end of a sequence of at least two events, or the first error. */
  function VerifyEvents(header: RequestKind, events: seq<Event>): Result<Evidence, Text>
    requires |events| >= 2
  {
    if !events[0].InvocationStarted? || !events[|events| - 1].InvocationStopped? then Err("lifecycle")
    else match OnStart(header, events[0])
      case Err(code) => Err(code)
      case Ok(start) => match VisitAll(start, events[1..|events| - 1])
        case Err(code) => Err(code)
        case Ok(e) =>
          var stop := StopError(e, events[|events| - 1]);
          if stop.Some? then Err(stop.value) else Ok(e)
  }

  /** verify_trace */
  function VerifyTrace(trace: RunTrace): Result<Evidence, Text>
    requires |trace.entries| >= 2
  {
    var events := Events(trace.entries);
    if !events[0].InvocationStarted? || !events[|events| - 1].InvocationStopped? then Err("lifecycle")
    else if !Increasing(trace.entries) then Err("sequence_order")
    else VerifyEvents(trace.requestKind, events)
  }

  lemma {:induction false} VisitConcat(e: Evidence, a: seq<Event>, b: seq<Event>)
    ensures VisitAll(e, a + b) == match VisitAll(e, a) case Err(code) => Err(code) case Ok(next) => VisitAll(next, b)
    decreases |a|
  {
    if a == [] {
      assert a + b == b;
    } else {
      assert (a + b)[1..] == a[1..] + b;
      match Visit(e, a[0])
      case Err(_) =>
      case Ok(next) => VisitConcat(next, a[1..], b);
    }
  }

  // ------------------------------------------------------------- the class

  /** The evidence before the first entry. */
  function Fresh(kind: RequestKind): Evidence {
    Evidence(kind, None, None, {}, 0, true, false, false, None, None, map[], map[], {}, {}, {})
  }

  /** A handler raised what the definition says, or left the evidence it says. */
  ghost predicate Follows(before: Evidence, after: Evidence, outcome: Result<Evidence, Text>, error: Option<Text>) {
    match outcome
    case Err(code) => error == Some(code) && after == before
    case Ok(next) => error.None? && after == next
  }

  /** _Verifier: the evidence as fields, changed by one handler for each event kind. */
  class TraceVerifier {
    const requestKind: RequestKind
    var current: Option<RunView>
    var lastId: Option<Text>
    var ids: set<Text>
    var checkpoints: nat
    var firstCommit: bool
    var closed: bool
    var modelActive: bool
    var modelFinished: Option<Event>
    var selected: Option<Selection>
    var active: map<Text, Observation>
    var settled: map<Text, Observation>
    var seen: set<Text>
    var waiting: set<Text>
    var decided: set<Text>

    constructor (kind: RequestKind)
      ensures requestKind == kind && Held() == Fresh(kind)
    {
      requestKind := kind;
      current, lastId, ids, checkpoints := None, None, {}, 0;
      firstCommit, closed, modelActive, modelFinished, selected := true, false, false, None, None;
      active, settled, seen, waiting, decided := map[], map[], {}, {}, {};
    }

    ghost function Held(): Evidence
      reads this
    {
      Evidence(requestKind, current, lastId, ids, checkpoints, firstCommit, closed, modelActive, modelFinished,
               selected, active, settled, seen, waiting, decided)
    }

    method Start(event: Event) returns (error: Option<Text>)
      requires event.InvocationStarted? && Held() == Fresh(requestKind)
      modifies this
      ensures Follows(old(Held()), Held(), OnStart(requestKind, event), error)
    {
      if event.requestKind != requestKind { return Some("request_mismatch"); }
      if event.startingId == Some("") { return Some("invalid_entry"); }
      if requestKind == StartKind {
        if event.startingId.Some? || event.starting.Some? { return Some("request_mismatch"); }
      } else {
        if event.startingId.None? || event.starting.None? { return Some("request_mismatch"); }
        if !ValidRunView(event.starting.value) { return Some("invalid_entry"); }
        var state := event.starting.value.state;
        if requestKind == ContinueKind && !ActiveKind(state) { return Some("request_mismatch"); }
        if requestKind == ResumeKind && !state.SuspendedView? { return Some("request_mismatch"); }
      }
      current, lastId := event.starting, event.startingId;
      if event.startingId.Some? { ids := ids + {event.startingId.value}; }
      error := None;
    }

    method ModelStarted(step: int) returns (error: Option<Text>)
      modifies this
      ensures Follows(old(Held()), Held(), OnModelStarted(old(Held()), step), error)
    {
      if !(current.Some? && current.value.state.PlanningView?) { return Some("model_lifecycle"); }
      if modelActive || active != map[] { return Some("model_lifecycle"); }
      if step < 1 { return Some("invalid_entry"); }
      if step != current.value.metrics.planningSteps + 1 { return Some("model_lifecycle"); }
      modelActive := true;
      modelFinished := None;
      error := None;
    }

    method ModelCompleted(event: Event) returns (error: Option<Text>)
      modifies this
      ensures Follows(old(Held()), Held(), OnModelFinished(old(Held()), event), error)
    {
      if !modelActive { return Some("model_lifecycle"); }
      modelActive := false;
      modelFinished := Some(event);
      error := None;
    }

    method BatchSelected(s: Selection) returns (error: Option<Text>)
      modifies this
      ensures Follows(old(Held()), Held(), OnSelected(old(Held()), s), error)
    {
      if !(current.Some? && current.value.state.PendingView?) { return Some("tool_lifecycle"); }
      if modelActive || selected.Some? || active != map[] || waiting != {} { return Some("tool_lifecycle"); }
      if s.batchId == "" { return Some("invalid_entry"); }
      if s.callIds == [] || !Unique(s.callIds) { return Some("tool_lifecycle"); }
      if s.remainingCount < 0 { return Some("invalid_entry"); }
      var state := current.value.state;
      if |s.callIds| + s.remainingCount != state.pendingCount
         || ComposeIds(s.callIds, s.remainingDigest) != state.callIdDigest {
        return Some("tool_lifecycle");
      }
      selected := Some(s);
      error := None;
    }

    method RequestApproval(batchId: Text, index: int, callId: Text) returns (error: Option<Text>)
      modifies this
      ensures Follows(old(Held()), Held(), OnApprovalRequested(old(Held()), batchId, index, callId), error)
    {
      if !(current.Some? && current.value.state.PendingView?) { return Some("tool_lifecycle"); }
      if modelActive || active != map[] || selected.None? { return Some("approval_lifecycle"); }
      if callId == "" || batchId == "" || index < 0 { return Some("invalid_entry"); }
      if !InSelection(selected.value, batchId, index, callId) { return Some("approval_lifecycle"); }
      if callId in waiting + decided { return Some("approval_lifecycle"); }
      waiting := waiting + {callId};
      error := None;
    }

    method DecideApproval(callId: Text) returns (error: Option<Text>)
      modifies this
      ensures Follows(old(Held()), Held(), OnApprovalDecided(old(Held()), callId), error)
    {
      if callId == "" { return Some("invalid_entry"); }
      if callId !in waiting { return Some("approval_lifecycle"); }
      waiting := waiting - {callId};
      decided := decided + {callId};
      error := None;
    }

    method StartTool(batchId: Text, index: int, callId: Text, parallel: bool) returns (error: Option<Text>)
      modifies this
      ensures Follows(old(Held()), Held(), OnToolStarted(old(Held()), batchId, index, callId, parallel), error)
    {
      if !(current.Some? && current.value.state.PendingView?) { return Some("tool_lifecycle"); }
      if modelActive || waiting != {} || selected.None? { return Some("tool_lifecycle"); }
      if callId == "" || batchId == "" || index < 0 { return Some("invalid_entry"); }
      if !InSelection(selected.value, batchId, index, callId) || parallel != selected.value.parallel {
        return Some("tool_lifecycle");
      }
      if callId in seen { return Some("tool_lifecycle"); }
      seen := seen + {callId};
      active := active[callId := Observation(batchId, index, parallel, None)];
      error := None;
    }

    method FinishTool(batchId: Text, index: int, callId: Text, outcome: OutcomeKind) returns (error: Option<Text>)
      modifies this
      ensures Follows(old(Held()), Held(), OnToolFinished(old(Held()), batchId, index, callId, outcome), error)
    {
      if callId == "" { return Some("invalid_entry"); }
      if callId !in active { return Some("tool_lifecycle"); }
      if batchId == "" || index < 0 { return Some("invalid_entry"); }
      var started := active[callId];
      if batchId != started.batchId || index != started.index { return Some("tool_lifecycle"); }
      active := active - {callId};
      settled := settled[callId := Observation(batchId, index, started.parallel, Some(outcome))];
      error := None;
    }

    method VerifyBoundary(f: Fact) returns (error: Option<Text>)
      requires ToolFactError(f).None?
      ensures error == BoundaryError(Held(), f)
    {
      if f.ModelTurn? {
        if modelActive || modelFinished.None? || active != map[] { return Some("model_lifecycle"); }
        if waiting != {} { return Some("approval_lifecycle"); }
        var finished := modelFinished.value;
        if !finished.ModelFinished? || finished.runtimeCalls < 0 || finished.providerCalls < 0 {
          return Some("invalid_entry");
        }
        if finished.runtimeCalls != |f.callIds| || finished.finishReason != f.finishReason
          || finished.usage != f.usage {
          return Some("model_fact_mismatch");
        }
      } else if f.ToolBatch? {
        error := VerifyToolBoundary(f);
        return;
      } else if !f.Control? && !f.ConversationInsert? {
        if modelActive || selected.Some? || active != map[] || waiting != {} { return Some("effect_unsettled"); }
      }
      error := None;
    }

    method VerifyToolBoundary(f: Fact) returns (error: Option<Text>)
      requires f.ToolBatch? && |f.callIds| == |f.outcomes|
      ensures error == ToolBoundaryError(Held(), f)
    {
      if modelActive || active != map[] { return Some("tool_lifecycle"); }
      if waiting != {} { return Some("approval_lifecycle"); }
      if selected.None? || selected.value.batchId != f.batchId || selected.value.callIds != f.callIds
         || selected.value.parallel != f.parallel {
        return Some("tool_fact_mismatch");
      }
      if exists i :: 0 <= i < |f.callIds| && f.outcomes[i] != Failure && f.callIds[i] !in settled {
        return Some("tool_fact_mismatch");
      }
      var left := settled.Keys;
      while left != {}
        invariant left <= settled.Keys
        invariant forall id <- settled.Keys - left :: ReportedAs(f, id, settled[id])
        decreases left
      {
        var id :| id in left;
        if !ReportedAs(f, id, settled[id]) { return Some("tool_fact_mismatch"); }
        left := left - {id};
      }
      error := None;
    }

    method ValidateCheckpoint(id: Text, f: Fact, after: RunView) returns (error: Option<Text>)
      ensures error == CheckpointError(Held(), id, f, after)
    {
      if id == "" { return Some("invalid_entry"); }
      if id in ids { return Some("duplicate_checkpoint_id"); }
      if !ValidRunView(after) { return Some("invalid_entry"); }
      var fields := ToolFactError(f);
      if fields.Some? { return fields; }
      if firstCommit && requestKind == ResumeKind && !f.Resumed? && !DeadlineFact(f) {
        return Some("request_mismatch");
      }
      var change := VerifyChange(current, f, after);
      if change.Some? { return change; }
      error := VerifyBoundary(f);
    }

    method Checkpoint(id: Text, f: Fact, after: RunView) returns (error: Option<Text>)
      modifies this
      ensures Follows(old(Held()), Held(), OnCheckpoint(old(Held()), id, f, after), error)
    {
      error := ValidateCheckpoint(id, f, after);
      if error.Some? { return; }
      ids := ids + {id};
      lastId := Some(id);
      checkpoints := checkpoints + 1;
      firstCommit := false;
      current := Some(after);
      closed := !ActiveKind(after.state);
      ResetBoundary();
    }

    /** _reset_boundary_events */
    method ResetBoundary()
      modifies this
      ensures Held() == old(Held()).(modelActive := false, modelFinished := None, selected := None, active := map[],
                                     settled := map[], seen := {}, waiting := {}, decided := {})
    {
      modelActive, modelFinished, selected := false, None, None;
      active, settled, seen, waiting, decided := map[], map[], {}, {}, {};
    }

    method VisitEvent(event: Event) returns (error: Option<Text>)
      modifies this
      ensures Follows(old(Held()), Held(), Visit(old(Held()), event), error)
    {
      if closed { return Some("lifecycle"); }
      match event
      case ModelStarted(step) => error := ModelStarted(step);
      case ModelDelta => error := if modelActive then None else Some("model_lifecycle");
      case ModelFinished(_, _, _, _) => error := ModelCompleted(event);
      case ToolBatchSelected(id, calls, parallel, count, digest) =>
        error := BatchSelected(Selection(id, calls, parallel, count, digest));
      case ApprovalRequested(id, index, callId) => error := RequestApproval(id, index, callId);
      case ApprovalDecided(callId) => error := DecideApproval(callId);
      case ToolStarted(id, index, callId, parallel) => error := StartTool(id, index, callId, parallel);
      case ToolProgress(callId) => error := ActiveTool(callId);
      case ToolCancelRequested(callId) => error := ActiveTool(callId);
      case ToolFinished(id, index, callId, outcome) => error := FinishTool(id, index, callId, outcome);
      case CheckpointCommitted(id, f, after) => error := Checkpoint(id, f, after);
      case _ => error := Some("lifecycle");
    }

    method ActiveTool(callId: Text) returns (error: Option<Text>)
      ensures match OnActiveTool(Held(), callId) case Err(code) => error == Some(code) case Ok(_) => error.None?
    {
      if callId == "" { return Some("invalid_entry"); }
      error := if callId in active then None else Some("tool_lifecycle");
    }

    method Stop(event: Event) returns (error: Option<Text>)
      requires event.InvocationStopped?
      ensures error == StopError(Held(), event)
    {
      if event.lastId == Some("") { return Some("invalid_entry"); }
      if event.lastId != lastId { return Some("stop_mismatch"); }
      var terminal := current.Some? && TerminalKind(current.value.state);
      var suspended := current.Some? && current.value.state.SuspendedView?;
      if event.stopReason == TerminalStop && !terminal { return Some("stop_mismatch"); }
      if event.stopReason == SuspendedStop && !suspended { return Some("stop_mismatch"); }
      var live := modelActive || selected.Some? || active != map[] || waiting != {};
      if (event.stopReason == TerminalStop || event.stopReason == SuspendedStop) && live {
        return Some("effect_unsettled");
      }
      if closed && event.stopReason != (if suspended then SuspendedStop else TerminalStop) {
        return Some("stop_mismatch");
      }
      error := None;
    }
  }

  /** _verify_order: sequence numbers are positive and rise. */
  method VerifyOrder(entries: seq<TraceEntry>) returns (ordered: bool)
    ensures ordered <==> Increasing(entries)
  {
    var previous := 0;
    for i := 0 to |entries|
      invariant i > 0 ==> previous == entries[i - 1].sequence > 0
      invariant i == 0 ==> previous == 0
      invariant Increasing(entries[..i])
    {
      var sequence := entries[i].sequence;
      assert entries[..i + 1] == entries[..i] + [entries[i]];
      if sequence <= previous {
        NotIncreasing(entries, i);
        return false;
      }
      previous := sequence;
    }
    assert entries[..|entries|] == entries;
    ordered := true;
  }

  /** verify_trace: one pass over the entries. */
  method VerifyInPlace(trace: RunTrace) returns (error: Option<Text>, v: TraceVerifier)
    requires |trace.entries| >= 2
    ensures match VerifyTrace(trace)
      case Err(code) => error == Some(code)
      case Ok(e) => error.None? && v.Held() == e
  {
    v := new TraceVerifier(trace.requestKind);
    ghost var events := Events(trace.entries);
    var last := |trace.entries| - 1;
    if !trace.entries[0].event.InvocationStarted? || !trace.entries[last].event.InvocationStopped? {
      return Some("lifecycle"), v;
    }
    var ordered := VerifyOrder(trace.entries);
    if !ordered { return Some("sequence_order"), v; }
    hide Increasing;
    error := v.Start(trace.entries[0].event);
    if error.Some? { return; }
    error := VisitEntries(v, trace.entries);
    if error.Some? { return; }
    error := v.Stop(trace.entries[last].event);
  }

  lemma NotIncreasing(entries: seq<TraceEntry>, i: nat)
    requires i < |entries|
    requires entries[i].sequence <= (if i == 0 then 0 else entries[i - 1].sequence)
    ensures !Increasing(entries)
  {
  }

  /** The entries between the first and the last. */
  method VisitEntries(v: TraceVerifier, entries: seq<TraceEntry>) returns (error: Option<Text>)
    requires |entries| >= 2
    modifies v
    ensures match VisitAll(old(v.Held()), Events(entries)[1..|entries| - 1])
      case Err(code) => error == Some(code)
      case Ok(e) => error.None? && v.Held() == e
  {
    ghost var middle := Events(entries)[1..|entries| - 1];
    ghost var target := VisitAll(v.Held(), middle);
    assert middle[0..] == middle;
    error := None;
    for i := 1 to |entries| - 1
      invariant error.None? && VisitAll(v.Held(), middle[i - 1..]) == target
    {
      assert middle[i - 1..][0] == entries[i].event && middle[i - 1..][1..] == middle[i..];
      error := v.VisitEvent(entries[i].event);
      if error.Some? { return; }
    }
  }
}
