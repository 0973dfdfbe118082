/**
 * The changes the engine builds and the reducer that turns one into the next
 * checkpoint (_engine/change.py, planning.py, tooling.py, engine.py), with the
 * proof that both checkers accept every one of them.
 */
module Changes {
  import opened Wrappers
  import opened Messages
  import opened State
  import opened Linkage
  import opened Checkpoints

  datatype Change = Change(
    fact: Fact, state: RunState, append: seq<Message>, replace: Option<seq<Message>>,
    planningSteps: nat, toolCalls: nat, usage: Option<Usage>)

  datatype Insert = Insert(message: Message, source: Text)

  datatype ReduceError = BadHistory(error: LinkError) | BadBoundary

  // --------------------------------------------------------- simple changes

  function FailedChange(code: Text, message: Text): Change {
    Change(Control(FailedControl(code)), Failed(ErrorInfo(code, message)), [], None, 0, 0, None)
  }

  function LimitedChange(reason: LimitReason): Change {
    Change(Control(LimitedControl(reason)), Limited(reason), [], None, 0, 0, None)
  }

  function SuspendChange(a: ActiveState, s: Suspension): Change {
    Change(Control(SuspendedControl(ViewOfSuspension(s))), Suspended(a, s), [], None, 0, 0, None)
  }

  function InsertChange(insert: Insert, a: ActiveState): Change {
    Change(ConversationInsert(insert.source), Active(a), [insert.message], None, 0, 0, None)
  }

  function ResumeChange(resumeTo: ActiveState, append: seq<Message>, metadata: Metadata): Change {
    Change(Resumed(Roles(append), Keys(metadata)), Active(resumeTo), append, None, 0, 0, None)
  }

  function RewriteChange(before: nat, messages: seq<Message>, reason: Text, metadata: Metadata): Change {
    Change(HistoryRewrite(before, Roles(messages), reason, Keys(metadata)), Active(Planning(false)), [],
           Some(messages), 0, 0, None)
  }

  // ------------------------------------------------------------- model turns

  datatype Response = Response(
    output: seq<OutputItem>, finishReason: Option<Text>, usage: Option<Usage>, providerTurnPending: bool,
    metadata: Metadata)

  predicate ValidResponse(r: Response) { ValidMessage(AssistantMessage(r)) }

  function AssistantMessage(r: Response): Message { Message(Assistant, [], r.output, None, None, r.metadata) }

  predicate OverTokens(limits: Limits, metrics: Metrics, usage: Option<Usage>) {
    var total := AddUsage(metrics.usage, usage).total;
    limits.maxTotalTokens.Some? && total.Some? && total.value > limits.maxTotalTokens.value
  }

  /** The state a complete response leads to. */
  function TurnState(limits: Limits, metrics: Metrics, r: Response): RunState {
    var calls := RuntimeCalls(r.output);
    if OverTokens(limits, metrics, r.usage) then Limited(MaxTotalTokens)
    else if calls != [] then Active(ToolsPending(calls, r.providerTurnPending))
    else if r.providerTurnPending then Active(Planning(true))
    else Completed(VisibleParts(r.output))
  }

  function TurnResultOf(s: RunState): TurnResult {
    match s
    case Active(Planning(_)) => TurnPlanning
    case Active(ToolsPending(_, _)) => TurnToolsPending
    case Limited(_) => TurnLimited
    case _ => TurnCompleted
  }

  function TurnFact(r: Response, state: RunState): Fact {
    ModelTurn(TurnResultOf(state), |VisibleParts(r.output)|, Ids(RuntimeCalls(r.output)),
              state.Active? && state.active.providerTurnPending, r.finishReason, r.usage,
              if state.Limited? then Some(state.reason) else None)
  }

  /** PlanningStep._change */
  function TurnChange(limits: Limits, metrics: Metrics, r: Response): Change {
    var state := TurnState(limits, metrics, r);
    Change(TurnFact(r, state), state, [AssistantMessage(r)], None, 1, 0, r.usage)
  }

  /** _continue_for_deferred_inserts: a completed turn stays in Planning while inserts wait. */
  function ContinueForInserts(c: Change): Change {
    if c.state.Completed? && c.fact.ModelTurn?
    then c.(fact := c.fact.(result := TurnPlanning), state := Active(Planning(false)))
    else c
  }

  // ------------------------------------------------------------ tool batches

  datatype Batch = Batch(id: Text, calls: seq<ToolCall>, parallel: bool)

  datatype ToolResult = Settled(outcome: ToolOutcome) | WaitingOn(outcome: ToolOutcome, suspension: Suspension)

  predicate ValidResult(r: ToolResult) {
    (r.WaitingOn? <==> r.outcome.Kind() == Waiting) && (r.WaitingOn? ==> ValidSuspension(r.suspension))
  }

  /** The first waiting result in model order. */
  function FirstWaiting(results: seq<ToolResult>): Option<Suspension> {
    if results == [] then None
    else if results[0].WaitingOn? then Some(results[0].suspension)
    else FirstWaiting(results[1..])
  }

  /** A waiting outcome wins over an observed pause. */
  function BatchSuspension(results: seq<ToolResult>, pause: Option<Suspension>): Option<Suspension> {
    if FirstWaiting(results).Some? then FirstWaiting(results) else pause
  }

  function AfterBatch(a: ActiveState, count: nat): ActiveState
    requires a.ToolsPending? && count <= |a.pending|
  {
    if count == |a.pending| then Planning(a.providerTurnPending)
    else ToolsPending(a.pending[count..], a.providerTurnPending)
  }

  function Outcomes(results: seq<ToolResult>): (kinds: seq<OutcomeKind>)
    ensures |kinds| == |results|
  {
    seq(|results|, i requires 0 <= i < |results| => results[i].outcome.Kind())
  }

  function ToolMessages(calls: seq<ToolCall>, results: seq<ToolResult>): (messages: seq<Message>)
    requires |calls| == |results|
    ensures |messages| == |calls|
  {
    seq(|calls|, i requires 0 <= i < |calls| => ToolMessage(calls[i], results[i].outcome))
  }

  /** _outcome */
  function BatchChange(a: ActiveState, batch: Batch, results: seq<ToolResult>, pause: Option<Suspension>): Change
    requires a.ToolsPending? && |batch.calls| <= |a.pending| && |results| == |batch.calls|
  {
    var next := AfterBatch(a, |batch.calls|);
    var suspension := BatchSuspension(results, pause);
    Change(
      ToolBatch(batch.id, Ids(batch.calls), batch.parallel, Outcomes(results),
                if suspension.None? then None else Some(ViewOfSuspension(suspension.value))),
      if suspension.None? then Active(next) else Suspended(next, suspension.value),
      ToolMessages(batch.calls, results), None, 0, |batch.calls|, None)
  }

  // ------------------------------------------------------------- the reducer

  /** reduce: evolve the snapshot, then construct the checkpoint, which re-checks the boundary. */
  function Reduce(s: Snapshot, c: Change, id: Text): Result<Checkpoint, ReduceError>
    requires s.history != [] && (c.replace.Some? ==> c.replace.value != [])
  {
    var history := Edited(s.history, c.append, c.replace);
    match Analyze(history, c.state)
    case Err(e) => Err(BadHistory(e))
    case Ok(_) =>
      var next := Snapshot(s.revision + 1, s.context, history,
                           AdvanceMetrics(s.metrics, c.planningSteps, c.toolCalls, c.usage), c.state);
      if BoundaryOk(next, c.fact) then Ok(Checkpoint(id, next, c.fact)) else Err(BadBoundary)
  }
}
