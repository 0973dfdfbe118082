/** Run lifecycle, limits and committed metrics (kernel/state.py, limits.py, models.py). */
module State {
  import opened Wrappers
  import opened Messages

  datatype LimitReason = MaxPlanningSteps | MaxToolCalls | MaxTotalTokens | DeadlineReached

  datatype Suspension = Suspension(reason: Text, source: Text, waitId: Option<Text>, metadata: Metadata)

  /** The two states a run can work in; the pending calls are in model order. */
  datatype ActiveState =
    | Planning(providerTurnPending: bool)
    | ToolsPending(pending: seq<ToolCall>, providerTurnPending: bool)

  datatype RunState =
    | Active(active: ActiveState)
    | Suspended(resumeTo: ActiveState, suspension: Suspension)
    | Completed(parts: seq<ContentPart>)
    | Failed(error: ErrorInfo)
    | Limited(reason: LimitReason)

  /** What the constructors of ToolsPending and PendingToolCalls require. */
  predicate ValidActive(a: ActiveState) {
    a.ToolsPending? ==> a.pending != [] && Unique(Ids(a.pending))
  }

  predicate ValidState(s: RunState) {
    match s
    case Active(a) => ValidActive(a)
    case Suspended(a, _) => ValidActive(a)
    case _ => true
  }

  /** _pending_state: the calls a state still owes, if it owes any. */
  function OwedCalls(s: RunState): Option<seq<ToolCall>> {
    match s
    case Active(ToolsPending(calls, _)) => Some(calls)
    case Suspended(ToolsPending(calls, _), _) => Some(calls)
    case _ => None
  }

  predicate Interruptible(s: RunState) { s == Active(Planning(false)) }

  datatype Usage = Usage(
    input: Option<int>, output: Option<int>, total: Option<int>, reasoning: Option<int>,
    cacheRead: Option<int>, cacheWrite: Option<int>)

  const NO_USAGE := Usage(None, None, None, None, None, None)

  function AddTokens(current: Option<int>, added: Option<int>): Option<int> {
    if added.None? then current
    else Some((if current.Some? then current.value else 0) + added.value)
  }

  /** ModelUsage.add: unreported counters stay as they are. */
  function AddUsage(current: Usage, added: Option<Usage>): Usage {
    if added.None? then current
    else
      var a := added.value;
      Usage(AddTokens(current.input, a.input), AddTokens(current.output, a.output),
            AddTokens(current.total, a.total), AddTokens(current.reasoning, a.reasoning),
            AddTokens(current.cacheRead, a.cacheRead), AddTokens(current.cacheWrite, a.cacheWrite))
  }

  datatype Metrics = Metrics(planningSteps: int, toolCalls: int, usage: Usage)

  const NO_METRICS := Metrics(0, 0, NO_USAGE)

  /** RunMetrics.advance */
  function AdvanceMetrics(m: Metrics, planningSteps: nat, toolCalls: nat, usage: Option<Usage>): Metrics {
    Metrics(m.planningSteps + planningSteps, m.toolCalls + toolCalls, AddUsage(m.usage, usage))
  }

  datatype Limits = Limits(
    maxPlanningSteps: int, maxToolCalls: int, maxTotalTokens: Option<int>, maxToolConcurrency: int,
    maxToolBatchSize: int, maxBufferedProgress: int)

  predicate ValidLimits(l: Limits) {
    && l.maxPlanningSteps >= 1 && l.maxToolCalls >= 0 && l.maxToolConcurrency >= 1
    && l.maxToolBatchSize >= 1 && l.maxBufferedProgress >= 1
    && (l.maxTotalTokens.Some? ==> l.maxTotalTokens.value >= 1)
  }
}
