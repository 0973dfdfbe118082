/**
 * Semantic facts, snapshots, and the boundary checks a checkpoint repeats on
 * construction (kernel/checkpoint.py, snapshot.py).
 */
module Checkpoints {
  import opened Wrappers
  import opened Messages
  import opened State
  import opened Linkage

  datatype SuspensionView = SuspensionView(reason: Text, source: Text, waitId: Option<Text>, metadataKeys: seq<Text>)

  datatype TurnResult = TurnPlanning | TurnCompleted | TurnToolsPending | TurnLimited

  datatype Decision =
    | SuspendedControl(view: SuspensionView)
    | FailedControl(code: Text)
    | LimitedControl(reason: LimitReason)

  datatype Fact =
    | Started(historyRoles: seq<Role>)
    | Resumed(appendedRoles: seq<Role>, metadataKeys: seq<Text>)
    | ModelTurn(result: TurnResult, partCount: int, callIds: seq<Text>, providerTurnPending: bool,
                finishReason: Option<Text>, usage: Option<Usage>, limitReason: Option<LimitReason>)
    | ToolBatch(batchId: Text, callIds: seq<Text>, parallel: bool, outcomes: seq<OutcomeKind>,
                suspension: Option<SuspensionView>)
    | ConversationInsert(source: Text)
    | HistoryRewrite(beforeCount: int, afterRoles: seq<Role>, reason: Text, metadataKeys: seq<Text>)
    | Control(decision: Decision)

  // -------------------------------------------------- constructor invariants

  predicate ValidKeys(keys: seq<Text>) { Unique(keys) && forall i :: 0 <= i < |keys| ==> keys[i] != "" }

  predicate ValidIds(ids: seq<Text>) { Unique(ids) && forall i :: 0 <= i < |ids| ==> ids[i] != "" }

  predicate ValidView(v: SuspensionView) {
    v.reason != "" && v.source != "" && v.waitId != Some("") && ValidKeys(v.metadataKeys)
  }

  predicate ValidTurn(result: TurnResult, callIds: seq<Text>, pending: bool, limit: Option<LimitReason>) {
    match result
    case TurnPlanning => callIds == [] && limit.None?
    case TurnCompleted => callIds == [] && limit.None? && !pending
    case TurnToolsPending => callIds != [] && limit.None?
    case TurnLimited => limit == Some(MaxTotalTokens) && !pending
  }

  predicate ValidFact(f: Fact) {
    match f
    case Started(roles) => roles != []
    case Resumed(_, keys) => ValidKeys(keys)
    case ModelTurn(result, count, ids, pending, _, _, limit) =>
      count >= 0 && ValidIds(ids) && ValidTurn(result, ids, pending, limit)
    case ToolBatch(id, ids, _, outcomes, suspension) =>
      && id != "" && ids != [] && ValidIds(ids) && |ids| == |outcomes|
      && (suspension.Some? ==> ValidView(suspension.value))
      && (Waiting in outcomes ==> suspension.Some?)
    case ConversationInsert(source) => source != ""
    case HistoryRewrite(before, roles, reason, keys) =>
      before >= 1 && roles != [] && |roles| <= before && reason != "" && ValidKeys(keys)
    case Control(SuspendedControl(v)) => ValidView(v)
    case Control(FailedControl(code)) => code != ""
    case Control(LimitedControl(_)) => true
  }

  // ---------------------------------------------------------------- values

  /** Run identity; deadline and host metadata are carried along opaquely. */
  datatype Context = Context(runId: Text, metadata: Metadata)

  datatype Snapshot = Snapshot(revision: int, context: Context, history: seq<Message>, metrics: Metrics,
                               state: RunState)

  datatype Checkpoint = Checkpoint(id: Text, snapshot: Snapshot, fact: Fact)

  predicate ValidSuspension(s: Suspension) { s.reason != "" && s.source != "" && s.waitId != Some("") }

  /** What RunSnapshot's constructor requires. */
  predicate ValidSnapshot(s: Snapshot) {
    && s.revision >= 0 && s.history != [] && ValidState(s.state)
    && s.metrics.planningSteps >= 0 && s.metrics.toolCalls >= 0
    && (forall i :: 0 <= i < |s.history| ==> ValidMessage(s.history[i]))
    && (s.state.Suspended? ==> ValidSuspension(s.state.suspension))
    && (s.state.Failed? ==> s.state.error.code != "")
    && Analyze(s.history, s.state).Ok?
  }

  function ViewOfSuspension(s: Suspension): SuspensionView {
    SuspensionView(s.reason, s.source, s.waitId, Keys(s.metadata))
  }

  /** _matches_suspension; metadata keys are a set on both sides. */
  predicate MatchesSuspension(v: SuspensionView, s: Suspension) {
    v.reason == s.reason && v.source == s.source && v.waitId == s.waitId
    && ToSet(v.metadataKeys) == ToSet(Keys(s.metadata))
  }

  // ---------------------------------------------------------- boundary checks

  /** The outcome kind a message carries, if it is a tool message. */
  function KindOf(m: Message): Option<OutcomeKind> {
    match m.outcome case None => None case Some(o) => Some(o.Kind())
  }

  predicate ToolBoundary(s: Snapshot, callIds: seq<Text>, outcomes: seq<OutcomeKind>,
                         suspension: Option<SuspensionView>) {
    var count := |callIds|;
    && (suspension.None? ==> s.state.Active?)
    && (suspension.Some? ==> s.state.Suspended?)
    && (s.state.Suspended? ==> suspension.Some? && MatchesSuspension(suspension.value, s.state.suspension))
    && count <= |s.history| && |outcomes| == count
    && var tail := s.history[|s.history| - count..];
      forall i :: 0 <= i < count ==>
        && tail[i].role == Tool && tail[i].toolCallId == Some(callIds[i]) && KindOf(tail[i]) == Some(outcomes[i])
  }

  predicate ModelBoundary(s: Snapshot, f: Fact)
    requires f.ModelTurn? && s.history != []
  {
    var assistant := s.history[|s.history| - 1];
    var calls := RuntimeCalls(assistant.output);
    && assistant.role == Assistant
    && |VisibleParts(assistant.output)| == f.partCount
    && Ids(calls) == f.callIds
    && match f.result
       case TurnCompleted => s.state == Completed(VisibleParts(assistant.output))
       case TurnPlanning => s.state == Active(Planning(f.providerTurnPending))
       case TurnToolsPending => s.state == Active(ToolsPending(calls, f.providerTurnPending))
       case TurnLimited => s.state.Limited? && Some(s.state.reason) == f.limitReason
  }

  predicate ControlBoundary(s: RunState, d: Decision) {
    match d
    case SuspendedControl(v) => s.Suspended? && MatchesSuspension(v, s.suspension)
    case FailedControl(code) => s.Failed? && s.error.code == code
    case LimitedControl(reason) => s.Limited? && s.reason == reason
  }

  /** _validate_boundary */
  predicate BoundaryOk(s: Snapshot, f: Fact)
    requires s.history != []
  {
    if f.Started? then
      s.revision == 0 && s.state.Active? && s.state.active.Planning? && f.historyRoles == Roles(s.history)
    else if s.revision == 0 then false
    else match f
      case Resumed(_, _) => s.state.Active?
      case ModelTurn(_, _, _, _, _, _, _) => ModelBoundary(s, f)
      case ToolBatch(_, ids, _, outcomes, suspension) => ToolBoundary(s, ids, outcomes, suspension)
      case ConversationInsert(_) => Interruptible(s.state) && s.history[|s.history| - 1].role == External
      case HistoryRewrite(_, roles, _, _) => Interruptible(s.state) && roles == Roles(s.history)
      case Control(d) => ControlBoundary(s.state, d)
  }

  /** What Checkpoint's constructor and its parts require. */
  predicate ValidCheckpoint(c: Checkpoint) {
    c.id != "" && ValidSnapshot(c.snapshot) && ValidFact(c.fact) && BoundaryOk(c.snapshot, c.fact)
  }
}
