/**
 * The compact projection of a snapshot, and the second, independent check of
 * a committed fact against it (_engine/verification.py).
 */
module Views {
  import opened Wrappers
  import opened Messages
  import opened Digests
  import opened State
  import opened Checkpoints

  datatype ViewState =
    | PlanningView(providerTurnPending: bool)
    | PendingView(pendingCount: int, callIdDigest: Digest, providerTurnPending: bool)
    | SuspendedView(resumeTo: ViewState, suspension: SuspensionView)
    | CompletedView(partCount: int)
    | FailedView(code: Text)
    | LimitedView(reason: Option<LimitReason>)

  datatype RunView = RunView(revision: int, historyCount: int, metrics: Metrics, state: ViewState)

  // -------------------------------------------------------------- projections

  function ActiveView(a: ActiveState): ViewState {
    match a
    case Planning(p) => PlanningView(p)
    case ToolsPending(calls, p) => PendingView(|calls|, IdsDigest(Ids(calls)), p)
  }

  /** state_view */
  function StateView(s: RunState): ViewState {
    match s
    case Active(a) => ActiveView(a)
    case Suspended(a, suspension) => SuspendedView(ActiveView(a), ViewOfSuspension(suspension))
    case Completed(parts) => CompletedView(|parts|)
    case Failed(error) => FailedView(error.code)
    case Limited(reason) => LimitedView(Some(reason))
  }

  /** run_view */
  function ViewOf(s: Snapshot): RunView { RunView(s.revision, |s.history|, s.metrics, StateView(s.state)) }

  // ------------------------------------------------- advancing a view by a fact

  function StartedView(roles: seq<Role>): RunView { RunView(0, |roles|, NO_METRICS, PlanningView(false)) }

  /** _resumed */
  function ResumedView(base: RunView, appended: nat): Result<RunView, Text> {
    if !base.state.SuspendedView? then Err("resume_requires_suspended")
    else Ok(base.(historyCount := base.historyCount + appended, state := base.state.resumeTo))
  }

  /** _model_turn */
  function ModelTurnView(base: RunView, f: Fact): Result<RunView, Text>
    requires f.ModelTurn?
  {
    if !base.state.PlanningView? then Err("model_turn_requires_planning")
    else
      var m := base.metrics;
      Ok(RunView(
        base.revision, base.historyCount + 1,
        Metrics(m.planningSteps + 1, m.toolCalls, AddUsage(m.usage, f.usage)),
        match f.result
        case TurnPlanning => PlanningView(f.providerTurnPending)
        case TurnCompleted => CompletedView(f.partCount)
        case TurnToolsPending => PendingView(|f.callIds|, IdsDigest(f.callIds), f.providerTurnPending)
        case TurnLimited => LimitedView(f.limitReason)))
  }

  /** The active state the claimed after-view names, behind a suspension if the fact has one. */
  function ClaimedActive(f: Fact, after: ViewState): ViewState
    requires f.ToolBatch?
  {
    if f.suspension.Some? && after.SuspendedView? then after.resumeTo else after
  }

  /** _tool_batch: the remaining count and digest are taken from the claim, then checked. */
  function ToolBatchView(base: RunView, f: Fact, after: ViewState): Result<RunView, Text>
    requires f.ToolBatch?
  {
    if !base.state.PendingView? then Err("tool_batch_requires_pending")
    else if |f.callIds| > base.state.pendingCount then Err("tool_batch_not_prefix")
    else
      var m, claimed := base.metrics, ClaimedActive(f, after);
      var remaining := base.state.pendingCount - |f.callIds|;
      if remaining != 0 && !(claimed.PendingView? && claimed.pendingCount == remaining)
        then Err("tool_batch_pending_count_mismatch")
      else if remaining == 0 && !claimed.PlanningView? then Err("tool_batch_pending_count_mismatch")
      else
        var suffix := if remaining != 0 then claimed.callIdDigest else NoIds;
        var active := if remaining != 0 then PendingView(remaining, suffix, base.state.providerTurnPending)
                      else PlanningView(base.state.providerTurnPending);
        if ComposeIds(f.callIds, suffix) != base.state.callIdDigest then Err("tool_batch_not_prefix")
        else Ok(RunView(
          base.revision, base.historyCount + |f.callIds|,
          m.(toolCalls := m.toolCalls + |f.callIds|),
          if f.suspension.None? then active else SuspendedView(active, f.suspension.value)))
  }

  /** _conversation_insert */
  function InsertView(base: RunView): Result<RunView, Text> {
    if !base.state.PlanningView? then Err("insert_requires_planning")
    else Ok(base.(historyCount := base.historyCount + 1, state := PlanningView(false)))
  }

  /** _history_rewrite */
  function RewriteView(base: RunView, beforeCount: int, afterRoles: seq<Role>): Result<RunView, Text> {
    if !base.state.PlanningView? then Err("rewrite_requires_planning")
    else if beforeCount != base.historyCount then Err("rewrite_before_mismatch")
    else Ok(base.(historyCount := |afterRoles|, state := PlanningView(false)))
  }

  /** _control */
  function ControlView(base: RunView, d: Decision): Result<RunView, Text> {
    match d
    case FailedControl(code) => Ok(base.(state := FailedView(code)))
    case LimitedControl(reason) => Ok(base.(state := LimitedView(Some(reason))))
    case SuspendedControl(v) =>
      if !base.state.PlanningView? && !base.state.PendingView? then Err("suspend_requires_active")
      else Ok(base.(state := SuspendedView(base.state, v)))
  }

  /** _advance_view */
  function AdvanceView(before: Option<RunView>, f: Fact, after: RunView): Result<RunView, Text> {
    if f.Started? then
      if before.Some? then Err("started_requires_empty_before") else Ok(StartedView(f.historyRoles))
    else if before.None? then Err("missing_before_view")
    else
      var base := before.value.(revision := before.value.revision + 1);
      match f
      case Resumed(roles, _) => ResumedView(base, |roles|)
      case ModelTurn(_, _, _, _, _, _, _) => ModelTurnView(base, f)
      case ToolBatch(_, _, _, _, _) => ToolBatchView(base, f, after.state)
      case ConversationInsert(_) => InsertView(base)
      case HistoryRewrite(count, roles, _, _) => RewriteView(base, count, roles)
      case Control(d) => ControlView(base, d)
  }

  /** verify_change: the code it raises with, or nothing. */
  function VerifyChange(before: Option<RunView>, f: Fact, after: RunView): Option<Text> {
    match AdvanceView(before, f, after)
    case Err(code) => Some(code)
    case Ok(expected) =>
      if expected.revision != after.revision then Some("revision_gap")
      else if expected != after then Some("change_mismatch")
      else None
  }
}
