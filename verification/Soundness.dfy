/**
 * What an accepted trace proves, whoever wrote it, and what may be dropped
 * from one (diagnostics/verification.py).
 */
module Soundness {
  import opened Wrappers
  import opened Messages
  import opened Digests
  import opened State
  import opened Checkpoints
  import opened Views
  import opened Trace
  import opened Verifier

  /** The pending digest of a view, if it has one, is the digest of these ids. */
  predicate Denotes(v: ViewState, ids: seq<Text>) {
    match v
    case PendingView(count, digest, _) => count == |ids| && digest == IdsDigest(ids)
    case SuspendedView(resumeTo, _) => Denotes(resumeTo, ids)
    case _ => ids == []
  }

  /** The pending ids after a fact, given those before it. */
  function PendingAfter(f: Fact, ids: seq<Text>): seq<Text> {
    match f
    case ModelTurn(result, _, callIds, _, _, _, _) => if result == TurnToolsPending then callIds else []
    case ToolBatch(_, callIds, _, _, _) => if |callIds| <= |ids| then ids[|callIds|..] else []
    case Resumed(_, _) => ids
    case Control(SuspendedControl(_)) => ids
    case _ => []
  }

  /** The counters of a usage report. */
  datatype Counter = InputTokens | OutputTokens | TotalTokens | ReasoningTokens | CacheReadTokens | CacheWriteTokens

  function Reported(u: Usage, k: Counter): Option<int> {
    match k
    case InputTokens => u.input
    case OutputTokens => u.output
    case TotalTokens => u.total
    case ReasoningTokens => u.reasoning
    case CacheReadTokens => u.cacheRead
    case CacheWriteTokens => u.cacheWrite
  }

  /** The tokens counted so far; an unreported counter counts from zero. */
  function Tokens(u: Usage, k: Counter): int { if Reported(u, k).Some? then Reported(u, k).value else 0 }

  /** A counter is lower than before, or no longer reported. */
  predicate Fell(before: Usage, after: Usage, k: Counter) {
    Tokens(after, k) < Tokens(before, k) || (Reported(before, k).Some? && Reported(after, k).None?)
  }

  /** A model turn with a negative report of a counter. */
  predicate ReportsNegative(f: Fact, k: Counter) {
    f.ModelTurn? && f.usage.Some? && Reported(f.usage.value, k).Some? && Reported(f.usage.value, k).value < 0
  }

  /** What one accepted commit says about the views around it. */
  ghost predicate SoundStep(before: RunView, f: Fact, after: RunView, ids: seq<Text>) {
    && after.revision == before.revision + 1
    && after.metrics.planningSteps == before.metrics.planningSteps + (if f.ModelTurn? then 1 else 0)
    && after.metrics.toolCalls == before.metrics.toolCalls + (if f.ToolBatch? then |f.callIds| else 0)
    && (f.ToolBatch? ==> f.callIds <= ids)
    && (f.ModelTurn? || f.ConversationInsert? || f.HistoryRewrite? ==> ids == [])
    && Denotes(after.state, PendingAfter(f, ids))
    && (forall k: Counter :: Fell(before.metrics.usage, after.metrics.usage, k) <==> ReportsNegative(f, k))
  }

  /** The check of a commit lets a usage counter fall exactly when its fact reports a negative number. */
  lemma UsageFallsExactly(before: RunView, f: Fact, after: RunView, k: Counter)
    requires VerifyChange(Some(before), f, after).None?
    ensures Fell(before.metrics.usage, after.metrics.usage, k) <==> ReportsNegative(f, k)
  {
  }

  lemma ToolBatchSound(before: RunView, f: Fact, after: RunView, ids: seq<Text>)
    requires f.ToolBatch? && VerifyChange(Some(before), f, after).None? && Denotes(before.state, ids)
    ensures SoundStep(before, f, after, ids)
  {
    var claimed := ClaimedActive(f, after.state);
    var suffix := if before.state.pendingCount != |f.callIds| then claimed.callIdDigest else NoIds;
    ComposedPrefix(f.callIds, suffix, ids);
    forall k: Counter ensures Fell(before.metrics.usage, after.metrics.usage, k) <==> ReportsNegative(f, k) {
      UsageFallsExactly(before, f, after, k);
    }
  }

  /** One accepted commit takes exactly the leading pending ids, and counts up. */
  lemma CommitSound(before: RunView, f: Fact, after: RunView, ids: seq<Text>)
    requires VerifyChange(Some(before), f, after).None? && Denotes(before.state, ids)
    ensures SoundStep(before, f, after, ids)
  {
    if f.ToolBatch? { ToolBatchSound(before, f, after, ids); }
    forall k: Counter ensures Fell(before.metrics.usage, after.metrics.usage, k) <==> ReportsNegative(f, k) {
      UsageFallsExactly(before, f, after, k);
    }
  }

  // -------------------------------------------- the check of a commit, exactly

  /** The view after a fact, by someone who knows the pending ids themselves; none if the fact cannot follow. */
  function KnownNext(before: RunView, f: Fact, ids: seq<Text>): Option<RunView> {
    var revision, count, m := before.revision + 1, before.historyCount, before.metrics;
    match (f, before.state)
    case (Resumed(roles, _), SuspendedView(resumeTo, _)) => Some(RunView(revision, count + |roles|, m, resumeTo))
    case (ModelTurn(result, parts, callIds, flag, _, usage, limit), PlanningView(_)) =>
      var state := match result
        case TurnPlanning => PlanningView(flag)
        case TurnCompleted => CompletedView(parts)
        case TurnToolsPending => PendingView(|callIds|, IdsDigest(callIds), flag)
        case TurnLimited => LimitedView(limit);
      Some(RunView(revision, count + 1, Metrics(m.planningSteps + 1, m.toolCalls, AddUsage(m.usage, usage)), state))
    case (ToolBatch(_, callIds, _, _, suspension), PendingView(_, _, flag)) =>
      if !(callIds <= ids) then None
      else
        var rest := ids[|callIds|..];
        var next := if rest == [] then PlanningView(flag) else PendingView(|rest|, IdsDigest(rest), flag);
        Some(RunView(revision, count + |callIds|, Metrics(m.planningSteps, m.toolCalls + |callIds|, m.usage),
                     match suspension case None => next case Some(v) => SuspendedView(next, v)))
    case (ConversationInsert(_), PlanningView(_)) => Some(RunView(revision, count + 1, m, PlanningView(false)))
    case (HistoryRewrite(beforeCount, roles, _, _), PlanningView(_)) =>
      if beforeCount == count then Some(RunView(revision, |roles|, m, PlanningView(false))) else None
    case (Control(FailedControl(code)), _) => Some(RunView(revision, count, m, FailedView(code)))
    case (Control(LimitedControl(reason)), _) => Some(RunView(revision, count, m, LimitedView(Some(reason))))
    case (Control(SuspendedControl(v)), PlanningView(_)) =>
      Some(RunView(revision, count, m, SuspendedView(before.state, v)))
    case (Control(SuspendedControl(v)), PendingView(_, _, _)) =>
      Some(RunView(revision, count, m, SuspendedView(before.state, v)))
    case _ => None
  }

  /** A batch the check lets through takes the leading ids and claims the rest; such a batch it lets through. */
  lemma BatchExactly(before: RunView, f: Fact, after: RunView, ids: seq<Text>)
    requires f.ToolBatch? && before.state.PendingView? && Denotes(before.state, ids)
    ensures VerifyChange(Some(before), f, after).None? <==> KnownNext(before, f, ids) == Some(after)
  {
    var callIds, claimed := f.callIds, ClaimedActive(f, after.state);
    if VerifyChange(Some(before), f, after).None? {
      var suffix := if before.state.pendingCount != |callIds| then claimed.callIdDigest else NoIds;
      ComposedPrefix(callIds, suffix, ids);
    }
    if callIds <= ids {
      ComposeTwice(callIds, ids[|callIds|..], NoIds);
      assert callIds + ids[|callIds|..] == ids;
    }
  }

  /**
   * verify_change sees digests only, and accepts exactly what someone who knows
   * the pending ids would; without a view before, exactly a start.
   */
  lemma ChangeExactly(before: RunView, f: Fact, after: RunView, ids: seq<Text>)
    requires Denotes(before.state, ids)
    ensures VerifyChange(Some(before), f, after).None? <==> KnownNext(before, f, ids) == Some(after)
  {
    if f.ToolBatch? && before.state.PendingView? { BatchExactly(before, f, after, ids); }
    hide Denotes, AddUsage;
  }

  lemma StartExactly(f: Fact, after: RunView)
    ensures VerifyChange(None, f, after).None?
      <==> f.Started? && after == RunView(0, |f.historyRoles|, Metrics(0, 0, NO_USAGE), PlanningView(false))
  {
  }

  // ---------------------------------------------------------- whole traces

  /** The commits of a trace, in order. */
  function Commits(events: seq<Event>): seq<Event> {
    if events == [] then []
    else (if events[0].CheckpointCommitted? then [events[0]] else []) + Commits(events[1..])
  }

  /** A chain of commits, each sound after the one before it, from a view with known pending ids. */
  ghost predicate SoundChain(before: Option<RunView>, ids: seq<Text>, commits: seq<Event>)
    decreases |commits|
  {
    commits != [] ==>
      && commits[0].CheckpointCommitted?
      && var f, after := commits[0].fact, commits[0].after;
        && (match before
            case Some(view) => SoundStep(view, f, after, ids)
            case None => f.Started? && after == StartedView(f.historyRoles))
        && SoundChain(Some(after), if before.None? then [] else PendingAfter(f, ids), commits[1..])
  }

  lemma VisitKeepsView(e: Evidence, event: Event)
    requires Visit(e, event).Ok? && !event.CheckpointCommitted?
    ensures Visit(e, event).value.current == e.current && Visit(e, event).value.lastId == e.lastId
    ensures Visit(e, event).value.ids == e.ids
  {
  }

  /**
   * In any accepted trace, revisions rise by one per checkpoint, counters never
   * fall, and the ids of each tool batch are exactly the leading pending ids at
   * that point: the digests alone force it.
   */
  lemma {:induction false} AcceptedIsSound(e: Evidence, events: seq<Event>, ids: seq<Text>)
    requires VisitAll(e, events).Ok?
    requires e.current.Some? ==> Denotes(e.current.value.state, ids)
    ensures SoundChain(e.current, ids, Commits(events))
    decreases |events|
  {
    if events != [] {
      var event, next := events[0], Visit(e, events[0]).value;
      if event.CheckpointCommitted? {
        if e.current.Some? { CommitSound(e.current.value, event.fact, event.after, ids); }
        AcceptedIsSound(next, events[1..], if e.current.None? then [] else PendingAfter(event.fact, ids));
        assert ([event] + Commits(events[1..]))[1..] == Commits(events[1..]);
      } else {
        VisitKeepsView(e, event);
        AcceptedIsSound(next, events[1..], ids);
        assert [] + Commits(events[1..]) == Commits(events[1..]);
      }
    }
  }

  // -------------------------------------------------------- usage over a trace

  /** No commit lowers a usage counter of the view before it. */
  ghost predicate NeverFalls(before: Option<RunView>, commits: seq<Event>, k: Counter)
    decreases |commits|
  {
    commits != [] ==>
      && commits[0].CheckpointCommitted?
      && (before.Some? ==> !Fell(before.value.metrics.usage, commits[0].after.metrics.usage, k))
      && NeverFalls(Some(commits[0].after), commits[1..], k)
  }

  predicate NothingNegative(commits: seq<Event>, k: Counter) {
    forall i :: 0 <= i < |commits| && commits[i].CheckpointCommitted? ==> !ReportsNegative(commits[i].fact, k)
  }

  lemma ConsNegative(event: Event, rest: seq<Event>, k: Counter)
    requires event.CheckpointCommitted?
    ensures NothingNegative([event] + rest, k) <==> !ReportsNegative(event.fact, k) && NothingNegative(rest, k)
  {
    var all := [event] + rest;
    assert all[0] == event && all[1..] == rest;
    if NothingNegative(all, k) {
      forall i | 0 <= i < |rest| && rest[i].CheckpointCommitted? ensures !ReportsNegative(rest[i].fact, k) {
        assert all[i + 1] == rest[i];
      }
    }
  }

  /** One visited commit lowers a counter of the view before it exactly when it reports a negative number. */
  lemma CommitFallsExactly(e: Evidence, event: Event, k: Counter)
    requires event.CheckpointCommitted? && Visit(e, event).Ok?
    ensures Visit(e, event).value.current == Some(event.after)
    ensures e.current.Some? ==>
      (Fell(e.current.value.metrics.usage, event.after.metrics.usage, k) <==> ReportsNegative(event.fact, k))
    ensures e.current.None? ==> !ReportsNegative(event.fact, k)
  {
    if e.current.Some? { UsageFallsExactly(e.current.value, event.fact, event.after, k); }
  }

  /**
   * Along any accepted stretch of a trace, a usage counter never falls if and
   * only if no model turn in it reports a negative number of that counter.
   */
  lemma {:induction false} UsageNeverFalls(e: Evidence, events: seq<Event>, k: Counter)
    requires VisitAll(e, events).Ok?
    ensures NeverFalls(e.current, Commits(events), k) <==> NothingNegative(Commits(events), k)
    decreases |events|
  {
    if events != [] {
      hide Visit, Fell, ReportsNegative, NothingNegative;
      var event, next, rest := events[0], Visit(e, events[0]).value, Commits(events[1..]);
      UsageNeverFalls(next, events[1..], k);
      if event.CheckpointCommitted? {
        CommitFallsExactly(e, event, k);
        ConsNegative(event, rest, k);
        assert ([event] + rest)[1..] == rest;
      } else {
        VisitKeepsView(e, event);
        assert [] + rest == rest;
      }
    }
  }

  /** The same for a whole trace, from the view it starts with. */
  lemma AcceptedTraceIsSound(trace: RunTrace, ids: seq<Text>)
    requires |trace.entries| >= 2 && VerifyTrace(trace).Ok?
    requires trace.entries[0].event.InvocationStarted?
    requires var starting := trace.entries[0].event.starting;
      starting.Some? ==> Denotes(starting.value.state, ids)
    ensures SoundChain(trace.entries[0].event.starting, ids, Commits(Events(trace.entries)[1..|trace.entries| - 1]))
    ensures UsageTold(trace)
  {
    var events := Events(trace.entries);
    var start := OnStart(trace.requestKind, events[0]).value;
    AcceptedIsSound(start, events[1..|events| - 1], ids);
    AcceptedUsage(trace);
  }

  /** Over a whole trace each counter never falls exactly when no turn reports a negative number of it. */
  ghost predicate UsageTold(trace: RunTrace)
    requires |trace.entries| >= 2 && trace.entries[0].event.InvocationStarted?
  {
    var commits := Commits(Events(trace.entries)[1..|trace.entries| - 1]);
    forall k: Counter :: NeverFalls(trace.entries[0].event.starting, commits, k) <==> NothingNegative(commits, k)
  }

  lemma AcceptedUsage(trace: RunTrace)
    requires |trace.entries| >= 2 && VerifyTrace(trace).Ok?
    ensures trace.entries[0].event.InvocationStarted? && UsageTold(trace)
  {
    var events := Events(trace.entries);
    var start := OnStart(trace.requestKind, events[0]).value;
    var starting, commits := trace.entries[0].event.starting, Commits(events[1..|events| - 1]);
    forall k: Counter ensures NeverFalls(starting, commits, k) <==> NothingNegative(commits, k) {
      UsageNeverFalls(start, events[1..|events| - 1], k);
    }
  }

  // ------------------------------------------- each id is committed once

  /** Checkpoint ids of the commits of a trace. */
  function CommitIds(events: seq<Event>): seq<Text> {
    if events == [] then []
    else (if events[0].CheckpointCommitted? then [events[0].checkpointId] else []) + CommitIds(events[1..])
  }

  /** One id in front of others that avoid it and some set. */
  lemma ConsUnique(id: Text, rest: seq<Text>, used: set<Text>)
    requires Unique(rest) && ToSet(rest) !! used + {id} && id !in used
    ensures Unique([id] + rest) && ToSet([id] + rest) !! used
  {
    var ids := [id] + rest;
    forall i | 0 <= i < |rest| ensures rest[i] != id { assert rest[i] in ToSet(rest); }
    forall i, j | 0 <= i < j < |ids| ensures ids[i] != ids[j] {
      if i > 0 { assert rest[i - 1] != rest[j - 1]; }
    }
    forall x | x in ToSet(ids) ensures x !in used {
      var i :| 0 <= i < |ids| && ids[i] == x;
      if i > 0 { assert rest[i - 1] in ToSet(rest); }
    }
  }

  function LastId(ids: seq<Text>, before: Option<Text>): Option<Text> {
    if ids == [] then before else Some(ids[|ids| - 1])
  }

  lemma CommitRecords(e: Evidence, event: Event)
    requires event.CheckpointCommitted? && Visit(e, event).Ok?
    ensures event.checkpointId !in e.ids && Visit(e, event).value.ids == e.ids + {event.checkpointId}
    ensures Visit(e, event).value.lastId == Some(event.checkpointId)
  {
  }

  /** No checkpoint id occurs twice, and the last one is the reported endpoint. */
  lemma {:induction false} IdsAreUnique(e: Evidence, events: seq<Event>)
    requires VisitAll(e, events).Ok?
    ensures Unique(CommitIds(events)) && ToSet(CommitIds(events)) !! e.ids
    ensures VisitAll(e, events).value.lastId == LastId(CommitIds(events), e.lastId)
    decreases |events|
  {
    if events != [] {
      hide Visit, Unique, ToSet;
      var event, next := events[0], Visit(e, events[0]).value;
      IdsAreUnique(next, events[1..]);
      var rest := CommitIds(events[1..]);
      if event.CheckpointCommitted? {
        CommitRecords(e, event);
        ConsUnique(event.checkpointId, rest, e.ids);
      } else {
        VisitKeepsView(e, event);
        assert [] + rest == rest;
      }
    } else {
      assert CommitIds(events) == [];
    }
  }

  // ---------------------------------------------------- tools really ran

  /** The events hold the start of a tool. */
  ghost predicate Begun(events: seq<Event>, id: Text, o: Observation) {
    exists j :: 0 <= j < |events| && events[j] == ToolStarted(o.batchId, o.index, id, o.parallel)
  }

  /** The events hold the start of a tool and, later, its finish with this outcome. */
  ghost predicate Ran(events: seq<Event>, id: Text, o: Observation) {
    exists j, k :: 0 <= j < k < |events| && events[j] == ToolStarted(o.batchId, o.index, id, o.parallel)
                   && events[k].ToolFinished? && events[k].callId == id && events[k].batchId == o.batchId
                   && events[k].index == o.index && Some(events[k].outcome) == o.outcome
  }

  /** What the verifier holds of tools has been seen in the events. */
  ghost predicate Witnessed(events: seq<Event>, e: Evidence) {
    && (forall id <- e.active.Keys :: Begun(events, id, e.active[id]))
    && (forall id <- e.settled.Keys :: Ran(events, id, e.settled[id]))
  }

  lemma StillWitnessed(events: seq<Event>, event: Event, id: Text, o: Observation)
    ensures Begun(events, id, o) ==> Begun(events + [event], id, o)
    ensures Ran(events, id, o) ==> Ran(events + [event], id, o)
  {
    var all := events + [event];
    if Begun(events, id, o) {
      var j :| 0 <= j < |events| && events[j] == ToolStarted(o.batchId, o.index, id, o.parallel);
      assert all[j] == events[j];
    }
    if Ran(events, id, o) {
      var j, k :| 0 <= j < k < |events| && events[j] == ToolStarted(o.batchId, o.index, id, o.parallel)
                  && events[k].ToolFinished? && events[k].callId == id && events[k].batchId == o.batchId
                  && events[k].index == o.index && Some(events[k].outcome) == o.outcome;
      assert all[j] == events[j] && all[k] == events[k];
    }
  }

  /** A finish follows the start it closes. */
  lemma FinishRan(events: seq<Event>, id: Text, o: Observation, outcome: OutcomeKind)
    requires Begun(events, id, o)
    ensures Ran(events + [ToolFinished(o.batchId, o.index, id, outcome)], id, o.(outcome := Some(outcome)))
  {
    var all := events + [ToolFinished(o.batchId, o.index, id, outcome)];
    var j :| 0 <= j < |events| && events[j] == ToolStarted(o.batchId, o.index, id, o.parallel);
    assert all[j] == events[j] && all[|events|] == ToolFinished(o.batchId, o.index, id, outcome);
  }

  lemma StartBegun(events: seq<Event>, id: Text, o: Observation)
    ensures Begun(events + [ToolStarted(o.batchId, o.index, id, o.parallel)], id, o)
  {
    assert (events + [ToolStarted(o.batchId, o.index, id, o.parallel)])[|events|]
      == ToolStarted(o.batchId, o.index, id, o.parallel);
  }

  lemma VisitWitnessed(events: seq<Event>, e: Evidence, event: Event)
    requires Witnessed(events, e) && Visit(e, event).Ok? && !event.CheckpointCommitted?
    ensures Witnessed(events + [event], Visit(e, event).value)
  {
    var next, all := Visit(e, event).value, events + [event];
    forall id | id in next.active.Keys ensures Begun(all, id, next.active[id]) {
      if event.ToolStarted? && event.callId == id { StartBegun(events, id, next.active[id]); }
      else { StillWitnessed(events, event, id, e.active[id]); }
    }
    forall id | id in next.settled.Keys ensures Ran(all, id, next.settled[id]) {
      if event.ToolFinished? && event.callId == id { FinishRan(events, id, e.active[id], event.outcome); }
      else { StillWitnessed(events, event, id, e.settled[id]); }
    }
  }

  predicate NoCommits(events: seq<Event>) { forall i :: 0 <= i < |events| ==> !events[i].CheckpointCommitted? }

  lemma {:induction false} EffectsWitnessed(e: Evidence, events: seq<Event>)
    requires e.active == map[] && e.settled == map[] && NoCommits(events) && VisitAll(e, events).Ok?
    ensures Witnessed(events, VisitAll(e, events).value)
    decreases |events|
  {
    if events != [] {
      var front, last := events[..|events| - 1], events[|events| - 1];
      assert events == front + [last];
      VisitConcat(e, front, [last]);
      EffectsWitnessed(e, front);
      assert [last][1..] == [];
      VisitWitnessed(front, VisitAll(e, front).value, last);
    }
  }

  /** The fact reports this call with its own start and finish. */
  ghost predicate ReportsRun(events: seq<Event>, f: Fact, i: nat)
    requires f.ToolBatch? && i < |f.callIds| == |f.outcomes|
  {
    Ran(events, f.callIds[i], Observation(f.batchId, i, f.parallel, Some(f.outcomes[i])))
  }

  /**
   * In an accepted trace, every outcome of a tool batch other than a failure
   * belongs to a tool that was seen to start and then to finish with that
   * outcome, in that batch and at that place, since the last commit.
   */
  lemma BatchWasRun(e: Evidence, events: seq<Event>, id: Text, f: Fact, after: RunView)
    requires e.active == map[] && e.settled == map[] && NoCommits(events) && f.ToolBatch?
    requires VisitAll(e, events).Ok? && Visit(VisitAll(e, events).value, CheckpointCommitted(id, f, after)).Ok?
    ensures |f.callIds| == |f.outcomes|
    ensures forall i :: 0 <= i < |f.callIds| && f.outcomes[i] != Failure ==> ReportsRun(events, f, i)
  {
    EffectsWitnessed(e, events);
    var end := VisitAll(e, events).value;
    assert ToolFactError(f).None? && ToolBoundaryError(end, f).None?;
    forall i | 0 <= i < |f.callIds| && f.outcomes[i] != Failure ensures ReportsRun(events, f, i) {
      var o := end.settled[f.callIds[i]];
      assert ReportedAs(f, f.callIds[i], o) && Ran(events, f.callIds[i], o);
      assert o.index == i;
    }
  }

  // ------------------------------------------------------ dropping events

  /** `kept` is `all` with some lossy events left out. */
  ghost predicate Thinned(all: seq<Event>, kept: seq<Event>)
    decreases |all|
  {
    if all == [] then kept == []
    else
      || (kept != [] && kept[0] == all[0] && Thinned(all[1..], kept[1..]))
      || (Lossy(all[0]) && Thinned(all[1..], kept))
  }

  lemma LossyLeavesEvidence(e: Evidence, event: Event)
    requires Lossy(event) && Visit(e, event).Ok?
    ensures Visit(e, event).value == e
  {
  }

  /** Dropping MODEL_DELTA and TOOL_PROGRESS events keeps a trace accepted, with the same end. */
  lemma {:induction false} ThinnedIsAccepted(e: Evidence, all: seq<Event>, kept: seq<Event>)
    requires VisitAll(e, all).Ok? && Thinned(all, kept)
    ensures VisitAll(e, kept) == VisitAll(e, all)
    decreases |all|
  {
    if all != [] {
      var next := Visit(e, all[0]).value;
      if kept != [] && kept[0] == all[0] && Thinned(all[1..], kept[1..]) {
        ThinnedIsAccepted(next, all[1..], kept[1..]);
      } else {
        LossyLeavesEvidence(e, all[0]);
        ThinnedIsAccepted(e, all[1..], kept);
      }
    }
  }

  // ------------------------------------------------- a trace in which usage falls

  /** A model turn that completes a run and reports some total. */
  function CompletingTurn(total: int): Fact {
    ModelTurn(TurnCompleted, 0, [], false, None, Some(NO_USAGE.(total := Some(total))), None)
  }

  /** A continued invocation of one model turn, from a run that has used five tokens. */
  function OneTurn(total: int): RunTrace {
    var used := NO_USAGE.(total := Some(5));
    var before := RunView(0, 1, Metrics(0, 0, used), PlanningView(false));
    var after := RunView(1, 2, Metrics(1, 0, used.(total := Some(5 + total))), CompletedView(0));
    RunTrace(ContinueKind, [
      TraceEntry(1, InvocationStarted(ContinueKind, Some("a"), Some(before))),
      TraceEntry(2, ModelStarted(1)),
      TraceEntry(3, ModelFinished(None, 0, 0, Some(NO_USAGE.(total := Some(total))))),
      TraceEntry(4, CheckpointCommitted("b", CompletingTurn(total), after)),
      TraceEntry(5, InvocationStopped(TerminalStop, Some("b")))])
  }

  lemma ThreeVisits(e: Evidence, a: Event, b: Event, c: Event)
    requires Visit(e, a).Ok? && Visit(Visit(e, a).value, b).Ok?
    ensures VisitAll(e, [a, b, c]) == Visit(Visit(Visit(e, a).value, b).value, c)
  {
    hide Visit;
    assert [a, b, c][1..] == [b, c] && [b, c][1..] == [c] && [c][1..] == [];
    var last := Visit(Visit(e, a).value, b).value;
    assert VisitAll(last, [c]) == Visit(last, c);
    assert VisitAll(Visit(e, a).value, [b, c]) == VisitAll(last, [c]);
  }

  lemma LastCommits(a: Event, b: Event, c: Event)
    requires !a.CheckpointCommitted? && !b.CheckpointCommitted? && c.CheckpointCommitted?
    ensures Commits([a, b, c]) == [c]
  {
    assert [a, b, c][1..] == [b, c] && [b, c][1..] == [c] && [c][1..] == [];
    assert Commits([c]) == [c] + Commits([]);
    assert Commits([b, c]) == [] + Commits([c]);
  }

  lemma OneTurnAccepted(total: int)
    ensures VerifyTrace(OneTurn(total)).Ok?
    ensures Commits(Events(OneTurn(total).entries)[1..4]) == [OneTurn(total).entries[3].event]
  {
    hide VisitAll, Commits;
    var events := Events(OneTurn(total).entries);
    assert events[1..4] == [events[1], events[2], events[3]];
    var e0 := OnStart(ContinueKind, events[0]).value;
    ThreeVisits(e0, events[1], events[2], events[3]);
    LastCommits(events[1], events[2], events[3]);
  }

  /**
   * Nothing bounds a reported usage from below, so a token count can fall in an
   * accepted trace: in this one five tokens become four.
   */
  lemma TokensMayFall()
    ensures VerifyTrace(OneTurn(-1)).Ok?
    ensures OneTurn(-1).entries[0].event.starting.value.metrics.usage.total == Some(5)
    ensures OneTurn(-1).entries[3].event.after.metrics.usage.total == Some(4)
    ensures !NeverFalls(OneTurn(-1).entries[0].event.starting, Commits(Events(OneTurn(-1).entries)[1..4]), TotalTokens)
  {
    OneTurnAccepted(-1);
  }
}
