/**
 * What each thing the outside world can do in a pass leads to, stated on the
 * durable checkpoint and the events alone (_engine/engine.py, planning.py,
 * tooling.py, change.py).
 */
module Endings {
  import opened Wrappers
  import opened Messages
  import opened State
  import opened Linkage
  import opened Checkpoints
  import opened Views
  import opened Changes
  import opened Commits
  import opened Trace
  import opened ToolExecution
  import opened Rounds
  import opened Progress

  // ------------------------------------------------------- what is durable

  /** What the loop keeps beside its checkpoint, and what was emitted before the commit. */
  datatype Kept = Kept(deferred: seq<Insert>, skipReducer: bool, events: seq<Event>)

  /** One checkpoint was made durable, of exactly this fact, state, history and metrics. */
  predicate Makes(l: Loop, id: Text, out: Outcome, k: Kept, fact: Fact, state: RunState, history: seq<Message>,
                  metrics: Metrics)
  {
    match out
    case Crashed => false
    case Moved(next, events) =>
      && next.checkpoint
         == Checkpoint(id, Snapshot(l.checkpoint.snapshot.revision + 1, l.checkpoint.snapshot.context, history,
                                    metrics, state), fact)
      && next.deferred == k.deferred && next.skipReducer == k.skipReducer && next.used == l.used + {id}
      && events == k.events + [CheckpointCommitted(id, fact, ViewOf(next.checkpoint.snapshot))]
  }

  /** A control decision: the history and the metrics are as they were. */
  predicate Decides(l: Loop, id: Text, out: Outcome, k: Kept, decision: Decision, state: RunState) {
    var s := l.checkpoint.snapshot;
    Makes(l, id, out, k, Control(decision), state, s.history, s.metrics)
  }

  predicate EndsLimited(l: Loop, id: Text, out: Outcome, k: Kept, reason: LimitReason) {
    Decides(l, id, out, k, LimitedControl(reason), Limited(reason))
  }

  predicate EndsFailed(l: Loop, id: Text, out: Outcome, k: Kept, code: Text, message: Text) {
    Decides(l, id, out, k, FailedControl(code), Failed(ErrorInfo(code, message)))
  }

  /** A suspension of the active state; one with an empty metadata key raises. */
  predicate Suspends(l: Loop, id: Text, out: Outcome, k: Kept, suspension: Suspension) {
    if "" in Keys(suspension.metadata) then out.Crashed?
    else
      && l.checkpoint.snapshot.state.Active?
      && Decides(l, id, out, k,
                 SuspendedControl(SuspensionView(suspension.reason, suspension.source, suspension.waitId,
                                                 Keys(suspension.metadata))),
                 Suspended(l.checkpoint.snapshot.state.active, suspension))
  }

  /** One insert at the end of the history. */
  predicate TakesInsert(l: Loop, id: Text, out: Outcome, k: Kept, insert: Insert) {
    var s := l.checkpoint.snapshot;
    Makes(l, id, out, k, ConversationInsert(insert.source), s.state, s.history + [insert.message], s.metrics)
  }

  /** A resumption goes on where the run was suspended, after the appended messages. */
  predicate Continues(l: Loop, id: Text, out: Outcome, k: Kept, append: seq<Message>, metadata: Metadata) {
    var s := l.checkpoint.snapshot;
    if "" in Keys(metadata) then out.Crashed?
    else
      && s.state.Suspended?
      && Makes(l, id, out, k, Resumed(Roles(append), Keys(metadata)), Active(s.state.resumeTo), s.history + append,
               s.metrics)
  }

  /** The proposed messages in place of the history. */
  predicate Replaces(l: Loop, id: Text, out: Outcome, k: Kept, messages: seq<Message>, reason: Text,
                     metadata: Metadata)
  {
    var s := l.checkpoint.snapshot;
    if "" in Keys(metadata) then out.Crashed?
    else
      Makes(l, id, out, k, HistoryRewrite(|s.history|, Roles(messages), reason, Keys(metadata)),
            Active(Planning(false)), messages, s.metrics)
  }

  // ------------------------------------------------------------- model turns

  /** A count with a report added; nothing reported leaves it alone. */
  function Plus(current: Option<int>, reported: Option<int>): Option<int> {
    match (current, reported)
    case (_, None) => current
    case (None, Some(n)) => Some(n)
    case (Some(m), Some(n)) => Some(m + n)
  }

  function UsedAfter(used: Usage, report: Option<Usage>): Usage {
    match report
    case None => used
    case Some(u) =>
      Usage(Plus(used.input, u.input), Plus(used.output, u.output), Plus(used.total, u.total),
            Plus(used.reasoning, u.reasoning), Plus(used.cacheRead, u.cacheRead),
            Plus(used.cacheWrite, u.cacheWrite))
  }

  /** The total, if any is known, is strictly above the limit, if there is one. */
  predicate PastTokens(limit: Option<int>, used: Usage) {
    limit.Some? && used.total.Some? && limit.value < used.total.value
  }

  /** A call id the history has seen before. */
  predicate Reuses(s: Snapshot, r: Response) {
    exists i :: 0 <= i < |RuntimeCalls(r.output)|
                && Link(s.history).Ok? && RuntimeCalls(r.output)[i].id in Link(s.history).value.seen
  }

  /**
   * A model turn: the response is the next message, and what follows depends on
   * the token limit first, then on its calls, its flag, and waiting inserts.
   */
  predicate TakesTurn(limits: Limits, l: Loop, id: Text, out: Outcome, k: Kept, r: Response, insertsWait: bool) {
    var s, calls, parts := l.checkpoint.snapshot, RuntimeCalls(r.output), VisibleParts(r.output);
    var metrics := Metrics(s.metrics.planningSteps + 1, s.metrics.toolCalls, UsedAfter(s.metrics.usage, r.usage));
    var history := s.history + [Message(Assistant, [], r.output, None, None, r.metadata)];
    if Reuses(s, r) then out.Crashed?
    else if PastTokens(limits.maxTotalTokens, metrics.usage) then
      Makes(l, id, out, k,
            ModelTurn(TurnLimited, |parts|, Ids(calls), false, r.finishReason, r.usage, Some(MaxTotalTokens)),
            Limited(MaxTotalTokens), history, metrics)
    else if calls != [] then
      Makes(l, id, out, k,
            ModelTurn(TurnToolsPending, |parts|, Ids(calls), r.providerTurnPending, r.finishReason, r.usage, None),
            Active(ToolsPending(calls, r.providerTurnPending)), history, metrics)
    else if r.providerTurnPending || insertsWait then
      Makes(l, id, out, k,
            ModelTurn(TurnPlanning, |parts|, [], r.providerTurnPending, r.finishReason, r.usage, None),
            Active(Planning(r.providerTurnPending)), history, metrics)
    else
      Makes(l, id, out, k, ModelTurn(TurnCompleted, |parts|, [], false, r.finishReason, r.usage, None),
            Completed(parts), history, metrics)
  }

  // ------------------------------------------------------------ tool batches

  /** The suspension a batch ends with: the first waiting result in batch order, else an observed pause. */
  predicate EndsWaiting(results: seq<ToolResult>, pause: Option<Suspension>, suspension: Option<Suspension>) {
    if forall i :: 0 <= i < |results| ==> !results[i].WaitingOn? then suspension == pause
    else
      exists i :: 0 <= i < |results| && results[i].WaitingOn? && suspension == Some(results[i].suspension)
                  && forall j :: 0 <= j < i ==> !results[j].WaitingOn?
  }

  /** The tool messages of a batch, in its order. */
  predicate Answers(calls: seq<ToolCall>, results: seq<ToolResult>, messages: seq<Message>) {
    && |messages| == |calls| == |results|
    && forall i :: 0 <= i < |calls| ==>
         messages[i] == Message(Tool, [], [], Some(calls[i].id), Some(results[i].outcome), [])
  }

  /**
   * A tool batch: its messages at the end of the history, the calls behind it
   * still owed, or planning again when none are, and suspended behind that if
   * anything waits.
   */
  predicate TakesBatch(l: Loop, id: Text, out: Outcome, k: Kept, b: Batch, results: seq<ToolResult>,
                       suspension: Option<Suspension>)
  {
    var s := l.checkpoint.snapshot;
    if suspension.Some? && "" in Keys(suspension.value.metadata) then out.Crashed?
    else
      && out.Moved? && s.state.Active? && s.state.active.ToolsPending?
      && |b.calls| == |results| <= |s.state.active.pending| && |s.history| <= |out.loop.checkpoint.snapshot.history|
      && var pending, flag := s.state.active.pending, s.state.active.providerTurnPending;
        var next := if |b.calls| < |pending| then ToolsPending(pending[|b.calls|..], flag) else Planning(flag);
        var history := out.loop.checkpoint.snapshot.history;
        && history[..|s.history|] == s.history && Answers(b.calls, results, history[|s.history|..])
        && Makes(l, id, out, k,
                 ToolBatch(b.id, Ids(b.calls), b.parallel,
                           seq(|results|, i requires 0 <= i < |results| => results[i].outcome.Kind()),
                           match suspension
                           case None => None
                           case Some(w) => Some(SuspensionView(w.reason, w.source, w.waitId, Keys(w.metadata)))),
                 match suspension case None => Active(next) case Some(w) => Suspended(next, w),
                 history, s.metrics.(toolCalls := s.metrics.toolCalls + |b.calls|))
  }

  /** What each cause makes durable, when its commit is in time. */
  ghost predicate Becomes(limits: Limits, l: Loop, id: Text, out: Outcome, k: Kept, cause: Cause) {
    match cause
    case Fails(code, message) => EndsFailed(l, id, out, k, code, message)
    case HitsLimit(reason) => EndsLimited(l, id, out, k, reason)
    case Pauses(suspension) => Suspends(l, id, out, k, suspension)
    case Inserts(insert) => TakesInsert(l, id, out, k, insert)
    case Resumes(append, metadata) => Continues(l, id, out, k, append, metadata)
    case Rewrites(messages, reason, metadata) => Replaces(l, id, out, k, messages, reason, metadata)
    case Turns(response, insertsWait) => TakesTurn(limits, l, id, out, k, response, insertsWait)
    case Batches(b, results, pause) =>
      exists suspension :: EndsWaiting(results, pause, suspension) && TakesBatch(l, id, out, k, b, results, suspension)
  }

  // ------------------------------------------- commits make what they should

  /** The checkpoint a commit makes, from the change it commits. */
  lemma CommitMakes(limits: Limits, l: Loop, p: Plan, timing: CommitTiming, id: Text, supply: nat)
    requires ValidLoop(l) && id != "" && id !in l.used && ProperInserts(p.deferred)
    requires Allowed(l.checkpoint.snapshot, p.cause)
    ensures Allowed(l.checkpoint.snapshot, CommittedCause(p.cause, timing))
    ensures var out := Commit(limits, l, p, timing, id, supply);
      var c := ChangeFor(limits, l.checkpoint.snapshot, CommittedCause(p.cause, timing));
      out.Moved? ==>
        && Makes(l, id, out, Kept(p.deferred, p.skipReducer, p.events), c.fact, c.state,
                 Edited(l.checkpoint.snapshot.history, c.append, c.replace),
                 AdvanceMetrics(l.checkpoint.snapshot.metrics, c.planningSteps, c.toolCalls, c.usage))
        && out.loop.supply == supply
  {
    CommitOutcome(limits, l, p, timing, id, supply);
    hide Analyze, BoundaryOk, ValidFact, ValidSnapshot, ViewOf;
  }

  lemma UsageAgrees(used: Usage, report: Option<Usage>)
    ensures AddUsage(used, report) == UsedAfter(used, report)
  {
  }

  lemma TokensAgree(limits: Limits, metrics: Metrics, report: Option<Usage>)
    ensures OverTokens(limits, metrics, report)
      <==> PastTokens(limits.maxTotalTokens, UsedAfter(metrics.usage, report))
  {
  }

  lemma ReuseAgrees(s: Snapshot, r: Response)
    requires ValidSnapshot(s)
    ensures Reuses(s, r) <==> !FreshCalls(s, Turns(r, false))
    ensures Reuses(s, r) <==> !FreshCalls(s, Turns(r, true))
  {
    var calls, seen := RuntimeCalls(r.output), Link(s.history).value.seen;
    if Reuses(s, r) {
      var i :| 0 <= i < |calls| && calls[i].id in seen;
      assert Ids(calls)[i] in ToSet(Ids(calls)) * seen;
    }
    if ToSet(Ids(calls)) * seen != {} {
      var id :| id in ToSet(Ids(calls)) * seen;
      var i :| 0 <= i < |calls| && Ids(calls)[i] == id;
      assert calls[i].id in seen;
    }
  }

  lemma {:induction false} WaitsFirst(results: seq<ToolResult>, pause: Option<Suspension>)
    ensures EndsWaiting(results, pause, BatchSuspension(results, pause))
  {
    if results != [] && !results[0].WaitingOn? {
      var rest := results[1..];
      WaitsFirst(rest, pause);
      assert forall i :: 0 <= i < |rest| ==> rest[i] == results[i + 1];
      if exists i :: 0 <= i < |rest| && rest[i].WaitingOn? {
        var i :| 0 <= i < |rest| && rest[i].WaitingOn? && BatchSuspension(rest, pause) == Some(rest[i].suspension)
                 && forall j :: 0 <= j < i ==> !rest[j].WaitingOn?;
        assert results[i + 1].WaitingOn? && forall j :: 0 <= j < i + 1 ==> !results[j].WaitingOn?;
      }
    }
  }

  /** The change of a cause was committed, or raised exactly when it must. */
  predicate Settles(limits: Limits, l: Loop, id: Text, out: Outcome, k: Kept, cause: Cause)
    requires Allowed(l.checkpoint.snapshot, cause)
  {
    var s, c := l.checkpoint.snapshot, ChangeFor(limits, l.checkpoint.snapshot, cause);
    && (out.Crashed? <==> !NamedKeys(FactKeys(cause)) || !FreshCalls(s, cause))
    && (out.Moved? ==>
          Makes(l, id, out, k, c.fact, c.state, Edited(s.history, c.append, c.replace),
                AdvanceMetrics(s.metrics, c.planningSteps, c.toolCalls, c.usage)))
  }

  lemma SimplyBecomes(limits: Limits, l: Loop, id: Text, out: Outcome, k: Kept, cause: Cause)
    requires Allowed(l.checkpoint.snapshot, cause) && Settles(limits, l, id, out, k, cause)
    requires !cause.Turns? && !cause.Batches?
    ensures Becomes(limits, l, id, out, k, cause)
  {
    var s := l.checkpoint.snapshot;
    assert s.history + [] == s.history;
    assert AdvanceMetrics(s.metrics, 0, 0, None) == s.metrics;
  }

  lemma TurnBecomes(limits: Limits, l: Loop, id: Text, out: Outcome, k: Kept, r: Response, insertsWait: bool)
    requires ValidSnapshot(l.checkpoint.snapshot) && Allowed(l.checkpoint.snapshot, Turns(r, insertsWait))
    requires Settles(limits, l, id, out, k, Turns(r, insertsWait))
    ensures TakesTurn(limits, l, id, out, k, r, insertsWait)
  {
    var s := l.checkpoint.snapshot;
    hide ValidSnapshot, ValidResponse, Reuses, FreshCalls, OverTokens, PastTokens, UsedAfter, AddUsage;
    UsageAgrees(s.metrics.usage, r.usage);
    TokensAgree(limits, s.metrics, r.usage);
    ReuseAgrees(s, r);
  }

  lemma BatchBecomes(limits: Limits, l: Loop, id: Text, out: Outcome, k: Kept, b: Batch, results: seq<ToolResult>,
                     pause: Option<Suspension>)
    requires Allowed(l.checkpoint.snapshot, Batches(b, results, pause))
    requires Settles(limits, l, id, out, k, Batches(b, results, pause))
    ensures EndsWaiting(results, pause, BatchSuspension(results, pause))
    ensures TakesBatch(l, id, out, k, b, results, BatchSuspension(results, pause))
  {
    WaitsFirst(results, pause);
    hide EndsWaiting, BatchSuspension, ProperResult, ProperSuspension;
    var s, messages := l.checkpoint.snapshot, ToolMessages(b.calls, results);
    if out.Moved? {
      assert (s.history + messages)[..|s.history|] == s.history;
      assert (s.history + messages)[|s.history|..] == messages;
      assert Outcomes(results) == seq(|results|, i requires 0 <= i < |results| => results[i].outcome.Kind());
    }
  }

  /** A commit in time makes durable exactly what its cause says. */
  lemma CommitBecomes(limits: Limits, l: Loop, p: Plan, id: Text, supply: nat)
    requires ValidLoop(l) && id != "" && id !in l.used && ProperInserts(p.deferred)
    requires Allowed(l.checkpoint.snapshot, p.cause)
    ensures Becomes(limits, l, id, Commit(limits, l, p, OnTime, id, supply), Kept(p.deferred, p.skipReducer, p.events),
                    p.cause)
  {
    hide Commit, ValidLoop, ProperInserts, Becomes, ChangeFor, FreshCalls, FactKeys, Allowed;
    CommitOutcome(limits, l, p, OnTime, id, supply);
    CommitMakes(limits, l, p, OnTime, id, supply);
    var out, k := Commit(limits, l, p, OnTime, id, supply), Kept(p.deferred, p.skipReducer, p.events);
    assert CommittedCause(p.cause, OnTime) == p.cause;
    assert Settles(limits, l, id, out, k, p.cause);
    CausesBecome(limits, l, id, out, k, p.cause);
  }

  lemma CausesBecome(limits: Limits, l: Loop, id: Text, out: Outcome, k: Kept, cause: Cause)
    requires ValidLoop(l) && Allowed(l.checkpoint.snapshot, cause) && Settles(limits, l, id, out, k, cause)
    ensures Becomes(limits, l, id, out, k, cause)
  {
    hide Settles, TakesTurn, TakesBatch, EndsWaiting, ValidSnapshot;
    match cause
    case Turns(r, insertsWait) => TurnBecomes(limits, l, id, out, k, r, insertsWait);
    case Batches(b, results, pause) =>
      BatchBecomes(limits, l, id, out, k, b, results, pause);
    case _ => SimplyBecomes(limits, l, id, out, k, cause);
  }

  // ---------------------------------------------------------- at a boundary

  /** What a round in time leads to, by what its pass did before. */
  ghost predicate Leads(cfg: Config, l: Loop, r: Round, k: Kept, cause: Cause)
    requires ValidLoop(l) && LegalRound(cfg, l, r)
  {
    Becomes(cfg.limits, l, r.id, Proceed(cfg, l, r), k, cause)
  }

  lemma RoundFacts(cfg: Config, l: Loop, r: Round)
    requires ValidLoop(l) && LegalRound(cfg, l, r)
    ensures r.id != "" && r.id !in l.used && 0 <= l.supply - Delivered(r)
    ensures Allowed(l.checkpoint.snapshot, Pass(cfg, l, r).cause) && ProperInserts(Pass(cfg, l, r).deferred)
    ensures Proceed(cfg, l, r)
         == Commit(cfg.limits, l, Pass(cfg, l, r), r.timing, r.id, l.supply - Delivered(r))
  {
    PassAllowed(cfg, l, r);
    hide Pass, Allowed, Delivered, Commit, ProperInserts, ValidLimits, LegalTools, ValidSnapshot;
  }

  lemma PlanLeads(cfg: Config, l: Loop, r: Round)
    requires ValidLoop(l) && LegalRound(cfg, l, r) && r.timing == OnTime
    ensures var p := Pass(cfg, l, r);
      Leads(cfg, l, r, Kept(p.deferred, p.skipReducer, p.events), p.cause)
  {
    hide Pass, LegalRound, ValidLoop, Allowed, Becomes, Delivered, Commit, ProperInserts, Proceed;
    RoundFacts(cfg, l, r);
    CommitBecomes(cfg.limits, l, Pass(cfg, l, r), r.id, l.supply - Delivered(r));
  }

  /** What an outcome kept and emitted before its commit. */
  function KeptOf(out: Outcome): Kept
    requires out.Moved? && out.events != []
  {
    Kept(out.loop.deferred, out.loop.skipReducer, out.events[..|out.events| - 1])
  }

  /**
   * A late commit: the deadline takes the place of whatever the round would have
   * committed in time, with the history and metrics as they were. What the pass
   * deferred and emitted before is the same. It still raises on an empty
   * metadata key, and on a reused call id unless the deadline came first.
   */
  lemma LateEnds(cfg: Config, l: Loop, r: Round)
    requires ValidLoop(l) && LegalRound(cfg, l, r) && r.timing != OnTime
    ensures LegalRound(cfg, l, r.(timing := OnTime))
    ensures var late, intime := Proceed(cfg, l, r), Proceed(cfg, l, r.(timing := OnTime));
      && (late.Crashed? ==> intime.Crashed?)
      && (late.Moved? ==> late.events != [] && EndsLimited(l, r.id, late, KeptOf(late), DeadlineReached))
      && (late.Moved? && intime.Moved? ==> intime.events != [] && KeptOf(late) == KeptOf(intime))
      && (late.Moved? && intime.Crashed? ==>
            r.timing == LateBefore && r.model.end.ModelResponded?
            && Reuses(l.checkpoint.snapshot, r.model.end.response))
  {
    hide Pass, LegalRound, ValidLoop, Allowed, Delivered, Commit, ProperInserts, FreshCalls, Reuses, FactKeys, Proceed;
    var intime := r.(timing := OnTime);
    SameRound(cfg, l, r);
    OnlyTurnsReuse(cfg, l, r);
    RoundFacts(cfg, l, r);
    RoundFacts(cfg, l, intime);
    hide EndsLimited, KeptOf;
    LateCommit(cfg.limits, l, Pass(cfg, l, r), r.timing, r.id, l.supply - Delivered(r));
  }

  /** A late commit of a plan, beside the same in time. */
  lemma LateCommit(limits: Limits, l: Loop, p: Plan, timing: CommitTiming, id: Text, supply: nat)
    requires ValidLoop(l) && id != "" && id !in l.used && ProperInserts(p.deferred)
    requires Allowed(l.checkpoint.snapshot, p.cause) && timing != OnTime
    ensures var late, intime := Commit(limits, l, p, timing, id, supply), Commit(limits, l, p, OnTime, id, supply);
      && (late.Crashed? ==> intime.Crashed?)
      && (late.Moved? ==> late.events != [] && EndsLimited(l, id, late, KeptOf(late), DeadlineReached))
      && (late.Moved? && intime.Moved? ==> intime.events != [] && KeptOf(late) == KeptOf(intime))
      && (late.Moved? && intime.Crashed? ==> timing == LateBefore && !FreshCalls(l.checkpoint.snapshot, p.cause))
  {
    hide ValidLoop, Allowed, Commit, ProperInserts, FreshCalls, FactKeys;
    var s := l.checkpoint.snapshot;
    CommitOutcome(limits, l, p, timing, id, supply);
    CommitOutcome(limits, l, p, OnTime, id, supply);
    CommitMakes(limits, l, p, timing, id, supply);
    CommitMakes(limits, l, p, OnTime, id, supply);
    assert CommittedCause(p.cause, timing) == DEADLINE;
    assert s.history + [] == s.history && AdvanceMetrics(s.metrics, 0, 0, None) == s.metrics;
  }

  lemma SameRound(cfg: Config, l: Loop, r: Round)
    requires LegalRound(cfg, l, r)
    ensures var intime := r.(timing := OnTime);
      && LegalRound(cfg, l, intime) && Delivered(intime) == Delivered(r)
      && Pass(cfg, l, intime) == Pass(cfg, l, r)
  {
    hide LegalTools, ToolPass, ValidLimits;
  }

  lemma NeverReuses(s: Snapshot, cause: Cause)
    ensures !cause.Turns? ==> FreshCalls(s, cause)
  {
  }

  lemma OnlyResponsesTurn(cfg: Config, l: Loop, r: Round)
    requires LegalRound(cfg, l, r)
    ensures var cause := Pass(cfg, l, r).cause;
      cause.Turns? ==> r.model.end.ModelResponded? && cause.response == r.model.end.response
  {
    var s := l.checkpoint.snapshot;
    var a := s.state.active;
    BoundaryUses(a, l.deferred, r.boundary);
    if a.ToolsPending? {
      hide ToolPass, LegalTools;
      ToolsUse(cfg, s, a.pending, BoundaryDeferred(a, l.deferred, r.boundary), l.skipReducer, r.tools);
    }
  }

  lemma OnlyTurnsReuse(cfg: Config, l: Loop, r: Round)
    requires ValidLoop(l) && LegalRound(cfg, l, r)
    ensures !FreshCalls(l.checkpoint.snapshot, Pass(cfg, l, r).cause) ==>
      r.model.end.ModelResponded? && Reuses(l.checkpoint.snapshot, r.model.end.response)
  {
    var s := l.checkpoint.snapshot;
    assert ValidSnapshot(s);
    hide Reuses, FreshCalls, ValidSnapshot, ValidLoop, LegalRound, Pass;
    OnlyResponsesTurn(cfg, l, r);
    if r.model.end.ModelResponded? { ReuseAgrees(s, r.model.end.response); }
    NeverReuses(s, Pass(cfg, l, r).cause);
  }

  /** Planning between provider turns: inserts may be committed and the history rewritten. */
  predicate BetweenTurns(l: Loop) { l.checkpoint.snapshot.state == Active(Planning(false)) }

  /** An expired deadline limits the run, a pause suspends it, and the insert deferred longest is committed. */
  lemma BoundaryEnds(cfg: Config, l: Loop, r: Round)
    requires ValidLoop(l) && LegalRound(cfg, l, r) && r.timing == OnTime
    ensures match r.boundary
      case Expired => Leads(cfg, l, r, Kept(l.deferred, l.skipReducer, []), HitsLimit(DeadlineReached))
      case Polled(Some(suspension), inserts) =>
        Leads(cfg, l, r, Kept(l.deferred + inserts, l.skipReducer, []), Pauses(suspension))
      case Polled(None, inserts) =>
        var waiting := l.deferred + inserts;
        BetweenTurns(l) && waiting != [] ==>
          Leads(cfg, l, r, Kept(waiting[1..], l.skipReducer, []), Inserts(waiting[0]))
  {
    hide Leads, ValidLoop, StepPlan, LegalRound;
    PlanLeads(cfg, l, r);
  }

  /** The boundary commits nothing. */
  predicate GoesOn(l: Loop, r: Round) {
    && r.boundary.Polled? && r.boundary.pause.None?
    && (BetweenTurns(l) ==> l.deferred + r.boundary.inserts == [])
  }

  // ------------------------------------------------------------- the reducer

  /** The history reducer is asked: there is one, and the pass before was not its own rewrite. */
  predicate AsksReducer(cfg: Config, l: Loop) { cfg.hasReducer && !l.skipReducer && BetweenTurns(l) }

  /**
   * What becomes of each answer of the history reducer. A rewrite that is no
   * longer than the history and links is committed, and the reducer skipped in
   * the next pass; any other proposal fails the run.
   */
  lemma ReducerEnds(cfg: Config, l: Loop, r: Round)
    requires ValidLoop(l) && LegalRound(cfg, l, r) && r.timing == OnTime && GoesOn(l, r) && AsksReducer(cfg, l)
    ensures var none := Kept([], false, []);
      match r.reducer
      case ReducerKeeps => true
      case ReducerPaused(suspension) => Leads(cfg, l, r, none, Pauses(suspension))
      case ReducerInserted(insert) => Leads(cfg, l, r, none, Inserts(insert))
      case ReducerTimedOut => Leads(cfg, l, r, none, HitsLimit(DeadlineReached))
      case ReducerRaised(message) => Leads(cfg, l, r, none, Fails("history_reducer_error", message))
      case ReducerProposed(messages, reason, metadata) =>
        if |messages| > |l.checkpoint.snapshot.history| then
          Leads(cfg, l, r, none, Fails("history_reducer_error", "history rewrite cannot increase message count"))
        else if Analyze(messages, Active(Planning(false))).Err? then
          Leads(cfg, l, r, none, Fails("history_reducer_error", "invalid history"))
        else Leads(cfg, l, r, Kept([], true, []), Rewrites(messages, reason, metadata))
  {
    hide Leads, ValidLoop, LegalRound, Analyze;
    PlanLeads(cfg, l, r);
  }

  // --------------------------------------------------------------- the model

  /** The pass comes to its planning step. */
  predicate Plans(cfg: Config, l: Loop, r: Round) {
    && GoesOn(l, r) && l.checkpoint.snapshot.state.Active? && l.checkpoint.snapshot.state.active.Planning?
    && (AsksReducer(cfg, l) ==> r.reducer.ReducerKeeps?)
  }

  /** The start of a model call and what it streamed. */
  function Streamed(steps: int, deltas: nat): seq<Event> {
    [ModelStarted(steps + 1)] + seq(deltas, _ => ModelDelta)
  }

  lemma {:induction false} DeltasAgree(n: nat)
    ensures Deltas(n) == seq(n, _ => ModelDelta)
  {
    if n > 0 {
      DeltasAgree(n - 1);
      assert seq(n, _ => ModelDelta) == [ModelDelta] + seq(n - 1, _ => ModelDelta);
    }
  }

  /** Inserts that wait after the model call: it may defer more only while a provider turn is pending. */
  function WaitingAfter(l: Loop, r: Round): seq<Insert>
    requires r.boundary.Polled? && l.checkpoint.snapshot.state.Active?
  {
    l.deferred + r.boundary.inserts
    + if l.checkpoint.snapshot.state.active.providerTurnPending then r.model.deferred else []
  }

  lemma EventsAgree(steps: int, input: ModelInput)
    ensures ModelEvents(steps, input) == match input.end
      case RequestRefused(_) => []
      case ModelResponded(response) =>
        Streamed(steps, input.deltas)
        + [ModelFinished(response.finishReason, |RuntimeCalls(response.output)|, ProviderCallCount(response.output),
                         response.usage)]
      case _ => Streamed(steps, input.deltas)
  {
    DeltasAgree(input.deltas);
    assert Streamed(steps, input.deltas) == [ModelStarted(steps + 1)] + Deltas(input.deltas);
  }

  lemma PlansAhead(cfg: Config, l: Loop, r: Round)
    requires LegalRound(cfg, l, r) && Plans(cfg, l, r)
    ensures var s := l.checkpoint.snapshot;
      var waiting, pending := WaitingAfter(l, r), s.state.active.providerTurnPending;
      Pass(cfg, l, r)
      == if s.metrics.planningSteps >= cfg.limits.maxPlanningSteps then
           Plan(HitsLimit(MaxPlanningSteps), [], l.deferred + r.boundary.inserts, false)
         else
           Plan(ModelCause(r.model, pending && waiting != []), ModelEvents(s.metrics.planningSteps, r.model), waiting,
                false)
  {
    hide LegalRound, ModelCause, ModelEvents;
  }

  /** What becomes of each ending of a model call, and of a planning step past its limit. */
  lemma ModelEnds(cfg: Config, l: Loop, r: Round)
    requires ValidLoop(l) && LegalRound(cfg, l, r) && r.timing == OnTime && Plans(cfg, l, r)
    ensures var s, waiting := l.checkpoint.snapshot, WaitingAfter(l, r);
      var streamed := Kept(waiting, false, Streamed(s.metrics.planningSteps, r.model.deltas));
      if s.metrics.planningSteps >= cfg.limits.maxPlanningSteps then
        Leads(cfg, l, r, Kept(l.deferred + r.boundary.inserts, false, []), HitsLimit(MaxPlanningSteps))
      else match r.model.end
        case RequestRefused(message) =>
          Leads(cfg, l, r, Kept(waiting, false, []), Fails("model_protocol_error", message))
        case ModelPaused(suspension) => Leads(cfg, l, r, streamed, Pauses(suspension))
        case ModelInserted(insert) => Leads(cfg, l, r, streamed, Inserts(insert))
        case ModelTimedOut => Leads(cfg, l, r, streamed, HitsLimit(DeadlineReached))
        case ModelRaised(provider, message) =>
          if provider then Leads(cfg, l, r, streamed, Fails("model_provider_error", message))
          else Leads(cfg, l, r, streamed, Fails("model_protocol_error", message))
        case ModelResponded(response) =>
          var finished := ModelFinished(response.finishReason, |RuntimeCalls(response.output)|,
                                        ProviderCallCount(response.output), response.usage);
          Leads(cfg, l, r, streamed.(events := streamed.events + [finished]),
                Turns(response, s.state.active.providerTurnPending && waiting != []))
  {
    hide Leads, ValidLoop, LegalRound, ReducerCause;
    PlanLeads(cfg, l, r);
    var steps := l.checkpoint.snapshot.metrics.planningSteps;
    EventsAgree(steps, r.model);
    PlansAhead(cfg, l, r);
    hide Pass, ModelEvents, Streamed, WaitingAfter;
  }
}
