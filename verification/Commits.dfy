/**
 * Every change the engine can build from a valid snapshot passes the reducer,
 * the boundary checks and verify_change, unless it reuses a call id.
 */
module Commits {
  import opened Wrappers
  import opened Messages
  import opened Digests
  import opened State
  import opened Linkage
  import opened Checkpoints
  import opened Views
  import opened Changes
  import P = Pending

  /** Why the engine commits, with what the outside world supplied. */
  datatype Cause =
    | Fails(code: Text, message: Text)
    | HitsLimit(reason: LimitReason)
    | Pauses(suspension: Suspension)
    | Inserts(insert: Insert)
    | Resumes(append: seq<Message>, metadata: Metadata)
    | Rewrites(messages: seq<Message>, reasonText: Text, metadata: Metadata)
    | Turns(response: Response, waitingInserts: bool)
    | Batches(batch: Batch, results: seq<ToolResult>, pause: Option<Suspension>)

  /** Values their own constructors have checked, offered in a state the engine offers them in. */
  predicate Allowed(s: Snapshot, cause: Cause) {
    match cause
    case Fails(code, _) => code != ""
    case HitsLimit(_) => true
    case Pauses(suspension) => s.state.Active? && ProperSuspension(suspension)
    case Inserts(insert) =>
      Interruptible(s.state) && ProperInsert(insert)
    case Resumes(append, metadata) =>
      && s.state.Suspended? && Unique(Keys(metadata))
      && (append != [] ==> s.state.resumeTo == Planning(false))
      && forall i :: 0 <= i < |append| ==>
           ValidMessage(append[i]) && append[i].role != Assistant && append[i].role != Tool
    case Rewrites(messages, reason, metadata) =>
      && Interruptible(s.state) && reason != "" && Unique(Keys(metadata))
      && messages != [] && |messages| <= |s.history|
      && (forall i :: 0 <= i < |messages| ==> ValidMessage(messages[i]))
      && Analyze(messages, Active(Planning(false))).Ok?
    case Turns(response, _) => s.state.Active? && s.state.active.Planning? && ValidResponse(response)
    case Batches(batch, results, pause) =>
      && s.state.Active? && s.state.active.ToolsPending?
      && batch.id != "" && batch.calls != [] && batch.calls <= s.state.active.pending
      && |results| == |batch.calls|
      && (forall i :: 0 <= i < |results| ==> ProperResult(results[i]))
      && (pause.Some? ==> ProperSuspension(pause.value))
  }

  /** A suspension value; its metadata is a mapping, so its keys are distinct. */
  predicate ProperSuspension(s: Suspension) { ValidSuspension(s) && Unique(Keys(s.metadata)) }

  predicate ProperInsert(insert: Insert) {
    insert.source != "" && ValidMessage(insert.message) && insert.message.role == External
  }

  predicate ProperResult(r: ToolResult) {
    ValidResult(r) && (r.WaitingOn? ==> ProperSuspension(r.suspension))
  }

  function ChangeFor(limits: Limits, s: Snapshot, cause: Cause): Change
    requires Allowed(s, cause)
  {
    match cause
    case Fails(code, message) => FailedChange(code, message)
    case HitsLimit(reason) => LimitedChange(reason)
    case Pauses(suspension) => SuspendChange(s.state.active, suspension)
    case Inserts(insert) => InsertChange(insert, s.state.active)
    case Resumes(append, metadata) => ResumeChange(s.state.resumeTo, append, metadata)
    case Rewrites(messages, reason, metadata) => RewriteChange(|s.history|, messages, reason, metadata)
    case Turns(response, waiting) =>
      var turn := TurnChange(limits, s.metrics, response);
      if waiting then ContinueForInserts(turn) else turn
    case Batches(batch, results, pause) => BatchChange(s.state.active, batch, results, pause)
  }

  /** The metadata keys a fact repeats: their constructor refuses the empty key. */
  function FactKeys(cause: Cause): seq<Text> {
    match cause
    case Pauses(suspension) => Keys(suspension.metadata)
    case Resumes(_, metadata) => Keys(metadata)
    case Rewrites(_, _, metadata) => Keys(metadata)
    case Batches(_, results, pause) =>
      var suspension := BatchSuspension(results, pause);
      if suspension.None? then [] else Keys(suspension.value.metadata)
    case _ => []
  }

  predicate NamedKeys(keys: seq<Text>) { "" !in keys }

  /** The one thing only the whole history can decide: call ids never used before. */
  predicate FreshCalls(s: Snapshot, cause: Cause) {
    cause.Turns? ==>
      Link(s.history).Ok? ==>
        ToSet(Ids(RuntimeCalls(cause.response.output))) * Link(s.history).value.seen == {}
  }

  // ---------------------------------------------------------- linking edits

  lemma LinkOne(history: seq<Message>, m: Message)
    requires Link(history).Ok?
    ensures Link(history + [m]) == LinkStep(Link(history).value, m)
  {
    LinkConcat(NOTHING_LINKED, history, [m]);
    var l := Link(history).value;
    assert [m][1..] == [];
  }

  lemma {:induction false} LinkRegular(l: Linked, messages: seq<Message>)
    requires messages != [] ==> l.unresolved == []
    requires forall i :: 0 <= i < |messages| ==> messages[i].role != Assistant && messages[i].role != Tool
    ensures LinkFrom(l, messages) == Ok(l)
    decreases |messages|
  {
    if messages != [] { LinkRegular(l, messages[1..]); }
  }

  /** Results for a prefix of the unresolved calls, in order, resolve that prefix. */
  lemma {:induction false} LinkResults(l: Linked, calls: seq<ToolCall>, results: seq<ToolResult>)
    requires calls <= l.unresolved && |results| == |calls|
    ensures LinkFrom(l, ToolMessages(calls, results)) == Ok(Linked(l.seen, l.unresolved[|calls|..]))
    decreases |calls|
  {
    if calls == [] {
      assert l.unresolved[0..] == l.unresolved;
    } else {
      var messages := ToolMessages(calls, results);
      assert messages[1..] == ToolMessages(calls[1..], results[1..]);
      var next := Linked(l.seen, l.unresolved[1..]);
      assert LinkStep(l, messages[0]) == Ok(next);
      LinkResults(next, calls[1..], results[1..]);
      assert l.unresolved[1..][|calls| - 1..] == l.unresolved[|calls|..];
    }
  }

  predicate NamedCalls(calls: seq<ToolCall>) { forall i :: 0 <= i < |calls| ==> calls[i].id != "" }

  lemma {:induction false} UnresolvedNamed(l: Linked, messages: seq<Message>)
    requires NamedCalls(l.unresolved)
    requires forall i :: 0 <= i < |messages| ==> ValidMessage(messages[i])
    requires LinkFrom(l, messages).Ok?
    ensures NamedCalls(LinkFrom(l, messages).value.unresolved)
    decreases |messages|
  {
    if messages != [] {
      assert ValidMessage(messages[0]);
      UnresolvedNamed(LinkStep(l, messages[0]).value, messages[1..]);
    }
  }

  // ------------------------------------------------ what a good commit gives

  /** The checkpoint is constructed, is valid again, and verify_change accepts it. */
  ghost predicate Passes(s: Snapshot, c: Change, id: Text)
    requires s.history != []
  {
    && c.replace != Some([])
    && var r := Reduce(s, c, id);
      && r.Ok? && ValidCheckpoint(r.value) && r.value.fact == c.fact && r.value.id == id
      && r.value.snapshot.state == c.state
      && VerifyChange(Some(ViewOf(s)), c.fact, ViewOf(r.value.snapshot)) == None
  }

  /** The snapshot an appending change leads to. */
  function Next(s: Snapshot, c: Change): Snapshot {
    Snapshot(s.revision + 1, s.context, s.history + c.append,
             AdvanceMetrics(s.metrics, c.planningSteps, c.toolCalls, c.usage), c.state)
  }

  /** The four checks, put together. */
  lemma AllChecksPass(s: Snapshot, c: Change, id: Text)
    requires ValidSnapshot(s) && id != "" && c.replace.None?
    requires ValidFact(c.fact) && ValidState(c.state)
    requires c.state.Suspended? ==> ValidSuspension(c.state.suspension)
    requires c.state.Failed? ==> c.state.error.code != ""
    requires forall i :: 0 <= i < |c.append| ==> ValidMessage(c.append[i])
    requires Analyze(s.history + c.append, c.state).Ok?
    requires BoundaryOk(Next(s, c), c.fact)
    requires VerifyChange(Some(ViewOf(s)), c.fact, ViewOf(Next(s, c))) == None
    ensures Passes(s, c, id)
  {
    hide Analyze, BoundaryOk, ValidFact, VerifyChange, ValidMessage, AdvanceMetrics;
    MetricsStay(s.metrics, c);
  }

  lemma MetricsStay(m: Metrics, c: Change)
    ensures var next := AdvanceMetrics(m, c.planningSteps, c.toolCalls, c.usage);
      next.planningSteps >= m.planningSteps && next.toolCalls >= m.toolCalls
  {
  }

  lemma KeepHistory(s: Snapshot)
    requires s.history != []
    ensures Edited(s.history, [], None) == s.history
  {
    assert s.history + [] == s.history;
  }

  lemma ValidKeysOf(keys: seq<Text>)
    requires Unique(keys)
    ensures ValidKeys(keys) <==> NamedKeys(keys)
  {
  }

  lemma FailurePasses(s: Snapshot, code: Text, message: Text, id: Text)
    requires ValidSnapshot(s) && code != "" && id != ""
    ensures Passes(s, FailedChange(code, message), id)
  {
    KeepHistory(s);
  }

  lemma LimitPasses(s: Snapshot, reason: LimitReason, id: Text)
    requires ValidSnapshot(s) && id != ""
    ensures Passes(s, LimitedChange(reason), id)
  {
    KeepHistory(s);
  }

  lemma PausePasses(s: Snapshot, suspension: Suspension, id: Text)
    requires ValidSnapshot(s) && id != "" && s.state.Active? && ProperSuspension(suspension)
    ensures ValidFact(SuspendChange(s.state.active, suspension).fact) <==> NamedKeys(Keys(suspension.metadata))
    ensures NamedKeys(Keys(suspension.metadata)) ==> Passes(s, SuspendChange(s.state.active, suspension), id)
  {
    KeepHistory(s);
    ValidKeysOf(Keys(suspension.metadata));
  }

  lemma InsertChecks(s: Snapshot, insert: Insert)
    requires ValidSnapshot(s) && Allowed(s, Inserts(insert))
    ensures var c := InsertChange(insert, s.state.active);
      && Analyze(s.history + c.append, c.state).Ok? && BoundaryOk(Next(s, c), c.fact)
      && VerifyChange(Some(ViewOf(s)), c.fact, ViewOf(Next(s, c))) == None
  {
    LinkOne(s.history, insert.message);
  }

  lemma InsertPasses(s: Snapshot, insert: Insert, id: Text)
    requires ValidSnapshot(s) && id != "" && Allowed(s, Inserts(insert))
    ensures Passes(s, InsertChange(insert, s.state.active), id)
  {
    hide Analyze, BoundaryOk, VerifyChange, Passes, ValidMessage;
    InsertChecks(s, insert);
    AllChecksPass(s, InsertChange(insert, s.state.active), id);
  }

  lemma ResumeLinks(s: Snapshot, append: seq<Message>, metadata: Metadata)
    requires ValidSnapshot(s) && Allowed(s, Resumes(append, metadata))
    ensures Analyze(s.history + append, Active(s.state.resumeTo)).Ok?
  {
    LinkConcat(NOTHING_LINKED, s.history, append);
    LinkRegular(Link(s.history).value, append);
  }

  lemma ResumeChecks(s: Snapshot, append: seq<Message>, metadata: Metadata)
    requires s.history != [] && s.revision >= 0 && s.state.Suspended?
    ensures var c := ResumeChange(s.state.resumeTo, append, metadata);
      BoundaryOk(Next(s, c), c.fact) && VerifyChange(Some(ViewOf(s)), c.fact, ViewOf(Next(s, c))) == None
  {
  }

  lemma ResumePasses(s: Snapshot, append: seq<Message>, metadata: Metadata, id: Text)
    requires ValidSnapshot(s) && id != "" && Allowed(s, Resumes(append, metadata))
    ensures ValidFact(ResumeChange(s.state.resumeTo, append, metadata).fact) <==> NamedKeys(Keys(metadata))
    ensures NamedKeys(Keys(metadata)) ==> Passes(s, ResumeChange(s.state.resumeTo, append, metadata), id)
  {
    hide Analyze, BoundaryOk, VerifyChange, Passes, ValidMessage;
    ValidKeysOf(Keys(metadata));
    ResumeLinks(s, append, metadata);
    ResumeChecks(s, append, metadata);
    if NamedKeys(Keys(metadata)) { AllChecksPass(s, ResumeChange(s.state.resumeTo, append, metadata), id); }
  }

  lemma RewriteChecks(s: Snapshot, messages: seq<Message>, reason: Text, metadata: Metadata)
    requires s.history != [] && s.revision >= 0 && Interruptible(s.state) && messages != []
    ensures var c := RewriteChange(|s.history|, messages, reason, metadata);
      var next := Snapshot(s.revision + 1, s.context, messages, AdvanceMetrics(s.metrics, 0, 0, None), c.state);
      BoundaryOk(next, c.fact) && VerifyChange(Some(ViewOf(s)), c.fact, ViewOf(next)) == None
  {
  }

  lemma RewritePasses(s: Snapshot, messages: seq<Message>, reason: Text, metadata: Metadata, id: Text)
    requires ValidSnapshot(s) && id != "" && Allowed(s, Rewrites(messages, reason, metadata))
    ensures ValidFact(RewriteChange(|s.history|, messages, reason, metadata).fact) <==> NamedKeys(Keys(metadata))
    ensures NamedKeys(Keys(metadata)) ==> Passes(s, RewriteChange(|s.history|, messages, reason, metadata), id)
  {
    ValidKeysOf(Keys(metadata));
    RewriteChecks(s, messages, reason, metadata);
  }

  // ------------------------------------------------------------- model turns

  /** A response is accepted by the reducer exactly when its call ids are new. */
  lemma TurnLinks(s: Snapshot, r: Response, state: RunState)
    requires ValidSnapshot(s) && s.state.Active? && s.state.active.Planning? && ValidResponse(r)
    requires var calls := RuntimeCalls(r.output);
      if state.Limited? then true
      else if calls != [] then state.Active? && state.active.ToolsPending? && state.active.pending == calls
      else OwedCalls(state).None?
    ensures Analyze(s.history + [AssistantMessage(r)], state).Ok? <==> FreshCalls(s, Turns(r, false))
    ensures Analyze(s.history + [AssistantMessage(r)], state).Err? ==>
      Analyze(s.history + [AssistantMessage(r)], state).error == ReusedCallId
  {
    LinkOne(s.history, AssistantMessage(r));
  }

  /** What TurnState and ContinueForInserts leave, for any response. */
  predicate TurnShape(c: Change, r: Response) {
    var calls := RuntimeCalls(r.output);
    && c.fact.ModelTurn? && c.append == [AssistantMessage(r)] && c.replace.None?
    && c.planningSteps == 1 && c.toolCalls == 0 && c.usage == r.usage
    && c.fact == TurnFact(r, c.state)
    && match c.state
       case Limited(reason) => reason == MaxTotalTokens
       case Active(ToolsPending(pending, _)) => calls != [] && pending == calls
       case Active(Planning(_)) => calls == []
       case Completed(parts) => calls == [] && parts == VisibleParts(r.output)
       case _ => false
  }

  lemma TurnHasShape(limits: Limits, s: Snapshot, r: Response, waiting: bool)
    requires Allowed(s, Turns(r, waiting))
    ensures TurnShape(ChangeFor(limits, s, Turns(r, waiting)), r)
  {
  }

  lemma TurnFactValid(c: Change, r: Response)
    requires TurnShape(c, r) && ValidResponse(r)
    ensures ValidFact(c.fact) && ValidState(c.state)
  {
    var calls := RuntimeCalls(r.output);
    forall i | 0 <= i < |calls| ensures calls[i].id != "" { assert calls[i] in calls; }
  }

  lemma TurnView(s: Snapshot, c: Change, r: Response)
    requires TurnShape(c, r) && s.history != [] && s.state.Active? && s.state.active.Planning?
    ensures VerifyChange(Some(ViewOf(s)), c.fact, ViewOf(Next(s, c))) == None
  {
  }

  lemma TurnBoundary(s: Snapshot, c: Change, r: Response)
    requires TurnShape(c, r) && s.revision >= 0
    ensures BoundaryOk(Next(s, c), c.fact)
  {
    var history := s.history + [AssistantMessage(r)];
    assert history[|history| - 1] == AssistantMessage(r);
  }

  lemma TurnPasses(limits: Limits, s: Snapshot, r: Response, waiting: bool, id: Text)
    requires ValidSnapshot(s) && id != "" && Allowed(s, Turns(r, waiting))
    ensures var c := ChangeFor(limits, s, Turns(r, waiting));
      && ValidFact(c.fact)
      && (FreshCalls(s, Turns(r, waiting)) ==> Passes(s, c, id))
      && (!FreshCalls(s, Turns(r, waiting)) ==> Reduce(s, c, id) == Err(BadHistory(ReusedCallId)))
  {
    var c := ChangeFor(limits, s, Turns(r, waiting));
    TurnHasShape(limits, s, r, waiting);
    TurnFactValid(c, r);
    TurnLinks(s, r, c.state);
    TurnBoundary(s, c, r);
    TurnView(s, c, r);
    if FreshCalls(s, Turns(r, waiting)) { AllChecksPass(s, c, id); }
  }

  // ------------------------------------------------------------ tool batches

  lemma PrefixIds(calls: seq<ToolCall>, pending: seq<ToolCall>)
    requires calls <= pending && Unique(Ids(pending)) && NamedCalls(pending)
    ensures ValidIds(Ids(calls)) && Unique(Ids(pending[|calls|..]))
  {
    forall i | 0 <= i < |calls| ensures calls[i] == pending[i] {}
  }

  lemma {:induction false} WaitingFound(results: seq<ToolResult>)
    requires forall i :: 0 <= i < |results| ==> ProperResult(results[i])
    ensures FirstWaiting(results).Some? <==> Waiting in Outcomes(results)
    ensures FirstWaiting(results).Some? ==> ProperSuspension(FirstWaiting(results).value)
  {
    if results != [] {
      WaitingFound(results[1..]);
      var kinds := Outcomes(results);
      assert kinds == [results[0].outcome.Kind()] + Outcomes(results[1..]);
    }
  }

  lemma PendingNamed(s: Snapshot)
    requires ValidSnapshot(s) && s.state.Active? && s.state.active.ToolsPending?
    ensures NamedCalls(s.state.active.pending) && Unique(Ids(s.state.active.pending))
  {
    UnresolvedNamed(NOTHING_LINKED, s.history);
  }

  lemma BatchFactValid(s: Snapshot, batch: Batch, results: seq<ToolResult>, pause: Option<Suspension>)
    requires ValidSnapshot(s) && Allowed(s, Batches(batch, results, pause))
    ensures var c := BatchChange(s.state.active, batch, results, pause);
      && (ValidFact(c.fact) <==> NamedKeys(FactKeys(Batches(batch, results, pause))))
      && ValidState(c.state) && (c.state.Suspended? ==> ValidSuspension(c.state.suspension))
  {
    hide LinkFrom, ValidMessage;
    var a := s.state.active;
    PendingNamed(s);
    PrefixIds(batch.calls, a.pending);
    WaitingFound(results);
    var suspension := BatchSuspension(results, pause);
    if suspension.Some? { ValidKeysOf(Keys(suspension.value.metadata)); }
  }

  lemma BatchLinks(s: Snapshot, batch: Batch, results: seq<ToolResult>, pause: Option<Suspension>)
    requires ValidSnapshot(s) && Allowed(s, Batches(batch, results, pause))
    ensures var c := BatchChange(s.state.active, batch, results, pause);
      Analyze(s.history + c.append, c.state).Ok?
  {
    var a, c := s.state.active, BatchChange(s.state.active, batch, results, pause);
    var l := Link(s.history).value;
    assert l.unresolved == a.pending && c.append == ToolMessages(batch.calls, results);
    LinkConcat(NOTHING_LINKED, s.history, c.append);
    LinkResults(l, batch.calls, results);
    BatchSettles(a, batch, results, pause);
  }

  /** What a batch leaves unresolved is what its state still owes. */
  lemma BatchSettles(a: ActiveState, batch: Batch, results: seq<ToolResult>, pause: Option<Suspension>)
    requires a.ToolsPending? && batch.calls <= a.pending && |results| == |batch.calls|
    ensures Settle(a.pending[|batch.calls|..], BatchChange(a, batch, results, pause).state).None?
  {
    hide BatchSuspension, ToolMessages, Outcomes;
  }

  lemma BatchBoundary(s: Snapshot, batch: Batch, results: seq<ToolResult>, pause: Option<Suspension>)
    requires ValidSnapshot(s) && Allowed(s, Batches(batch, results, pause))
    ensures var c := BatchChange(s.state.active, batch, results, pause);
      BoundaryOk(Next(s, c), c.fact)
  {
    hide ValidSnapshot, ProperResult, BatchSuspension, ValidSuspension;
    var c := BatchChange(s.state.active, batch, results, pause);
    BatchTail(s.history, batch.calls, results);
    assert Next(s, c).revision > 0 by { SnapshotRevision(s); }
  }

  lemma SnapshotRevision(s: Snapshot)
    requires ValidSnapshot(s)
    ensures s.revision >= 0 && s.history != []
  {
  }

  /** The tool messages at the end of the history answer the calls of the batch in order. */
  lemma BatchTail(history: seq<Message>, calls: seq<ToolCall>, results: seq<ToolResult>)
    requires |calls| == |results|
    ensures var next := history + ToolMessages(calls, results);
      && next[|next| - |calls|..] == ToolMessages(calls, results)
      && forall i :: 0 <= i < |calls| ==>
           && ToolMessages(calls, results)[i].role == Tool
           && ToolMessages(calls, results)[i].toolCallId == Some(Ids(calls)[i])
           && KindOf(ToolMessages(calls, results)[i]) == Some(Outcomes(results)[i])
  {
  }

  /** Taking a batch off the pending ids leaves the digest of the rest. */
  lemma BatchDigest(batch: Batch, pending: seq<ToolCall>)
    requires batch.calls <= pending
    ensures var rest := pending[|batch.calls|..];
      && ComposeIds(Ids(batch.calls), IdsDigest(Ids(rest))) == IdsDigest(Ids(pending))
      && (rest == [] ==> IdsDigest(Ids(rest)) == NoIds)
  {
    P.DigestAdvances(pending, |batch.calls|);
    assert pending[..|batch.calls|] == batch.calls;
  }

  /** The view half of a batch, once the digest is known to compose. */
  lemma BatchAdvances(s: Snapshot, batch: Batch, results: seq<ToolResult>, pause: Option<Suspension>)
    requires s.state.Active? && s.state.active.ToolsPending? && batch.calls <= s.state.active.pending
    requires |results| == |batch.calls|
    ensures var c := BatchChange(s.state.active, batch, results, pause);
      AdvanceView(Some(ViewOf(s)), c.fact, ViewOf(Next(s, c))) == Ok(ViewOf(Next(s, c)))
  {
    BatchDigest(batch, s.state.active.pending);
  }

  lemma BatchView(s: Snapshot, batch: Batch, results: seq<ToolResult>, pause: Option<Suspension>)
    requires ValidSnapshot(s) && Allowed(s, Batches(batch, results, pause))
    ensures var c := BatchChange(s.state.active, batch, results, pause);
      VerifyChange(Some(ViewOf(s)), c.fact, ViewOf(Next(s, c))) == None
  {
    BatchAdvances(s, batch, results, pause);
  }

  lemma BatchMessagesValid(s: Snapshot, batch: Batch, results: seq<ToolResult>)
    requires ValidSnapshot(s) && s.state.Active? && s.state.active.ToolsPending?
    requires batch.calls <= s.state.active.pending && |results| == |batch.calls|
    ensures var messages := ToolMessages(batch.calls, results);
      forall i :: 0 <= i < |messages| ==> ValidMessage(messages[i])
  {
    UnresolvedNamed(NOTHING_LINKED, s.history);
  }

  lemma BatchPasses(s: Snapshot, batch: Batch, results: seq<ToolResult>, pause: Option<Suspension>, id: Text)
    requires ValidSnapshot(s) && id != "" && Allowed(s, Batches(batch, results, pause))
    ensures var c := BatchChange(s.state.active, batch, results, pause);
      && (ValidFact(c.fact) <==> NamedKeys(FactKeys(Batches(batch, results, pause))))
      && (NamedKeys(FactKeys(Batches(batch, results, pause))) ==> Passes(s, c, id))
  {
    BatchFactValid(s, batch, results, pause);
    BatchLinks(s, batch, results, pause);
    BatchBoundary(s, batch, results, pause);
    BatchView(s, batch, results, pause);
    BatchMessagesValid(s, batch, results);
    var c := BatchChange(s.state.active, batch, results, pause);
    if ValidFact(c.fact) { AllChecksPass(s, c, id); }
  }

  // ------------------------------------------------------------ main result

  /**
   * From a valid snapshot, a change the engine builds can be constructed exactly
   * when its metadata keys are non-empty; once constructed it is committed
   * exactly when its call ids are new, and then both checkers accept it and the
   * next snapshot is valid again. Otherwise the reducer raises.
   */
  lemma ChangePasses(limits: Limits, s: Snapshot, cause: Cause, id: Text)
    requires ValidSnapshot(s) && Allowed(s, cause) && id != ""
    ensures ValidFact(ChangeFor(limits, s, cause).fact) <==> NamedKeys(FactKeys(cause))
    ensures NamedKeys(FactKeys(cause)) && FreshCalls(s, cause) ==> Passes(s, ChangeFor(limits, s, cause), id)
    ensures !FreshCalls(s, cause) ==> Reduce(s, ChangeFor(limits, s, cause), id) == Err(BadHistory(ReusedCallId))
  {
    match cause
    case Fails(code, message) => FailurePasses(s, code, message, id);
    case HitsLimit(reason) => LimitPasses(s, reason, id);
    case Pauses(suspension) => PausePasses(s, suspension, id);
    case Inserts(insert) => InsertPasses(s, insert, id);
    case Resumes(append, metadata) => ResumePasses(s, append, metadata, id);
    case Rewrites(messages, reason, metadata) => RewritePasses(s, messages, reason, metadata, id);
    case Turns(response, waiting) => TurnPasses(limits, s, response, waiting, id);
    case Batches(batch, results, pause) => BatchPasses(s, batch, results, pause, id);
  }
}
