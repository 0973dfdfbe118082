/**
 * What a tool step leads to, stated on the policy's batch, the approvals, the
 * schedule and the events (_engine/tooling.py, ToolStep and execute).
 */
module ToolEndings {
  import opened Wrappers
  import opened Messages
  import opened Digests
  import opened State
  import opened Checkpoints
  import opened Changes
  import opened Commits
  import opened Trace
  import opened ToolExecution
  import opened Rounds
  import opened Progress
  import opened Endings

  // ------------------------------------------------------------- selection

  /** A batch the step may run: a prefix of the owed calls within both limits, parallel only if every tool is safe. */
  predicate MayRun(cfg: Config, s: Snapshot, pending: seq<ToolCall>, b: Batch) {
    && b.id != "" && b.calls <= pending && 1 <= |b.calls| <= cfg.limits.maxToolBatchSize
    && s.metrics.toolCalls + |b.calls| <= cfg.limits.maxToolCalls
    && if b.parallel then forall i :: 0 <= i < |b.calls| ==> b.calls[i].name in cfg.parallelSafe else |b.calls| == 1
  }

  lemma ChosenExactly(cfg: Config, s: Snapshot, pending: seq<ToolCall>, input: ToolInput)
    requires ValidLimits(cfg.limits) && Unique(Ids(pending))
    ensures Chosen(cfg, s, pending, input)
         == if input.proposal.Some? && MayRun(cfg, s, pending, input.proposal.value) then input.proposal else None
  {
    if input.proposal.Some? {
      var b := input.proposal.value;
      if b.calls <= pending {
        assert forall i :: 0 <= i < |b.calls| ==> Ids(b.calls)[i] == Ids(pending)[i];
        assert Unique(Ids(b.calls));
        if ToolCapacity(cfg, s) > 0 {
          assert b.calls <= Selectable(cfg.limits, pending, ToolCapacity(cfg, s))
            <==> |b.calls| <= |Selectable(cfg.limits, pending, ToolCapacity(cfg, s))|;
        }
      } else if ToolCapacity(cfg, s) > 0 {
        assert Selectable(cfg.limits, pending, ToolCapacity(cfg, s)) <= pending;
      }
    }
  }

  /** The pass comes to its tool step. */
  predicate RunsTools(l: Loop, r: Round) {
    GoesOn(l, r) && l.checkpoint.snapshot.state.Active? && l.checkpoint.snapshot.state.active.ToolsPending?
  }

  /** What waits when the tool step begins. */
  function WaitingBefore(l: Loop, r: Round): seq<Insert>
    requires r.boundary.Polled?
  {
    l.deferred + r.boundary.inserts
  }

  lemma ToolsAhead(cfg: Config, l: Loop, r: Round)
    requires ValidLoop(l) && LegalRound(cfg, l, r) && RunsTools(l, r)
    ensures var s := l.checkpoint.snapshot;
      && Unique(Ids(s.state.active.pending)) && LegalTools(cfg, s, s.state.active.pending, r.tools)
      && Pass(cfg, l, r) == ToolPass(cfg, s, s.state.active.pending, WaitingBefore(l, r), l.skipReducer, r.tools)
  {
    hide LegalTools, ToolPass, ValidLimits;
  }

  /** With no calls left in the limit the run is limited; a batch that may not run fails it. */
  lemma SelectionEnds(cfg: Config, l: Loop, r: Round)
    requires ValidLoop(l) && LegalRound(cfg, l, r) && r.timing == OnTime && RunsTools(l, r)
    ensures var s, k := l.checkpoint.snapshot, Kept(WaitingBefore(l, r), l.skipReducer, []);
      && (s.metrics.toolCalls >= cfg.limits.maxToolCalls ==> Leads(cfg, l, r, k, HitsLimit(MaxToolCalls)))
      && (s.metrics.toolCalls < cfg.limits.maxToolCalls
          && !(r.tools.proposal.Some? && MayRun(cfg, s, s.state.active.pending, r.tools.proposal.value)) ==>
            Leads(cfg, l, r, k, Fails("tool_protocol_error", "invalid batch")))
  {
    hide Leads, ValidLoop, LegalRound, BatchPass, MayRun, Chosen, LegalTools, Pass;
    PlanLeads(cfg, l, r);
    ToolsAhead(cfg, l, r);
    assert ValidLimits(cfg.limits) by { LimitsValid(cfg, l, r); }
    ChosenExactly(cfg, l.checkpoint.snapshot, l.checkpoint.snapshot.state.active.pending, r.tools);
  }

  lemma LimitsValid(cfg: Config, l: Loop, r: Round)
    requires LegalRound(cfg, l, r)
    ensures ValidLimits(cfg.limits)
  {
  }

  // -------------------------------------------------------------- approvals

  /** A call that runs if it is approved: its arguments parse and it binds. */
  predicate Bindable(call: ToolCall, binds: bool) { binds && !(call.Structured? && call.arguments.None?) }

  /** The places of exactly the calls that can run, in batch order: one approval request each. */
  predicate Lists(asked: seq<nat>, calls: seq<ToolCall>, binds: seq<bool>)
    requires |binds| == |calls|
  {
    && (forall k :: 0 <= k < |asked| ==> asked[k] < |calls|)
    && (forall k, m :: 0 <= k < m < |asked| ==> asked[k] < asked[m])
    && (forall i :: 0 <= i < |calls| ==> (i in asked <==> Bindable(calls[i], binds[i])))
  }

  lemma {:induction false} RequestsList(calls: seq<ToolCall>, binds: seq<bool>, i: nat)
    requires |binds| == |calls| && i <= |calls|
    ensures forall j :: i <= j < |calls| ==> (j in Requests(Prepare(calls, binds), i) <==> Bindable(calls[j], binds[j]))
    decreases |calls| - i
  {
    if i < |calls| { RequestsList(calls, binds, i + 1); }
  }

  /** Two increasing lists of the same places are the same list. */
  lemma {:induction false} SameList(a: seq<nat>, b: seq<nat>)
    requires forall k, m :: 0 <= k < m < |a| ==> a[k] < a[m]
    requires forall k, m :: 0 <= k < m < |b| ==> b[k] < b[m]
    requires forall x :: x in a <==> x in b
    ensures a == b
    decreases |a|
  {
    assert forall k :: 0 <= k < |a| ==> a[k] in b;
    assert forall k :: 0 <= k < |b| ==> b[k] in a;
    if a != [] {
      assert a[0] in b && b[0] in a;
      assert a[0] == b[0];
      forall x ensures x in a[1..] <==> x in b[1..] {
        if x in a[1..] {
          var k :| 0 <= k < |a| - 1 && a[1..][k] == x;
          assert a[k + 1] == x && x != a[0] && x in b;
        }
        if x in b[1..] {
          var k :| 0 <= k < |b| - 1 && b[1..][k] == x;
          assert b[k + 1] == x && x != b[0] && x in a;
        }
      }
      SameList(a[1..], b[1..]);
    }
  }

  lemma AskedAre(asked: seq<nat>, calls: seq<ToolCall>, binds: seq<bool>)
    requires |binds| == |calls|
    ensures Lists(asked, calls, binds) <==> asked == Requests(Prepare(calls, binds), 0)
  {
    var requests := Requests(Prepare(calls, binds), 0);
    RequestsList(calls, binds, 0);
    assert Lists(requests, calls, binds);
    if Lists(asked, calls, binds) {
      forall x ensures x in asked <==> x in requests {}
      SameList(asked, requests);
    }
  }

  function Requested(b: Batch, asked: seq<nat>): seq<Event>
    requires InRange(asked, |b.calls|)
  {
    seq(|asked|, k requires 0 <= k < |asked| => ApprovalRequested(b.id, asked[k], b.calls[asked[k]].id))
  }

  function DecidedUpTo(answers: seq<Answer>, n: nat): seq<Event>
    requires n <= |answers|
  {
    seq(n, k requires 0 <= k < n => ApprovalDecided(answers[k].callId))
  }

  lemma {:induction false} RequestsAre(b: Batch, asked: seq<nat>)
    requires InRange(asked, |b.calls|)
    ensures RequestEvents(b, asked) == Requested(b, asked)
  {
    if asked != [] {
      RequestsAre(b, asked[1..]);
      assert Requested(b, asked)
        == [ApprovalRequested(b.id, asked[0], b.calls[asked[0]].id)] + Requested(b, asked[1..]);
    }
  }

  lemma {:induction false} DecisionsAre(answers: seq<Answer>, n: nat)
    requires n <= |answers|
    ensures DecisionEvents(answers[..n]) == DecidedUpTo(answers, n)
    decreases n
  {
    if n > 0 {
      DecisionsAre(answers[1..], n - 1);
      assert answers[..n][1..] == answers[1..][..n - 1];
      assert DecidedUpTo(answers, n) == [ApprovalDecided(answers[0].callId)] + DecidedUpTo(answers[1..], n - 1);
    }
  }

  /** Exactly the first n answers are for the call they should be for: all of them, or answer n is not. */
  predicate FitsUpTo(b: Batch, asked: seq<nat>, answers: seq<Answer>, n: nat)
    requires InRange(asked, |b.calls|)
  {
    && n <= |asked| == |answers|
    && (forall k :: 0 <= k < n ==> answers[k].callId == b.calls[asked[k]].id)
    && (n < |asked| ==> answers[n].callId != b.calls[asked[n]].id)
  }

  lemma {:induction false} AgreeingFits(b: Batch, asked: seq<nat>, answers: seq<Answer>, n: nat)
    requires InRange(asked, |b.calls|) && |asked| == |answers|
    ensures FitsUpTo(b, asked, answers, n) <==> n == Agreeing(b, asked, answers)
    decreases |asked|
  {
    if asked != [] && answers[0].callId == b.calls[asked[0]].id {
      if n > 0 {
        AgreeingFits(b, asked[1..], answers[1..], n - 1);
        if FitsUpTo(b, asked[1..], answers[1..], n - 1) {
          forall k | 0 <= k < n ensures answers[k].callId == b.calls[asked[k]].id {
            if k > 0 { assert answers[1..][k - 1] == answers[k] && asked[1..][k - 1] == asked[k]; }
          }
        }
        if FitsUpTo(b, asked, answers, n) {
          assert forall k :: 0 <= k < n - 1 ==> answers[1..][k] == answers[k + 1] && asked[1..][k] == asked[k + 1];
        }
      }
    }
  }

  /** Answer k suspends, and none before it does. */
  predicate SuspendsFirst(answers: seq<Answer>, k: nat) {
    k < |answers| && answers[k].SuspendCall? && forall m :: 0 <= m < k ==> !answers[m].SuspendCall?
  }

  predicate NoneSuspends(answers: seq<Answer>) { forall k :: 0 <= k < |answers| ==> !answers[k].SuspendCall? }

  lemma {:induction false} SuspendFound(answers: seq<Answer>, k: nat)
    ensures SuspendsFirst(answers, k) ==> FirstSuspend(answers) == Some(answers[k].suspension)
    ensures NoneSuspends(answers) <==> FirstSuspend(answers).None?
    decreases |answers|
  {
    if answers != [] && !answers[0].SuspendCall? {
      SuspendFound(answers[1..], if k > 0 then k - 1 else 0);
      assert forall m :: 0 <= m < |answers| - 1 ==> answers[1..][m] == answers[m + 1];
      if NoneSuspends(answers[1..]) {
        forall m | 0 <= m < |answers| ensures !answers[m].SuspendCall? {
          if m > 0 { assert answers[1..][m - 1] == answers[m]; }
        }
      }
    }
  }

  // ------------------------------------------------------- after the approval

  /** The answer to the request for call i denies it. */
  predicate DeniedBy(asked: seq<nat>, answers: seq<Answer>, i: nat, k: int) {
    0 <= k < |asked| == |answers| && asked[k] == i && answers[k].Deny?
  }

  /** The failure a call gets without running. */
  function Refusal(code: Text, message: Text): ToolResult {
    Settled(FailureOutcome([ContentPart("text", Some(message), None, None, None, None, [], [])], Null,
                           ErrorInfo(code, message)))
  }

  /** Call i as it goes on: decided as a failure if it does not parse, bind or get its approval, and bound otherwise. */
  ghost predicate GoesOnAs(call: ToolCall, binds: bool, asked: seq<nat>, answers: seq<Answer>, i: nat, p: Prepared) {
    if call.Structured? && call.arguments.None? then
      p == Decided(call, Refusal("invalid_tool_call", "structured tool arguments are not a JSON object"))
    else if !binds then p == Decided(call, Refusal("invalid_tool_call", "tool call does not bind"))
    else if exists k :: DeniedBy(asked, answers, i, k) then
      exists k :: DeniedBy(asked, answers, i, k) && p == Decided(call, Refusal("approval_denied", answers[k].reason))
    else p == Bound(call)
  }

  /** The calls of a batch as they go on after their approval. */
  ghost predicate SetUpAs(b: Batch, binds: seq<bool>, asked: seq<nat>, answers: seq<Answer>, prepared: seq<Prepared>) {
    && |prepared| == |b.calls| == |binds|
    && forall i :: 0 <= i < |b.calls| ==> GoesOnAs(b.calls[i], binds[i], asked, answers, i, prepared[i])
  }

  /** Denials change exactly the places asked about, with the reason of their own answer. */
  lemma {:induction false} DenialsAre(prepared: seq<Prepared>, asked: seq<nat>, answers: seq<Answer>, i: nat)
    requires |asked| == |answers| && InRange(asked, |prepared|) && i < |prepared|
    requires forall k, m :: 0 <= k < m < |asked| ==> asked[k] < asked[m]
    ensures (forall k :: !DeniedBy(asked, answers, i, k)) ==> ApplyDenials(prepared, asked, answers)[i] == prepared[i]
    ensures forall k :: DeniedBy(asked, answers, i, k) ==>
      ApplyDenials(prepared, asked, answers)[i]
        == Decided(prepared[i].call, Refusal("approval_denied", answers[k].reason))
    decreases |asked|
  {
    if asked != [] {
      var j, d := asked[0], answers[0];
      var next := if d.Deny? then
        prepared[j := Decided(prepared[j].call, FailureResult("approval_denied", d.reason))] else prepared;
      DenialsAre(next, asked[1..], answers[1..], i);
      forall k ensures DeniedBy(asked[1..], answers[1..], i, k) ==> DeniedBy(asked, answers, i, k + 1) {}
      assert DeniedBy(asked, answers, i, 0) <==> j == i && d.Deny?;
      forall k | DeniedBy(asked, answers, i, k)
        ensures ApplyDenials(prepared, asked, answers)[i]
             == Decided(prepared[i].call, Refusal("approval_denied", answers[k].reason))
      {
        if k > 0 { assert DeniedBy(asked[1..], answers[1..], i, k - 1); }
        else { assert forall m :: 0 < m < |asked| ==> asked[m] != i; }
      }
    }
  }

  /** A batch the step goes on with. */
  predicate RunsBatch(cfg: Config, l: Loop, r: Round, b: Batch) {
    && RunsTools(l, r) && r.tools.proposal == Some(b) && |r.tools.binds| == |b.calls|
    && MayRun(cfg, l.checkpoint.snapshot, l.checkpoint.snapshot.state.active.pending, b)
  }

  lemma BatchAhead(cfg: Config, l: Loop, r: Round, b: Batch)
    requires ValidLoop(l) && LegalRound(cfg, l, r) && RunsBatch(cfg, l, r, b)
    ensures ValidLimits(cfg.limits) && Unique(Ids(b.calls)) && b.calls <= l.checkpoint.snapshot.state.active.pending
    ensures var pending := l.checkpoint.snapshot.state.active.pending;
      var approved := Approve(cfg, b, Prepare(b.calls, r.tools.binds), r.tools.approval);
      && (approved.ApprovedCalls? ==> Scheduled(Setup(b, approved.prepared, cfg.limits), r.tools))
      && Pass(cfg, l, r) == BatchPass(cfg, pending, b, WaitingBefore(l, r), l.skipReducer, r.tools)
  {
    hide Pass, LegalRound, ValidLoop, MayRun, Chosen, BatchPass, ValidLimits, Approve;
    var s := l.checkpoint.snapshot;
    ToolsAhead(cfg, l, r);
    LimitsValid(cfg, l, r);
    ChosenExactly(cfg, s, s.state.active.pending, r.tools);
    StaysUnique(cfg, s, s.state.active.pending, b);
  }

  lemma StaysUnique(cfg: Config, s: Snapshot, pending: seq<ToolCall>, b: Batch)
    requires MayRun(cfg, s, pending, b) && Unique(Ids(pending))
    ensures Unique(Ids(b.calls)) && s.metrics.toolCalls < cfg.limits.maxToolCalls && b.calls <= pending
  {
    assert forall i :: 0 <= i < |b.calls| ==> Ids(b.calls)[i] == Ids(pending)[i];
  }

  /** The step announces its batch: the calls it takes, and how many and which it leaves. */
  function Announced(pending: seq<ToolCall>, b: Batch): Event
    requires |b.calls| <= |pending|
  {
    ToolBatchSelected(b.id, Ids(b.calls), b.parallel, |pending| - |b.calls|, IdsDigest(Ids(pending[|b.calls|..])))
  }

  /** What is kept when a batch has been announced and some events have followed. */
  function AfterBatchEvents(l: Loop, r: Round, b: Batch, events: seq<Event>): Kept
    requires RunsTools(l, r) && |b.calls| <= |l.checkpoint.snapshot.state.active.pending|
  {
    Kept(WaitingBefore(l, r), l.skipReducer, [Announced(l.checkpoint.snapshot.state.active.pending, b)] + events)
  }

  /** What an exchange comes to, by its answers alone. */
  lemma ExchangeEnds(cfg: Config, b: Batch, binds: seq<bool>, asked: seq<nat>, input: ApprovalInput)
    requires |binds| == |b.calls| && cfg.hasApproval && asked != []
    requires asked == Requests(Prepare(b.calls, binds), 0)
    ensures var prepared, requested := Prepare(b.calls, binds), Requested(b, asked);
      var approved, events := Approve(cfg, b, prepared, input), ApprovalEvents(cfg, b, prepared, input);
      && (!input.Answered? || |input.answers| != |asked| ==> approved == ApprovalBroken && events == requested)
      && (input.Answered? ==>
            && (forall n: nat :: FitsUpTo(b, asked, input.answers, n) ==>
                  events == requested + DecidedUpTo(input.answers, n)
                  && (n < |asked| ==> approved == ApprovalBroken))
            && (forall k: nat :: FitsUpTo(b, asked, input.answers, |asked|) && SuspendsFirst(input.answers, k) ==>
                  approved == ApprovalPause(input.answers[k].suspension))
            && (FitsUpTo(b, asked, input.answers, |asked|) && NoneSuspends(input.answers) ==>
                  approved == ApprovedCalls(ApplyDenials(prepared, asked, input.answers))))
  {
    hide Requested, DecidedUpTo, FitsUpTo, SuspendsFirst, NoneSuspends, Agreeing, ApplyDenials, FirstSuspend,
      RequestEvents, DecisionEvents, Prepare;
    RequestsAre(b, asked);
    assert Requested(b, asked) + [] == Requested(b, asked);
    if input.Answered? && |input.answers| == |asked| {
      DecisionsAre(input.answers, Agreeing(b, asked, input.answers));
    } else {
      NothingDecided();
    }
    if input.Answered? { AnswersAre(b, asked, input.answers); }
  }

  lemma NothingDecided()
    ensures DecisionEvents([]) == []
  {
  }

  lemma AnswersAre(b: Batch, asked: seq<nat>, answers: seq<Answer>)
    requires InRange(asked, |b.calls|)
    ensures forall n: nat :: FitsUpTo(b, asked, answers, n) ==>
      |asked| == |answers| && n == Agreeing(b, asked, answers)
    ensures forall k: nat :: SuspendsFirst(answers, k) ==> FirstSuspend(answers) == Some(answers[k].suspension)
    ensures NoneSuspends(answers) <==> FirstSuspend(answers).None?
  {
    forall n: nat | FitsUpTo(b, asked, answers, n) ensures |asked| == |answers| && n == Agreeing(b, asked, answers) {
      AgreeingFits(b, asked, answers, n);
    }
    forall k: nat | SuspendsFirst(answers, k) ensures FirstSuspend(answers) == Some(answers[k].suspension) {
      SuspendFound(answers, k);
    }
    SuspendFound(answers, 0);
  }

  /**
   * An approval exchange that does not go ahead: no answers in time limit the
   * run, a raise or answers that do not fit fail it after the decisions that
   * did, and a fitting exchange with a suspension suspends it with the first.
   */
  lemma ApprovalEnds(cfg: Config, l: Loop, r: Round, b: Batch, asked: seq<nat>)
    requires ValidLoop(l) && LegalRound(cfg, l, r) && r.timing == OnTime && RunsBatch(cfg, l, r, b)
    requires cfg.hasApproval && asked != [] && Lists(asked, b.calls, r.tools.binds)
    ensures var requested := Requested(b, asked);
      var broken := Fails("tool_protocol_error", "approval failed");
      match r.tools.approval
      case ApprovalTimedOut => Leads(cfg, l, r, AfterBatchEvents(l, r, b, requested), HitsLimit(DeadlineReached))
      case ApprovalRaised => Leads(cfg, l, r, AfterBatchEvents(l, r, b, requested), broken)
      case Answered(answers) =>
        && (|answers| != |asked| ==> Leads(cfg, l, r, AfterBatchEvents(l, r, b, requested), broken))
        && (forall n: nat :: FitsUpTo(b, asked, answers, n) && n < |asked| ==>
              Leads(cfg, l, r, AfterBatchEvents(l, r, b, requested + DecidedUpTo(answers, n)), broken))
        && (forall k: nat :: FitsUpTo(b, asked, answers, |asked|) && SuspendsFirst(answers, k) ==>
              Leads(cfg, l, r, AfterBatchEvents(l, r, b, requested + DecidedUpTo(answers, |asked|)),
                    Pauses(answers[k].suspension)))
  {
    hide Pass, LegalRound, ValidLoop, MayRun, Leads, FitsUpTo, DecidedUpTo, Requested, Scheduled, SuspendsFirst,
      Approve, ApprovalEvents, Lists;
    PlanLeads(cfg, l, r);
    BatchAhead(cfg, l, r, b);
    AskedAre(asked, b.calls, r.tools.binds);
    ExchangeEnds(cfg, b, r.tools.binds, asked, r.tools.approval);
  }

  // ------------------------------------------------------------- the tools

  /** The approval lets the batch go on: nobody is asked, or every answer fits and none suspends. */
  predicate GoesAhead(cfg: Config, b: Batch, asked: seq<nat>, input: ApprovalInput)
    requires InRange(asked, |b.calls|)
  {
    || !cfg.hasApproval || asked == []
    || (input.Answered? && FitsUpTo(b, asked, input.answers, |asked|) && NoneSuspends(input.answers))
  }

  /** The answers that count: none when nobody is asked. */
  function Counting(cfg: Config, asked: seq<nat>, input: ApprovalInput): seq<Answer> {
    if cfg.hasApproval && asked != [] && input.Answered? then input.answers else []
  }

  /** The events of an exchange that goes ahead. */
  function Exchanged(cfg: Config, b: Batch, asked: seq<nat>, input: ApprovalInput): seq<Event>
    requires InRange(asked, |b.calls|) && GoesAhead(cfg, b, asked, input)
  {
    if !cfg.hasApproval || asked == [] then [] else Requested(b, asked) + DecidedUpTo(input.answers, |asked|)
  }

  lemma SetUpIsApproved(cfg: Config, b: Batch, binds: seq<bool>, asked: seq<nat>, input: ApprovalInput,
                        prepared: seq<Prepared>)
    requires |binds| == |b.calls| && Lists(asked, b.calls, binds) && GoesAhead(cfg, b, asked, input)
    requires SetUpAs(b, binds, asked, Counting(cfg, asked, input), prepared)
    ensures Approve(cfg, b, Prepare(b.calls, binds), input) == ApprovedCalls(prepared)
    ensures ApprovalEvents(cfg, b, Prepare(b.calls, binds), input) == Exchanged(cfg, b, asked, input)
  {
    var first, answers := Prepare(b.calls, binds), Counting(cfg, asked, input);
    AskedAre(asked, b.calls, binds);
    if cfg.hasApproval && asked != [] {
      ExchangeEnds(cfg, b, binds, asked, input);
      assert |answers| == |asked|;
      PreparedAre(b, binds, asked, answers, prepared, ApplyDenials(first, asked, answers));
    } else {
      PreparedAre(b, binds, asked, answers, prepared, first);
    }
  }

  /** A set-up is fixed by the binding and the answers. */
  lemma PreparedAre(b: Batch, binds: seq<bool>, asked: seq<nat>, answers: seq<Answer>, prepared: seq<Prepared>,
                    made: seq<Prepared>)
    requires |binds| == |b.calls| && Lists(asked, b.calls, binds) && SetUpAs(b, binds, asked, answers, prepared)
    requires answers == [] || |answers| == |asked|
    requires made == if |answers| == |asked| then ApplyDenials(Prepare(b.calls, binds), asked, answers)
                     else Prepare(b.calls, binds)
    ensures made == prepared
  {
    var first := Prepare(b.calls, binds);
    forall i | 0 <= i < |b.calls| ensures made[i] == prepared[i] {
      assert GoesOnAs(b.calls[i], binds[i], asked, answers, i, prepared[i]);
      if |answers| == |asked| { DenialsAre(first, asked, answers, i); }
    }
  }

  /** The pause and the inserts a schedule delivers while tools run: the first pause, and every insert in order. */
  function FirstPause(steps: seq<Step>): Option<Suspension> {
    if steps == [] then None
    else if steps[0].Advance? && steps[0].control.Some? && steps[0].control.value.PauseControl? then
      Some(steps[0].control.value.suspension)
    else FirstPause(steps[1..])
  }

  function InsertsOf(steps: seq<Step>): seq<Insert> {
    if steps == [] then []
    else if steps[0].Advance? && steps[0].control.Some? && steps[0].control.value.InsertControl? then
      [steps[0].control.value.insert] + InsertsOf(steps[1..])
    else InsertsOf(steps[1..])
  }

  lemma {:induction false} ReportsKeepControls(s: Setup, e: Exec)
    requires OrderReturned(e) && |e.tasks| == |s.batch.calls|
    ensures AllReported(s, e).pause == e.pause && AllReported(s, e).inserts == e.inserts
    decreases |e.order|
  {
    if e.order != [] {
      ReportKeepsOrder(s, e);
      ReportsKeepControls(s, ReportHead(s, e));
    }
  }

  lemma {:induction false} PauseArrives(s: Setup, e: Exec, steps: seq<Step>)
    requires Inv(s, e) && Legal(s, e, steps)
    ensures RunSteps(s, e, steps).pause == if e.pause.Some? then e.pause else FirstPause(steps)
    decreases |steps|
  {
    hide Do, Enabled, Done, PermitsConserved, ProgressFlies, ActiveRuns, ProperResults;
    if steps != [] {
      StepInv(s, e, steps[0]);
      ControlArrives(s, e, steps[0]);
      PauseArrives(s, Do(s, e, steps[0]), steps[1..]);
      hide FirstPause;
      FirstStep(steps);
    }
  }

  lemma {:induction false} InsertsArrive(s: Setup, e: Exec, steps: seq<Step>)
    requires Inv(s, e) && Legal(s, e, steps)
    ensures RunSteps(s, e, steps).inserts == e.inserts + InsertsOf(steps)
    decreases |steps|
  {
    hide Do, Enabled, Done, PermitsConserved, ProgressFlies, ActiveRuns, ProperResults;
    if steps == [] {
      assert e.inserts + [] == e.inserts;
    } else {
      hide InsertsOf;
      StepInv(s, e, steps[0]);
      ControlArrives(s, e, steps[0]);
      InsertsArrive(s, Do(s, e, steps[0]), steps[1..]);
      FirstStep(steps);
      JoinThree(e.inserts, InsertsOf([steps[0]]), InsertsOf(steps[1..]));
    }
  }

  lemma JoinThree(a: seq<Insert>, b: seq<Insert>, c: seq<Insert>)
    ensures a + b + c == a + (b + c)
  {
  }

  lemma FirstStep(steps: seq<Step>)
    requires steps != []
    ensures FirstPause(steps)
         == if FirstPause([steps[0]]).Some? then FirstPause([steps[0]]) else FirstPause(steps[1..])
    ensures InsertsOf(steps) == InsertsOf([steps[0]]) + InsertsOf(steps[1..])
  {
    assert [steps[0]][1..] == [];
  }

  lemma ControlArrives(s: Setup, e: Exec, step: Step)
    requires Inv(s, e) && Enabled(s, e, step)
    ensures var next := Do(s, e, step);
      && next.pause == (if e.pause.Some? then e.pause else FirstPause([step]))
      && next.inserts == e.inserts + InsertsOf([step])
  {
    assert OrderReturned(e) && |e.tasks| == |s.batch.calls|;
    hide Inv, AllReported, ValidSetup, OrderReturned;
    OneStep(step);
    assert e.inserts + [] == e.inserts;
    hide FirstPause, InsertsOf;
    if step.Advance? {
      AdvanceArrives(s, e, step.control);
    } else {
      OthersKeepControls(s, e, step);
    }
  }

  lemma OneStep(step: Step)
    ensures FirstPause([step])
         == if step.Advance? && step.control.Some? && step.control.value.PauseControl?
            then Some(step.control.value.suspension) else None
    ensures InsertsOf([step])
         == if step.Advance? && step.control.Some? && step.control.value.InsertControl?
            then [step.control.value.insert] else []
  {
    assert [step][1..] == [];
  }

  lemma OthersKeepControls(s: Setup, e: Exec, step: Step)
    requires OrderReturned(e) && |e.tasks| == |s.batch.calls| && Enabled(s, e, step) && !step.Advance?
    ensures Do(s, e, step).pause == e.pause && Do(s, e, step).inserts == e.inserts
  {
    hide OrderReturned, ResultOf;
  }

  lemma AdvanceArrives(s: Setup, e: Exec, control: Option<Control>)
    requires OrderReturned(e) && |e.tasks| == |s.batch.calls|
    ensures var next := DoAdvance(s, e, control);
      && next.pause == (if e.pause.None? && control.Some? && control.value.PauseControl?
                        then Some(control.value.suspension) else e.pause)
      && next.inserts
         == e.inserts + if control.Some? && control.value.InsertControl? then [control.value.insert] else []
  {
    hide AllReported, OrderReturned;
    SettledOrder(s, e, control);
    ReportsKeepControls(s, DoControl(EmitHeld(e), control));
    assert e.inserts + [] == e.inserts;
  }

  lemma SettledOrder(s: Setup, e: Exec, control: Option<Control>)
    requires OrderReturned(e)
    ensures OrderReturned(DoControl(EmitHeld(e), control)) && DoControl(EmitHeld(e), control).tasks == e.tasks
  {
  }

  predicate AllGiven(results: seq<Option<ToolResult>>) { forall i :: 0 <= i < |results| ==> results[i].Some? }

  /**
   * A batch that goes ahead runs its bound calls under the given schedule. Past
   * the deadline the run is limited; otherwise the batch is committed with the
   * results of the schedule, a pause drained before the tools ran or else the
   * first one after, and every insert deferred.
   */
  lemma ToolsEnd(cfg: Config, l: Loop, r: Round, b: Batch, asked: seq<nat>, prepared: seq<Prepared>)
    requires ValidLoop(l) && LegalRound(cfg, l, r) && r.timing == OnTime && RunsBatch(cfg, l, r, b)
    requires Lists(asked, b.calls, r.tools.binds) && GoesAhead(cfg, b, asked, r.tools.approval)
    requires SetUpAs(b, r.tools.binds, asked, Counting(cfg, asked, r.tools.approval), prepared)
    ensures var setup, steps := Setup(b, prepared, cfg.limits), r.tools.steps;
      && Inv(setup, StartExec(setup)) && Legal(setup, StartExec(setup), steps)
      && var end := RunSteps(setup, StartExec(setup), steps);
        var k := AfterBatchEvents(l, r, b, Exchanged(cfg, b, asked, r.tools.approval) + end.log);
        if r.tools.timedOut then !Done(end) && Leads(cfg, l, r, k, HitsLimit(DeadlineReached))
        else
          && Done(end) && AllGiven(end.results)
          && Leads(cfg, l, r, k.(deferred := k.deferred + r.tools.inserts + InsertsOf(steps)),
                   Batches(b, FinalResults(end),
                           if r.tools.pause.Some? then r.tools.pause else FirstPause(steps)))
  {
    hide Pass, LegalRound, ValidLoop, MayRun, Leads, Requested, Approve, ApprovalEvents, Lists, SetUpAs, GoesAhead,
      Exchanged, Inv, Done, Legal, RunSteps, InsertsOf, FirstPause;
    PlanLeads(cfg, l, r);
    BatchAhead(cfg, l, r, b);
    SetUpIsApproved(cfg, b, r.tools.binds, asked, r.tools.approval, prepared);
    var setup := Setup(b, prepared, cfg.limits);
    var start := StartExec(setup);
    var end := RunSteps(setup, start, r.tools.steps);
    assert start.pause.None? && start.inserts == [];
    PauseArrives(setup, start, r.tools.steps);
    InsertsArrive(setup, start, r.tools.steps);
    assert [] + InsertsOf(r.tools.steps) == InsertsOf(r.tools.steps);
    RunInv(setup, start, r.tools.steps);
    if !r.tools.timedOut { DoneIsComplete(setup, end); }
    var pending := l.checkpoint.snapshot.state.active.pending;
    var exchange := ApprovalEvents(cfg, b, Prepare(b.calls, r.tools.binds), r.tools.approval);
    assert ([SelectionEvent(pending, b)] + exchange) + end.log == [SelectionEvent(pending, b)] + (exchange + end.log);
  }

  // ------------------------------------------------ who runs and who does not

  /** Each start in the log names the call at its place. */
  predicate StartsNamed(s: Setup, log: seq<Event>) {
    forall e <- log :: e.ToolStarted? ==> 0 <= e.index < |s.batch.calls| && s.batch.calls[e.index].id == e.callId
  }

  lemma {:induction false} ProgressStartsNothing(ids: seq<Text>)
    ensures forall e <- ProgressEvents(ids) :: !e.ToolStarted?
  {
    if ids != [] { ProgressStartsNothing(ids[1..]); }
  }

  lemma {:induction false} ReportsStartNothing(s: Setup, e: Exec)
    requires OrderReturned(e) && |e.tasks| == |s.batch.calls| && StartsNamed(s, e.log)
    ensures StartsNamed(s, AllReported(s, e).log)
    decreases |e.order|
  {
    if e.order != [] {
      ReportKeepsOrder(s, e);
      ProgressStartsNothing(e.progress);
      ReportsStartNothing(s, ReportHead(s, e));
    }
  }

  lemma StepStartsNamed(s: Setup, e: Exec, step: Step)
    requires OrderReturned(e) && |e.tasks| == |s.batch.calls| && Enabled(s, e, step) && StartsNamed(s, e.log)
    ensures StartsNamed(s, Do(s, e, step).log)
  {
    hide AllReported;
    if step.Advance? {
      SettledOrder(s, e, step.control);
      ReportsStartNothing(s, DoControl(EmitHeld(e), step.control));
    }
  }

  lemma {:induction false} RunStartsNamed(s: Setup, e: Exec, steps: seq<Step>)
    requires Inv(s, e) && Legal(s, e, steps) && StartsNamed(s, e.log)
    ensures StartsNamed(s, RunSteps(s, e, steps).log)
    decreases |steps|
  {
    hide Do, Enabled, Done, PermitsConserved, ProgressFlies, ActiveRuns, ProperResults, StartsNamed;
    if steps != [] {
      StepInv(s, e, steps[0]);
      StepStartsNamed(s, e, steps[0]);
      RunStartsNamed(s, Do(s, e, steps[0]), steps[1..]);
    }
  }

  lemma {:induction false} NoneCounted(log: seq<Event>, i: int)
    requires CountOf(log, i, false) == 0
    ensures forall e <- log :: e.ToolStarted? ==> e.index != i
  {
    if log != [] {
      NoneCounted(log[..|log| - 1], i);
      assert log == log[..|log| - 1] + [log[|log| - 1]];
    }
  }

  /** Nothing starts under the id of a call. */
  predicate NeverStarted(events: seq<Event>, id: Text) { forall e <- events :: e.ToolStarted? ==> e.callId != id }

  /** A call that was decided before the tools ran never starts, and its result is its decision. */
  lemma DecidedNeverRuns(s: Setup, steps: seq<Step>, i: nat)
    requires ValidSetup(s) && Inv(s, StartExec(s)) && Legal(s, StartExec(s), steps)
    requires i < |s.prepared| && s.prepared[i].Decided?
    ensures var end := RunSteps(s, StartExec(s), steps);
      && NeverStarted(end.log, s.batch.calls[i].id)
      && |end.results| == |s.prepared| && end.results[i] == Some(s.prepared[i].result)
  {
    var start := StartExec(s);
    var end := RunSteps(s, start, steps);
    RunInv(s, start, steps);
    RunCounted(s, start, steps, i, false);
    RunStartsNamed(s, start, steps);
    NoneCounted(end.log, i);
    forall e <- end.log | e.ToolStarted? ensures e.callId != s.batch.calls[i].id {
      assert Ids(s.batch.calls)[e.index] != Ids(s.batch.calls)[i];
    }
  }

  // ------------------------------------------------- what an ending becomes

  /** How call i's tool ends in a schedule, if it does. */
  function EndingOf(steps: seq<Step>, i: nat): Option<Ending> {
    if steps == [] then None
    else if steps[0].Finish? && steps[0].i == i then Some(steps[0].ending)
    else EndingOf(steps[1..], i)
  }

  /** Before its end call i reported progress while the buffer was full. */
  predicate Overran(s: Setup, e: Exec, steps: seq<Step>, i: nat)
    requires Inv(s, e) && Legal(s, e, steps)
    decreases |steps|
  {
    steps != [] && !(steps[0].Finish? && steps[0].i == i) &&
    (|| (steps[0] == Report(i) && |e.progress| >= s.limits.maxBufferedProgress)
     || (StepInv(s, e, steps[0]); Overran(s, Do(s, e, steps[0]), steps[1..], i)))
  }

  /** A raise is a failure, a result of a tool that lost progress too, and any other result stands. */
  function Becoming(ending: Option<Ending>, overran: bool): Option<ToolResult> {
    match ending
    case None => None
    case Some(Raised(message)) => Some(Refusal("tool_error", message))
    case Some(Gave(result)) =>
      Some(if overran then Refusal("progress_overflow", "tool progress buffer exceeded") else result)
  }

  lemma StepOverflows(s: Setup, e: Exec, step: Step, i: nat)
    requires Inv(s, e) && Enabled(s, e, step) && i < |s.batch.calls|
    ensures var id := s.batch.calls[i].id;
      id in Do(s, e, step).overflowed
      <==> id in e.overflowed || (step == Report(i) && |e.progress| >= s.limits.maxBufferedProgress)
  {
    assert OrderReturned(e) && |e.tasks| == |s.batch.calls| && Unique(Ids(s.batch.calls));
    hide Inv, AllReported, ValidSetup, OrderReturned;
    if step.Advance? {
      SettledOrder(s, e, step.control);
      ReportsKeepOverflow(s, DoControl(EmitHeld(e), step.control));
    }
    if step.Report? && step.i < |s.batch.calls| && step.i != i {
      assert Ids(s.batch.calls)[step.i] != Ids(s.batch.calls)[i];
    }
  }

  lemma {:induction false} ReportsKeepOverflow(s: Setup, e: Exec)
    requires OrderReturned(e) && |e.tasks| == |s.batch.calls|
    ensures AllReported(s, e).overflowed == e.overflowed
    decreases |e.order|
  {
    if e.order != [] {
      ReportKeepsOrder(s, e);
      ReportsKeepOverflow(s, ReportHead(s, e));
    }
  }

  lemma {:induction false} EndingsBecome(s: Setup, e: Exec, steps: seq<Step>, i: nat)
    requires Inv(s, e) && Legal(s, e, steps) && i < |s.prepared|
    ensures i < |s.batch.calls|
    ensures GivenBy(s, e, steps, i)
         == Becoming(EndingOf(steps, i), s.batch.calls[i].id in e.overflowed || Overran(s, e, steps, i))
    decreases |steps|
  {
    if steps != [] && !(steps[0].Finish? && steps[0].i == i) {
      hide Do, Enabled, Done, PermitsConserved, ProgressFlies, ActiveRuns, ProperResults, Becoming;
      StepInv(s, e, steps[0]);
      StepOverflows(s, e, steps[0], i);
      EndingsBecome(s, Do(s, e, steps[0]), steps[1..], i);
    }
  }

  /**
   * At the end of a batch each bound call's result is what its own tool's ending
   * becomes, at its own place, and it started and finished once.
   */
  lemma OwnEndingsStand(s: Setup, steps: seq<Step>, i: nat)
    requires ValidSetup(s) && Inv(s, StartExec(s)) && Legal(s, StartExec(s), steps) && i < |s.prepared|
    requires Done(RunSteps(s, StartExec(s), steps)) && s.prepared[i].Bound?
    ensures var end := RunSteps(s, StartExec(s), steps);
      && i < |end.results| && EndingOf(steps, i).Some?
      && end.results[i] == Becoming(EndingOf(steps, i), Overran(s, StartExec(s), steps, i))
  {
    hide RunSteps, Inv, Legal, Done, Becoming, Overran, EndingOf;
    BatchRunsOnce(s, steps, i);
    EndingsBecome(s, StartExec(s), steps, i);
    assert EndingOf(steps, i).None? ==> Becoming(EndingOf(steps, i), false).None? by { NothingBecomes(); }
    NothingBecomes();
  }

  lemma NothingBecomes()
    ensures Becoming(None, false).None? && Becoming(None, true).None?
  {
  }

  /** There is exactly one such list of places, and one set-up for any answers. */
  lemma SetUpExists(b: Batch, binds: seq<bool>, answers: seq<Answer>)
    returns (asked: seq<nat>, prepared: seq<Prepared>)
    requires |binds| == |b.calls|
    ensures Lists(asked, b.calls, binds)
    ensures answers == [] || |answers| == |asked| ==> SetUpAs(b, binds, asked, answers, prepared)
  {
    var first := Prepare(b.calls, binds);
    asked := Requests(first, 0);
    AskedAre(asked, b.calls, binds);
    prepared := if |answers| == |asked| then ApplyDenials(first, asked, answers) else first;
    if answers == [] || |answers| == |asked| {
      forall i | 0 <= i < |b.calls| ensures GoesOnAs(b.calls[i], binds[i], asked, answers, i, prepared[i]) {
        if |answers| == |asked| { DenialsAre(first, asked, answers, i); }
        if !Bindable(b.calls[i], binds[i]) { assert i !in asked && forall k :: !DeniedBy(asked, answers, i, k); }
      }
    }
  }

  /** The outcome a committed batch reports at a place, in its fact and in its message. */
  predicate ReportsAt(l: Loop, next: Checkpoint, call: ToolCall, i: nat, result: ToolResult) {
    var at := |l.checkpoint.snapshot.history| + i;
    && next.fact.ToolBatch? && i < |next.fact.outcomes| && next.fact.outcomes[i] == result.outcome.Kind()
    && at < |next.snapshot.history|
    && next.snapshot.history[at] == Message(Tool, [], [], Some(call.id), Some(result.outcome), [])
  }

  lemma BatchReports(cfg: Config, l: Loop, r: Round, k: Kept, b: Batch, results: seq<ToolResult>,
                     pause: Option<Suspension>, i: nat)
    requires ValidLoop(l) && LegalRound(cfg, l, r) && Leads(cfg, l, r, k, Batches(b, results, pause))
    requires i < |b.calls| == |results|
    ensures Proceed(cfg, l, r).Moved? ==>
      && Proceed(cfg, l, r).loop.checkpoint.fact.ToolBatch?
      && ReportsAt(l, Proceed(cfg, l, r).loop.checkpoint, b.calls[i], i, results[i])
      && LeadsEvents(Proceed(cfg, l, r), k)
  {
    hide Proceed, ValidLoop, LegalRound, EndsWaiting, TakesBatch, ReportsAt, LeadsEvents;
    var suspension :| EndsWaiting(results, pause, suspension)
                      && TakesBatch(l, r.id, Proceed(cfg, l, r), k, b, results, suspension);
    TakenReports(l, r.id, Proceed(cfg, l, r), k, b, results, suspension, i);
  }

  lemma TakenReports(l: Loop, id: Text, out: Outcome, k: Kept, b: Batch, results: seq<ToolResult>,
                     suspension: Option<Suspension>, i: nat)
    requires TakesBatch(l, id, out, k, b, results, suspension) && i < |b.calls| == |results|
    ensures out.Moved? ==>
      && out.loop.checkpoint.fact.ToolBatch? && ReportsAt(l, out.loop.checkpoint, b.calls[i], i, results[i])
      && LeadsEvents(out, k)
  {
    var history := l.checkpoint.snapshot.history;
    if out.Moved? {
      var after := out.loop.checkpoint.snapshot.history;
      assert after[|history|..][i] == after[|history| + i];
    }
  }

  /** Beside its commit an outcome emits just what was kept. */
  predicate LeadsEvents(out: Outcome, k: Kept) {
    out.Moved? ==>
      out.events != [] && out.events[..|out.events| - 1] == k.events
      && out.events[|out.events| - 1].CheckpointCommitted?
  }

  lemma LimitEvents(cfg: Config, l: Loop, r: Round, k: Kept, reason: LimitReason)
    requires ValidLoop(l) && LegalRound(cfg, l, r) && Leads(cfg, l, r, k, HitsLimit(reason))
    ensures LeadsEvents(Proceed(cfg, l, r), k)
    ensures Proceed(cfg, l, r).Moved? && !Proceed(cfg, l, r).loop.checkpoint.fact.ToolBatch?
  {
    hide Proceed, ValidLoop, LegalRound;
  }

  /**
   * A denied call never runs: whatever the schedule and the deadline do, nothing
   * of the pass starts under its id, and a committed batch reports its refusal.
   */
  lemma DeniedNeverRuns(cfg: Config, l: Loop, r: Round, b: Batch, asked: seq<nat>, i: nat, k: nat)
    requires ValidLoop(l) && LegalRound(cfg, l, r) && r.timing == OnTime && RunsBatch(cfg, l, r, b)
    requires cfg.hasApproval && Lists(asked, b.calls, r.tools.binds) && r.tools.approval.Answered?
    requires FitsUpTo(b, asked, r.tools.approval.answers, |asked|) && NoneSuspends(r.tools.approval.answers)
    requires i < |b.calls| && DeniedBy(asked, r.tools.approval.answers, i, k)
    ensures var out := Proceed(cfg, l, r);
      out.Moved? ==>
        && NeverStarted(out.events, b.calls[i].id)
        && (out.loop.checkpoint.fact.ToolBatch? ==>
              ReportsAt(l, out.loop.checkpoint, b.calls[i], i,
                        Refusal("approval_denied", r.tools.approval.answers[k].reason)))
  {
    var answers := r.tools.approval.answers;
    var same, prepared := SetUpExists(b, r.tools.binds, answers);
    SameAsked(asked, same, b.calls, r.tools.binds);
    DeniedIsDecided(b, r.tools.binds, asked, answers, prepared, i, k);
    assert asked != [] && GoesAhead(cfg, b, asked, r.tools.approval);
    hide Lists, SetUpAs, FitsUpTo, NoneSuspends, RunsBatch, LegalRound, ValidLoop, Leads, Proceed, Inv, Legal, RunSteps,
      DeniedBy, GoesAhead, ReportsAt, NeverStarted, Exchanged, Done, AllGiven, Refusal;
    DecidedStaysOut(cfg, l, r, b, asked, prepared, i);
  }

  /** The same for any call decided before the tools ran, once the batch has gone ahead. */
  lemma DecidedStaysOut(cfg: Config, l: Loop, r: Round, b: Batch, asked: seq<nat>, prepared: seq<Prepared>, i: nat)
    requires ValidLoop(l) && LegalRound(cfg, l, r) && r.timing == OnTime && RunsBatch(cfg, l, r, b)
    requires Lists(asked, b.calls, r.tools.binds) && GoesAhead(cfg, b, asked, r.tools.approval)
    requires SetUpAs(b, r.tools.binds, asked, Counting(cfg, asked, r.tools.approval), prepared)
    requires i < |b.calls| && prepared[i].Decided?
    ensures var out := Proceed(cfg, l, r);
      out.Moved? ==>
        && NeverStarted(out.events, b.calls[i].id)
        && (out.loop.checkpoint.fact.ToolBatch?
            ==> ReportsAt(l, out.loop.checkpoint, b.calls[i], i, prepared[i].result))
  {
    hide FitsUpTo, NoneSuspends, LegalRound, ValidLoop, Leads, Proceed, Inv, Legal, RunSteps, GoesAhead, GoesOnAs,
      ReportsAt, NeverStarted, Exchanged, Done;
    ToolsEnd(cfg, l, r, b, asked, prepared);
    var setup, steps := Setup(b, prepared, cfg.limits), r.tools.steps;
    InvSetup(setup, StartExec(setup));
    DecidedNeverRuns(setup, steps, i);
    var end, exchange := RunSteps(setup, StartExec(setup), steps), Exchanged(cfg, b, asked, r.tools.approval);
    ExchangeStartsNothing(cfg, b, asked, r.tools.approval);
    var kept := AfterBatchEvents(l, r, b, exchange + end.log);
    if r.tools.timedOut {
      LimitEvents(cfg, l, r, kept, DeadlineReached);
    } else {
      assert end.results[i].Some? && FinalResults(end)[i] == prepared[i].result;
      BatchReports(cfg, l, r, kept.(deferred := kept.deferred + r.tools.inserts + InsertsOf(steps)), b,
                   FinalResults(end), if r.tools.pause.Some? then r.tools.pause else FirstPause(steps), i);
    }
    QuietEvents(Proceed(cfg, l, r), kept, exchange, end.log, b.calls[i].id);
  }

  lemma InvSetup(s: Setup, e: Exec)
    requires Inv(s, e)
    ensures ValidSetup(s)
  {
  }

  lemma SameAsked(a: seq<nat>, b: seq<nat>, calls: seq<ToolCall>, binds: seq<bool>)
    requires |binds| == |calls| && Lists(a, calls, binds) && Lists(b, calls, binds)
    ensures a == b
  {
    AskedAre(a, calls, binds);
    AskedAre(b, calls, binds);
  }

  lemma DeniedIsDecided(b: Batch, binds: seq<bool>, asked: seq<nat>, answers: seq<Answer>, prepared: seq<Prepared>,
                        i: nat, k: nat)
    requires |binds| == |b.calls| && Lists(asked, b.calls, binds) && SetUpAs(b, binds, asked, answers, prepared)
    requires i < |b.calls| && DeniedBy(asked, answers, i, k)
    ensures |prepared| == |b.calls|
    ensures prepared[i] == Decided(b.calls[i], Refusal("approval_denied", answers[k].reason))
  {
    assert i in asked && GoesOnAs(b.calls[i], binds[i], asked, answers, i, prepared[i]);
    var m :| DeniedBy(asked, answers, i, m)
      && prepared[i] == Decided(b.calls[i], Refusal("approval_denied", answers[m].reason));
    assert m == k;
  }

  lemma ExchangeStartsNothing(cfg: Config, b: Batch, asked: seq<nat>, input: ApprovalInput)
    requires InRange(asked, |b.calls|) && GoesAhead(cfg, b, asked, input)
    ensures forall e <- Exchanged(cfg, b, asked, input) :: !e.ToolStarted?
  {
  }

  lemma QuietEvents(out: Outcome, k: Kept, exchange: seq<Event>, log: seq<Event>, id: Text)
    requires LeadsEvents(out, k) && k.events != [] && k.events[0].ToolBatchSelected?
    requires k.events[1..] == exchange + log
    requires (forall e <- exchange :: !e.ToolStarted?) && NeverStarted(log, id)
    ensures out.Moved? ==> NeverStarted(out.events, id)
  {
    if out.Moved? {
      forall e <- out.events | e.ToolStarted? ensures e.callId != id {
        var j :| 0 <= j < |out.events| && out.events[j] == e;
        assert j < |out.events| - 1 && e == k.events[j] && j > 0 && e == k.events[1..][j - 1];
        assert e in exchange + log;
      }
    }
  }
}
