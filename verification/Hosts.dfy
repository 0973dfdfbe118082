/**
 * What a host can bring about in a pass: an insert that is lost, and a run that
 * makes progress (_engine/engine.py, tooling.py).
 */
module Hosts {
  import opened Wrappers
  import opened Messages
  import opened State
  import opened Linkage
  import opened Checkpoints
  import opened Changes
  import opened Commits
  import opened ToolExecution
  import opened Rounds
  import opened Progress

  // ------------------------------------------------------- inserts are lost

  /** In every planning loop: an insert taken at a boundary is gone when the deadline passes before its commit. */
  lemma LateInsertIsLost(cfg: Config, l: Loop, insert: Insert, timing: CommitTiming, id: Text)
    requires ValidLimits(cfg.limits) && ValidLoop(l) && l.checkpoint.snapshot.state == Active(Planning(false))
    requires l.deferred == [] && l.supply >= 1 && ProperInsert(insert)
    requires timing != OnTime && id != "" && id !in l.used
    ensures var r := QuietRound(Polled(None, [insert]), ModelTimedOut, timing, id);
      && LegalRound(cfg, l, r) && Taken(cfg, l, r) == [insert] && Proceed(cfg, l, r).Moved?
      && GoesOnWithout(l, Proceed(cfg, l, r).loop) && Lost(cfg, l, r) == [insert]
  {
    var r := QuietRound(Polled(None, [insert]), ModelTimedOut, timing, id);
    assert LegalRound(cfg, l, r);
    assert l.deferred + [insert] == [insert] && [insert][1..] == [] && [] + [insert] == [insert];
    var p := Pass(cfg, l, r);
    assert p.cause == Inserts(insert) && p.deferred == [];
    LimitedInstead(cfg, l, r);
  }

  /** The run is limited by its deadline, with the deferred inserts and the history it had. */
  predicate GoesOnWithout(l: Loop, next: Loop) {
    && next.deferred == l.deferred && next.checkpoint.fact == Control(LimitedControl(DeadlineReached))
    && next.checkpoint.snapshot.history == l.checkpoint.snapshot.history
  }

  /** A pass whose committed cause is the deadline leaves the history alone. */
  lemma LimitedInstead(cfg: Config, l: Loop, r: Round)
    requires ValidLoop(l) && LegalRound(cfg, l, r)
    requires CommittedCause(Pass(cfg, l, r).cause, r.timing) == DEADLINE
    requires NamedKeys(FactKeys(Pass(cfg, l, r).cause)) && FreshCalls(l.checkpoint.snapshot, Pass(cfg, l, r).cause)
    ensures Proceed(cfg, l, r).Moved? && Proceed(cfg, l, r).loop.deferred == Pass(cfg, l, r).deferred
    ensures Proceed(cfg, l, r).loop.checkpoint.fact == Control(LimitedControl(DeadlineReached))
    ensures Proceed(cfg, l, r).loop.checkpoint.snapshot.history == l.checkpoint.snapshot.history
  {
    PassAllowed(cfg, l, r);
    hide Pass, LegalRound, ValidLoop;
    CommitOutcome(cfg.limits, l, Pass(cfg, l, r), r.timing, r.id, l.supply - Delivered(r));
    PassHistory(cfg, l, r);
    KeepHistory(l.checkpoint.snapshot);
  }

  // ------------------------------------------------------- one call at a time

  /** The first pending call alone. */
  function FirstCall(pending: seq<ToolCall>): Batch
    requires pending != []
  {
    Batch("batch", [pending[0]], false)
  }

  /** A call whose arguments did not parse is decided before it runs. */
  predicate Parses(call: ToolCall) { !(call.Structured? && call.arguments.None?) }

  /** The first pending call, bound and allowed, under some schedule. */
  function OneCall(pending: seq<ToolCall>, inserts: seq<Insert>, steps: seq<Step>, timedOut: bool): ToolInput
    requires pending != []
  {
    ToolInput(Some(FirstCall(pending)), [true], Answered([Allow(pending[0].id)]), None, inserts, steps, timedOut)
  }

  function ToolRound(tools: ToolInput, id: Text): Round {
    Round(Polled(None, []), ReducerKeeps, ModelInput(0, [], ModelTimedOut), tools, OnTime, id)
  }

  /** What comes of preparing and allowing it. */
  function OneSetup(cfg: Config, pending: seq<ToolCall>): Setup
    requires pending != []
  {
    Setup(FirstCall(pending), Prepare([pending[0]], [true]), cfg.limits)
  }

  lemma OneRequest(prepared: seq<Prepared>)
    requires |prepared| == 1
    ensures Requests(prepared, 0) == if prepared[0].Bound? then [0] else []
  {
    assert Requests(prepared, 1) == [];
    assert Requests(prepared, 0) == (if prepared[0].Bound? then [0] else []) + Requests(prepared, 1);
  }

  lemma OneIsApproved(cfg: Config, pending: seq<ToolCall>)
    requires pending != []
    ensures var prepared := Prepare([pending[0]], [true]);
      Approve(cfg, FirstCall(pending), prepared, Answered([Allow(pending[0].id)])) == ApprovedCalls(prepared)
  {
    var prepared, answers := Prepare([pending[0]], [true]), [Allow(pending[0].id)];
    OneRequest(prepared);
    if prepared[0].Bound? {
      assert answers[1..] == [] && [0 as nat][1..] == [];
      assert Agreeing(FirstCall(pending), [0], answers) == 1 + Agreeing(FirstCall(pending), [], []);
      assert FirstSuspend(answers) == FirstSuspend([]);
      assert ApplyDenials(prepared, [0], answers) == ApplyDenials(prepared, [], []);
    }
  }

  lemma OneIsChosen(cfg: Config, s: Snapshot, pending: seq<ToolCall>, input: ToolInput)
    requires ValidLimits(cfg.limits) && pending != [] && input.proposal == Some(FirstCall(pending))
    ensures Chosen(cfg, s, pending, input)
         == if ToolCapacity(cfg, s) > 0 then Some(FirstCall(pending)) else None
  {
    if ToolCapacity(cfg, s) > 0 {
      var selectable := Selectable(cfg.limits, pending, ToolCapacity(cfg, s));
      assert selectable[0] == pending[0] && [pending[0]] == selectable[..1];
      assert ValidBatch(FirstCall(pending));
    }
  }

  lemma OneSetupIsValid(cfg: Config, pending: seq<ToolCall>)
    requires ValidLimits(cfg.limits) && pending != []
    ensures ValidSetup(OneSetup(cfg, pending)) && Inv(OneSetup(cfg, pending), StartExec(OneSetup(cfg, pending)))
    ensures Done(StartExec(OneSetup(cfg, pending))) <==> !Parses(pending[0])
  {
    StartInv(OneSetup(cfg, pending));
    var start := StartExec(OneSetup(cfg, pending));
    assert |start.tasks| == 1 && (start.tasks[0].NoTask? <==> !Parses(pending[0]));
  }

  /** The deadline may pass before the first pending call has taken its permit: what was drained is then dropped. */
  lemma TimedOutStep(cfg: Config, s: Snapshot, inserts: seq<Insert>, deferred: seq<Insert>, skip: bool)
    requires ValidLimits(cfg.limits) && s.state.Active? && s.state.active.ToolsPending? && s.state.active.pending != []
    requires Parses(s.state.active.pending[0]) && ToolCapacity(cfg, s) > 0
    ensures var pending := s.state.active.pending;
      var tools := OneCall(pending, inserts, [], true);
      && LegalTools(cfg, s, pending, tools) && ToolsTaken(cfg, s, pending, tools) == inserts
      && ToolPass(cfg, s, pending, deferred, skip, tools).cause == DEADLINE
      && ToolPass(cfg, s, pending, deferred, skip, tools).deferred == deferred
  {
    var pending := s.state.active.pending;
    OneIsChosen(cfg, s, pending, OneCall(pending, inserts, [], true));
    OneIsApproved(cfg, pending);
    OneSetupIsValid(cfg, pending);
    assert inserts + [] == inserts;
  }

  /** In every loop that owes a call: an insert drained before its tools run is gone when they miss the deadline. */
  lemma TimedOutToolsLose(cfg: Config, l: Loop, insert: Insert, id: Text)
    requires ValidLimits(cfg.limits) && ValidLoop(l) && l.checkpoint.snapshot.state.Active?
    requires l.checkpoint.snapshot.state.active.ToolsPending? && Parses(l.checkpoint.snapshot.state.active.pending[0])
    requires ToolCapacity(cfg, l.checkpoint.snapshot) > 0
    requires l.supply >= 1 && ProperInsert(insert) && id != "" && id !in l.used
    ensures var r := ToolRound(OneCall(l.checkpoint.snapshot.state.active.pending, [insert], [], true), id);
      && LegalRound(cfg, l, r) && Taken(cfg, l, r) == [insert] && Proceed(cfg, l, r).Moved?
      && GoesOnWithout(l, Proceed(cfg, l, r).loop) && Lost(cfg, l, r) == [insert]
  {
    hide LegalTools, ToolsTaken, ToolPass, Proceed;
    var r := ToolRound(OneCall(l.checkpoint.snapshot.state.active.pending, [insert], [], true), id);
    TimedOutStep(cfg, l.checkpoint.snapshot, [insert], l.deferred, l.skipReducer);
    assert LegalRound(cfg, l, r);
    assert l.deferred + [] == l.deferred && [insert] + [] == [insert] && [] + [insert] == [insert];
    LimitedInstead(cfg, l, r);
  }

  // ------------------------------------------------------- a host that works

  ghost function LongestId(used: set<Text>): (n: nat)
    ensures forall id <- used :: |id| <= n
  {
    if used == {} then 0
    else
      var id :| id in used;
      var rest := LongestId(used - {id});
      if |id| > rest then |id| else rest
  }

  ghost function FreshId(used: set<Text>): (id: Text)
    ensures id != "" && id !in used
  {
    seq(LongestId(used) + 1, _ => 'x')
  }

  const DONE := Settled(SuccessOutcome([], Null))

  /** One tool takes its permit, returns, and is reported. */
  function WorkSteps(call: ToolCall): seq<Step> {
    if Parses(call) then [Acquire(0), Finish(0, Gave(DONE)), Advance(None)] else []
  }

  /** The call a working model asks for: one the history has not seen. */
  ghost function NextCall(s: Snapshot): ToolCall
    requires ValidSnapshot(s)
  {
    Freeform(FreshId(Link(s.history).value.seen), "tool", "", [])
  }

  /** In planning the model asks for a call, and owed calls are run one by one to their end. */
  ghost function WorkRound(l: Loop): Round
    requires ValidLoop(l) && l.checkpoint.snapshot.state.Active?
  {
    match l.checkpoint.snapshot.state.active
    case Planning(_) =>
      QuietRound(Polled(None, []), ModelResponded(Asking(NextCall(l.checkpoint.snapshot))), OnTime, FreshId(l.used))
    case ToolsPending(pending, _) =>
      ToolRound(OneCall(pending, [], WorkSteps(pending[0]), false), FreshId(l.used))
  }

  /** The three steps of a tool that runs. */
  lemma WorkEnds(cfg: Config, pending: seq<ToolCall>)
    requires ValidLimits(cfg.limits) && pending != []
    ensures var setup := OneSetup(cfg, pending);
      && ValidSetup(setup) && Inv(setup, StartExec(setup))
      && Legal(setup, StartExec(setup), WorkSteps(pending[0]))
      && var end := RunSteps(setup, StartExec(setup), WorkSteps(pending[0]));
        && Done(end) && end.inserts == [] && end.pause == None
        && (Parses(pending[0]) ==> end.results == [Some(DONE)])
  {
    var setup := OneSetup(cfg, pending);
    OneSetupIsValid(cfg, pending);
    if Parses(pending[0]) {
      hide Inv, Legal, RunSteps, Do;
      var start, steps := StartExec(setup), WorkSteps(pending[0]);
      var running := FirstRuns(setup);
      var returned := ThenReturns(setup, running);
      var reported := ThenIsReported(setup, returned);
      assert steps[1..] == [Finish(0, Gave(DONE)), Advance(None)] && steps[1..][1..] == [Advance(None)];
      assert steps[1..][1..][1..] == [];
      ThreeSteps(setup, start, running, returned, reported, steps);
    }
  }

  lemma FirstRuns(setup: Setup) returns (next: Exec)
    requires ValidSetup(setup) && |setup.prepared| == 1 && setup.prepared[0].Bound? && !setup.batch.parallel
    ensures Inv(setup, StartExec(setup)) && Enabled(setup, StartExec(setup), Acquire(0)) && !Done(StartExec(setup))
    ensures next == Do(setup, StartExec(setup), Acquire(0)) && Inv(setup, next)
    ensures next.tasks == [Running] && next.order == [] && next.overflowed == {} && next.inserts == []
    ensures next.pause == None && next.held == None && |next.results| == 1
  {
    StartInv(setup);
    StepInv(setup, StartExec(setup), Acquire(0));
    next := Do(setup, StartExec(setup), Acquire(0));
  }

  lemma ThenReturns(setup: Setup, e: Exec) returns (next: Exec)
    requires Inv(setup, e) && e.tasks == [Running] && e.order == [] && e.overflowed == {} && e.inserts == []
    requires e.pause == None && e.held == None && |e.results| == 1
    ensures Enabled(setup, e, Finish(0, Gave(DONE))) && !Done(e)
    ensures next == Do(setup, e, Finish(0, Gave(DONE))) && Inv(setup, next)
    ensures next.tasks == [Returned(DONE)] && next.order == [0] && next.inserts == [] && next.pause == None
    ensures next.held == None && |next.results| == 1
  {
    StepInv(setup, e, Finish(0, Gave(DONE)));
    next := Do(setup, e, Finish(0, Gave(DONE)));
  }

  lemma ThenIsReported(setup: Setup, e: Exec) returns (next: Exec)
    requires Inv(setup, e) && e.tasks == [Returned(DONE)] && e.order == [0] && e.inserts == [] && e.pause == None
    requires e.held == None && |e.results| == 1
    ensures Enabled(setup, e, Advance(None)) && !Done(e)
    ensures next == Do(setup, e, Advance(None)) && Inv(setup, next)
    ensures Done(next) && next.results == [Some(DONE)] && next.inserts == [] && next.pause == None
  {
    StepInv(setup, e, Advance(None));
    next := Do(setup, e, Advance(None));
    assert DoControl(EmitHeld(e), None) == e;
    assert AllReported(setup, e) == AllReported(setup, ReportHead(setup, e)) == ReportHead(setup, e);
  }

  lemma ThreeSteps(s: Setup, a: Exec, b: Exec, c: Exec, d: Exec, steps: seq<Step>)
    requires |steps| == 3 && Inv(s, a) && Inv(s, b) && Inv(s, c) && Inv(s, d) && !Done(a) && !Done(b) && !Done(c)
    requires Enabled(s, a, steps[0]) && b == Do(s, a, steps[0]) && Enabled(s, b, steps[1]) && c == Do(s, b, steps[1])
    requires Enabled(s, c, steps[2]) && d == Do(s, c, steps[2])
    ensures Legal(s, a, steps) && RunSteps(s, a, steps) == d
  {
    hide Inv, Do, Enabled, Done;
    assert Legal(s, d, steps[1..][1..][1..]) && RunSteps(s, d, steps[1..][1..][1..]) == d;
    assert Legal(s, c, steps[1..][1..]) && RunSteps(s, c, steps[1..][1..]) == d;
    assert Legal(s, b, steps[1..]) && RunSteps(s, b, steps[1..]) == d;
  }

  lemma WorkedTools(cfg: Config, s: Snapshot, pending: seq<ToolCall>)
    requires ValidLimits(cfg.limits) && pending != []
    ensures var tools := OneCall(pending, [], WorkSteps(pending[0]), false);
      && LegalTools(cfg, s, pending, tools) && ProperTools(tools) && TotalInserts(tools.steps) == 0
      && Chosen(cfg, s, pending, tools) == (if ToolCapacity(cfg, s) > 0 then Some(FirstCall(pending)) else None)
  {
    var tools := OneCall(pending, [], WorkSteps(pending[0]), false);
    OneIsChosen(cfg, s, pending, tools);
    OneIsApproved(cfg, pending);
    WorkEnds(cfg, pending);
    NoInserts(WorkSteps(pending[0]));
    hide Approve, Legal, RunSteps, Inv, Done, Chosen;
  }

  lemma WorkIsLegal(cfg: Config, l: Loop)
    requires ValidLimits(cfg.limits) && ValidLoop(l) && l.checkpoint.snapshot.state.Active?
    ensures LegalRound(cfg, l, WorkRound(l))
  {
    match l.checkpoint.snapshot.state.active
    case Planning(_) => AskingIsLegal(cfg, l);
    case ToolsPending(_, _) => RunningIsLegal(cfg, l);
  }

  lemma AskingIsLegal(cfg: Config, l: Loop)
    requires ValidLimits(cfg.limits) && ValidLoop(l) && l.checkpoint.snapshot.state.Active?
    requires l.checkpoint.snapshot.state.active.Planning?
    ensures LegalRound(cfg, l, WorkRound(l))
  {
    hide LegalTools, WorkSteps, ValidLimits;
    AskingCalls(NextCall(l.checkpoint.snapshot));
  }

  lemma RunningIsLegal(cfg: Config, l: Loop)
    requires ValidLimits(cfg.limits) && ValidLoop(l) && l.checkpoint.snapshot.state.Active?
    requires l.checkpoint.snapshot.state.active.ToolsPending?
    ensures LegalRound(cfg, l, WorkRound(l))
  {
    var s := l.checkpoint.snapshot;
    var pending := s.state.active.pending;
    assert pending != [];
    hide LegalTools, WorkSteps, ValidLimits, ValidLoop, ProperTools, TotalInserts, LegalRound, ToolRound;
    WorkedTools(cfg, s, pending);
    ToolRoundIsLegal(cfg, l, OneCall(pending, [], WorkSteps(pending[0]), false), FreshId(l.used));
  }

  /** Tools that take no inserts, and no answers but theirs. */
  lemma ToolRoundIsLegal(cfg: Config, l: Loop, tools: ToolInput, id: Text)
    requires ValidLimits(cfg.limits) && l.checkpoint.snapshot.state.Active? && id != "" && id !in l.used
    requires l.checkpoint.snapshot.state.active.ToolsPending? && l.supply >= 0
    requires ProperTools(tools) && tools.inserts == [] && TotalInserts(tools.steps) == 0
    requires LegalTools(cfg, l.checkpoint.snapshot, l.checkpoint.snapshot.state.active.pending, tools)
    ensures LegalRound(cfg, l, ToolRound(tools, id))
  {
    hide LegalTools, ValidLimits, ProperTools, TotalInserts;
  }

  lemma NoInserts(steps: seq<Step>)
    requires |steps| <= 3 && forall i :: 0 <= i < |steps| ==> InsertsIn(steps[i]) == 0
    ensures TotalInserts(steps) == 0
  {
    if |steps| > 0 {
      assert steps[1..][0..] == steps[1..];
      if |steps| > 1 { assert TotalInserts(steps[1..]) == InsertsIn(steps[1]) + TotalInserts(steps[1..][1..]); }
    }
  }

  /** Working in planning commits a turn that owes the call the model asked for. */
  lemma WorkAsks(cfg: Config, l: Loop)
    requires ValidLimits(cfg.limits) && ValidLoop(l) && l.checkpoint.snapshot.state == Active(Planning(false))
    requires l.deferred == [] && l.checkpoint.snapshot.metrics.planningSteps < cfg.limits.maxPlanningSteps
    requires !OverTokens(cfg.limits, l.checkpoint.snapshot.metrics, None)
    ensures LegalRound(cfg, l, WorkRound(l)) && Proceed(cfg, l, WorkRound(l)).Moved?
    ensures var next := Proceed(cfg, l, WorkRound(l)).loop;
      next.checkpoint.fact.ModelTurn? && next.deferred == []
      && next.checkpoint.snapshot.state == Active(ToolsPending([NextCall(l.checkpoint.snapshot)], false))
  {
    var s, r := l.checkpoint.snapshot, WorkRound(l);
    WorkIsLegal(cfg, l);
    PassAllowed(cfg, l, r);
    assert l.deferred + [] == [];
    var p := Pass(cfg, l, r);
    assert p.deferred == [] && p.cause == Turns(Asking(NextCall(s)), false);
    AskedTurn(cfg.limits, s);
    hide LegalRound, Pass, ValidLoop, WorkRound, Allowed, ChangeFor, FreshCalls, FactKeys, ValidCheckpoint,
      ValidSnapshot;
    CommitOutcome(cfg.limits, l, p, r.timing, r.id, l.supply - Delivered(r));
  }

  lemma AskedTurn(limits: Limits, s: Snapshot)
    requires ValidSnapshot(s) && !OverTokens(limits, s.metrics, None)
    requires Allowed(s, Turns(Asking(NextCall(s)), false))
    ensures var cause := Turns(Asking(NextCall(s)), false);
      && ChangeFor(limits, s, cause).fact.ModelTurn? && NamedKeys(FactKeys(cause)) && FreshCalls(s, cause)
      && ChangeFor(limits, s, cause).state == Active(ToolsPending([NextCall(s)], false))
  {
    AskingCalls(NextCall(s));
    FreshIsDisjoint(NextCall(s).id, Link(s.history).value.seen);
  }

  lemma FreshIsDisjoint(id: Text, seen: set<Text>)
    requires id !in seen
    ensures forall call: ToolCall :: call.id == id ==> ToSet(Ids([call])) * seen == {}
  {
    forall call: ToolCall | call.id == id ensures ToSet(Ids([call])) * seen == {} { assert Ids([call]) == [id]; }
  }

  /** Working on an owed call that runs commits its batch, with the tool's own result. */
  lemma WorkRunsTool(cfg: Config, l: Loop)
    requires ValidLimits(cfg.limits) && ValidLoop(l) && l.checkpoint.snapshot.state.Active?
    requires l.checkpoint.snapshot.state.active.ToolsPending? && Parses(l.checkpoint.snapshot.state.active.pending[0])
    requires ToolCapacity(cfg, l.checkpoint.snapshot) > 0
    ensures LegalRound(cfg, l, WorkRound(l)) && Proceed(cfg, l, WorkRound(l)).Moved?
    ensures var call := l.checkpoint.snapshot.state.active.pending[0];
      Proceed(cfg, l, WorkRound(l)).loop.checkpoint.fact == ToolBatch("batch", [call.id], false, [Success], None)
  {
    var r := WorkRound(l);
    var pending := l.checkpoint.snapshot.state.active.pending;
    WorkIsLegal(cfg, l);
    PassAllowed(cfg, l, r);
    WorkedPass(cfg, l, pending);
    var p := Pass(cfg, l, r);
    OneCallFact(cfg.limits, l.checkpoint.snapshot, pending);
    hide LegalRound, Pass, ValidLoop, WorkRound, Allowed, ChangeFor, FactKeys, ValidCheckpoint, FirstCall;
    CommitOutcome(cfg.limits, l, p, r.timing, r.id, l.supply - Delivered(r));
  }

  lemma OneCallFact(limits: Limits, s: Snapshot, pending: seq<ToolCall>)
    requires pending != [] && Allowed(s, Batches(FirstCall(pending), [DONE], None))
    ensures var cause := Batches(FirstCall(pending), [DONE], None);
      && ChangeFor(limits, s, cause).fact == ToolBatch("batch", [pending[0].id], false, [Success], None)
      && NamedKeys(FactKeys(cause)) && FreshCalls(s, cause)
  {
    assert FirstWaiting([DONE]) == FirstWaiting([DONE][1..]);
    assert Ids([pending[0]]) == [pending[0].id] && Outcomes([DONE]) == [Success];
  }

  lemma WorkedPass(cfg: Config, l: Loop, pending: seq<ToolCall>)
    requires ValidLimits(cfg.limits) && ValidLoop(l) && l.checkpoint.snapshot.state.Active?
    requires LegalRound(cfg, l, WorkRound(l)) && l.checkpoint.snapshot.state.active.ToolsPending?
    requires pending == l.checkpoint.snapshot.state.active.pending && Parses(pending[0])
    requires ToolCapacity(cfg, l.checkpoint.snapshot) > 0
    ensures Pass(cfg, l, WorkRound(l)).cause == Batches(FirstCall(pending), [DONE], None)
    ensures WorkRound(l).timing == OnTime
  {
    hide NextCall, Chosen, Approve, Scheduled, TotalInserts, ProperTools;
    WorkedTools(cfg, l.checkpoint.snapshot, pending);
    WorkedStep(cfg, l.checkpoint.snapshot, pending, BoundaryDeferred(l.checkpoint.snapshot.state.active, l.deferred,
      WorkRound(l).boundary), l.skipReducer);
    hide ToolPass, LegalTools, LegalRound, ValidLoop, ValidLimits, WorkSteps;
  }

  lemma WorkedStep(cfg: Config, s: Snapshot, pending: seq<ToolCall>, deferred: seq<Insert>, skip: bool)
    requires ValidLimits(cfg.limits) && pending != [] && Parses(pending[0]) && ToolCapacity(cfg, s) > 0
    requires LegalTools(cfg, s, pending, OneCall(pending, [], WorkSteps(pending[0]), false))
    ensures ToolPass(cfg, s, pending, deferred, skip, OneCall(pending, [], WorkSteps(pending[0]), false)).cause
         == Batches(FirstCall(pending), [DONE], None)
  {
    WorkedTools(cfg, s, pending);
    OneIsApproved(cfg, pending);
    WorkEnds(cfg, pending);
    var setup := OneSetup(cfg, pending);
    var end := RunSteps(setup, StartExec(setup), WorkSteps(pending[0]));
    assert end.results[0] == Some(DONE) && FinalResults(end) == [DONE];
    hide Approve, ApprovalEvents, RunSteps, Chosen, LegalTools, Legal, Inv, FinalResults, SelectionEvent;
  }
}
