/**
 * The engine as it runs (_engine/engine.py): the fields it updates, and its
 * loop, which ends for every host and leaves an accepted event stream.
 */
module EngineLoop {
  import opened Wrappers
  import opened Messages
  import opened State
  import opened Checkpoints
  import opened Views
  import opened Changes
  import opened Commits
  import opened Trace
  import opened Verifier
  import opened ToolExecution
  import opened Rounds
  import opened Progress
  import opened Hosts
  import opened Completeness
  import opened Runs
  import L = Linkage

  /** What the outside world does in each pass, given where the loop stands. */
  type Host = (Loop, nat) -> Round

  ghost predicate LegalHost(cfg: Config, host: Host) {
    forall l: Loop, n: nat :: ValidLoop(l) && l.checkpoint.snapshot.state.Active? ==> LegalRound(cfg, l, host(l, n))
  }

  /** A loop with room for its next step, and what working on it commits. */
  ghost predicate Advancing(cfg: Config, l: Loop, r: Round) {
    var s := l.checkpoint.snapshot;
    if !ValidLoop(l) || !LegalRound(cfg, l, r) then false
    else
      var out := Proceed(cfg, l, r);
      match s.state.active
      case Planning(_) =>
        out.Moved? && out.loop.checkpoint.fact.ModelTurn? && out.loop.checkpoint.snapshot.state.Active?
      case ToolsPending(pending, _) =>
        out.Moved? && out.loop.checkpoint.fact == ToolBatch("batch", [pending[0].id], false, [Success], None)
  }

  predicate HasRoom(cfg: Config, l: Loop) {
    var s := l.checkpoint.snapshot;
    && ValidLoop(l) && s.state.Active?
    && match s.state.active
       case Planning(pending) =>
         && !pending && l.deferred == [] && s.metrics.planningSteps < cfg.limits.maxPlanningSteps
         && !OverTokens(cfg.limits, s.metrics, None)
       case ToolsPending(pending, _) => Parses(pending[0]) && ToolCapacity(cfg, s) > 0
  }

  /**
   * There are legal hosts, and one of them works: wherever the run has room, the
   * model answers with a call, and an owed call is run to its end.
   */
  lemma SomeHostIsLegal(cfg: Config)
    requires ValidLimits(cfg.limits)
    ensures exists host: Host ::
      LegalHost(cfg, host) && forall l: Loop, n: nat :: HasRoom(cfg, l) ==> Advancing(cfg, l, host(l, n))
  {
    hide LegalRound, ValidLoop, WorkRound, QuietRound, HasRoom, Advancing;
    ghost var host: Host := (l: Loop, n: nat) =>
      if ValidLoop(l) && l.checkpoint.snapshot.state.Active? then WorkRound(l)
      else QuietRound(Expired, ModelTimedOut, OnTime, "");
    forall l: Loop, n: nat | ValidLoop(l) && l.checkpoint.snapshot.state.Active?
      ensures LegalRound(cfg, l, host(l, n))
    {
      WorkIsLegal(cfg, l);
    }
    assert LegalHost(cfg, host);
    forall l: Loop, n: nat | HasRoom(cfg, l) ensures Advancing(cfg, l, host(l, n)) {
      WorkAdvances(cfg, l);
    }
  }

  lemma WorkAdvances(cfg: Config, l: Loop)
    requires ValidLimits(cfg.limits) && HasRoom(cfg, l)
    ensures ValidLoop(l) && l.checkpoint.snapshot.state.Active? && Advancing(cfg, l, WorkRound(l))
  {
    hide LegalRound, Proceed, WorkRound, ValidLoop;
    match l.checkpoint.snapshot.state.active
    case Planning(_) => WorkAsks(cfg, l);
    case ToolsPending(_, _) => WorkRunsTool(cfg, l);
  }

  /** A commit in steps: construct, reduce unless it is too late, and keep the change or the limit in its place. */
  lemma CommitInSteps(limits: Limits, s: Snapshot, cause: Cause, timing: CommitTiming, id: Text)
    requires ValidSnapshot(s) && Allowed(s, cause) && id != ""
    ensures var last := CommittedCause(cause, timing);
      && Allowed(s, last) && s.history != [] && ChangeFor(limits, s, last).replace != Some([])
      && (CommitOf(limits, s, cause, timing, id).None? <==>
            !ValidFact(ChangeFor(limits, s, cause).fact) || (timing != LateBefore && !Builds(limits, s, cause, id)))
      && (CommitOf(limits, s, cause, timing, id).Some? ==>
            Reduce(s, ChangeFor(limits, s, last), id) == Ok(CommitOf(limits, s, cause, timing, id).value))
  {
    hide ValidFact, BoundaryOk, L.Analyze;
    if timing == LateBefore || Builds(limits, s, cause, id) { CommittedBuilds(limits, s, cause, timing, id); }
  }

  class Engine {
    const cfg: Config
    var last: Checkpoint
    var deferred: seq<Insert>
    var skipReducer: bool
    var emitted: seq<Event>
    var used: set<Text>
    var supply: int
    ghost var origin: Evidence

    ghost function Here(): Loop
      reads this
    {
      Loop(last, deferred, skipReducer, used, supply)
    }

    /** The events so far, past the first, are accepted up to here. */
    ghost predicate Valid()
      reads this
    {
      ValidLoop(Here()) && emitted != [] && Accepts(origin, Here(), emitted[1..])
    }

    /** The passes the loop may still take. */
    ghost function Left(): nat
      reads this
    {
      if last.snapshot.state.Active? then Measure(cfg.limits, Here()) + 1 else 0
    }

    /** _boundary */
    method Boundary(a: ActiveState, input: BoundaryInput) returns (cause: Option<Cause>)
      modifies this`deferred
      ensures cause == BoundaryCause(a, old(deferred), input)
      ensures deferred == BoundaryDeferred(a, old(deferred), input)
    {
      if input.Expired? { return Some(DEADLINE); }
      deferred := deferred + input.inserts;
      if input.pause.Some? { return Some(Pauses(input.pause.value)); }
      if a == Planning(false) && deferred != [] {
        var first := deferred[0];
        deferred := deferred[1..];
        return Some(Inserts(first));
      }
      cause := None;
    }

    /** The commit of a cause happened here, or raised. */
    twostate predicate Committed(made: Option<Checkpoint>, id: Text, left: int, crashed: bool)
      reads this
    {
      match made
      case None => crashed
      case Some(c) =>
        && !crashed && last == c && used == old(used) + {id} && supply == left
        && emitted == old(emitted) + [CommitEvent(c)]
    }

    /** _commit and _committed: construct, reduce, replace when late, and report. */
    method CommitCause(cause: Cause, timing: CommitTiming, id: Text, left: nat) returns (crashed: bool)
      requires ValidSnapshot(last.snapshot) && Allowed(last.snapshot, cause) && id != ""
      modifies this`last, this`emitted, this`used, this`supply
      ensures Committed(CommitOf(cfg.limits, old(last.snapshot), cause, timing, id), id, left, crashed)
    {
      hide ValidSnapshot, Allowed, ValidFact, Builds, CommitOf, Reduce;
      var s := last.snapshot;
      CommitInSteps(cfg.limits, s, cause, timing, id);
      var change := ChangeFor(cfg.limits, s, cause);
      if !ValidFact(change.fact) { return true; }
      if timing != LateBefore {
        if !Builds(cfg.limits, s, cause, id) { return true; }
      }
      if cause != DEADLINE && timing != OnTime { change := LimitedChange(DeadlineReached); }
      last := Reduce(s, change, id).value;
      used, supply := used + {id}, left;
      emitted := emitted + [CommitEvent(last)];
      crashed := false;
    }

    /** A planned pass happened here, or raised. */
    twostate predicate Passed(p: Plan, made: Option<Checkpoint>, id: Text, left: int, crashed: bool)
      reads this
    {
      match made
      case None => crashed
      case Some(c) =>
        && !crashed && last == c && used == old(used) + {id} && supply == left
        && deferred == p.deferred && skipReducer == p.skipReducer
        && emitted == old(emitted) + (p.events + [CommitEvent(c)])
    }

    /** PlanningStep.run and its commit. */
    method ModelStep(r: Round, pending: bool) returns (crashed: bool)
      requires ValidSnapshot(last.snapshot) && Delivered(r) <= supply && r.id != ""
      requires Allowed(last.snapshot,
                       ModelCause(r.model, pending && deferred + (if pending then r.model.deferred else []) != []))
      modifies this
      ensures var s, waiting := old(last.snapshot), old(deferred) + if pending then r.model.deferred else [];
        var p := Plan(ModelCause(r.model, pending && waiting != []), ModelEvents(s.metrics.planningSteps, r.model),
                      waiting, false);
        Passed(p, CommitOf(cfg.limits, s, p.cause, r.timing, r.id), r.id, old(supply) - Delivered(r), crashed)
      ensures origin == old(origin)
    {
      hide ValidSnapshot, Allowed, CommitOf, ModelEvents, ModelCause;
      assert deferred + [] == deferred;
      skipReducer := false;
      emitted := emitted + ModelEvents(last.snapshot.metrics.planningSteps, r.model);
      if pending { deferred := deferred + r.model.deferred; }
      crashed := CommitCause(ModelCause(r.model, pending && deferred != []), r.timing, r.id, supply - Delivered(r));
    }

    /** A pass that only commits. */
    method CommitOnly(cause: Cause, skip: bool, r: Round) returns (crashed: bool)
      requires ValidSnapshot(last.snapshot) && Delivered(r) <= supply && r.id != "" && Allowed(last.snapshot, cause)
      modifies this
      ensures Passed(Plan(cause, [], old(deferred), skip),
                     CommitOf(cfg.limits, old(last.snapshot), cause, r.timing, r.id),
                     r.id, old(supply) - Delivered(r), crashed)
      ensures origin == old(origin)
    {
      hide ValidSnapshot, Allowed, CommitOf;
      skipReducer := skip;
      crashed := CommitCause(cause, r.timing, r.id, supply - Delivered(r));
    }

    /** _plan */
    method PlanStep(r: Round, pending: bool) returns (crashed: bool)
      requires ValidSnapshot(last.snapshot) && last.snapshot.state == Active(Planning(pending))
      requires ProperInserts(deferred) && r.id != "" && ProperReducer(r.reducer) && ProperModel(r.model, pending)
      requires Delivered(r) <= supply
      requires Allowed(last.snapshot, PlanningPass(cfg, last.snapshot, pending, deferred, skipReducer, r).cause)
      modifies this
      ensures var p := PlanningPass(cfg, old(last.snapshot), pending, old(deferred), old(skipReducer), r);
        Passed(p, CommitOf(cfg.limits, old(last.snapshot), p.cause, r.timing, r.id), r.id, old(supply) - Delivered(r),
               crashed)
      ensures origin == old(origin)
    {
      var rewrite := None;
      if cfg.hasReducer && !skipReducer && !pending { rewrite := ReducerCause(last.snapshot.history, r.reducer); }
      if rewrite.Some? {
        crashed := CommitOnly(rewrite.value, rewrite.value.Rewrites?, r);
      } else if last.snapshot.metrics.planningSteps >= cfg.limits.maxPlanningSteps {
        crashed := CommitOnly(HitsLimit(MaxPlanningSteps), false, r);
      } else {
        crashed := ModelStep(r, pending);
      }
    }

    /** _tools: the step's own effects, what it deferred, and its commit. */
    method ToolsStep(r: Round, pending: seq<ToolCall>) returns (crashed: bool)
      requires ValidSnapshot(last.snapshot) && Delivered(r) <= supply && r.id != "" && ValidLimits(cfg.limits)
      requires LegalTools(cfg, last.snapshot, pending, r.tools)
      requires Allowed(last.snapshot, ToolPass(cfg, last.snapshot, pending, deferred, skipReducer, r.tools).cause)
      modifies this
      ensures var p := ToolPass(cfg, old(last.snapshot), pending, old(deferred), old(skipReducer), r.tools);
        Passed(p, CommitOf(cfg.limits, old(last.snapshot), p.cause, r.timing, r.id), r.id, old(supply) - Delivered(r),
               crashed)
      ensures origin == old(origin)
    {
      hide CommitOf, Allowed, LegalTools, ToolPass, ValidSnapshot, ValidLimits;
      var outcome := ToolPass(cfg, last.snapshot, pending, [], skipReducer, r.tools);
      ToolsDefer(cfg, last.snapshot, pending, deferred, skipReducer, r.tools);
      deferred := deferred + outcome.deferred;
      emitted := emitted + outcome.events;
      crashed := CommitCause(outcome.cause, r.timing, r.id, supply - Delivered(r));
    }

    /** The step its state calls for. */
    method ActiveStep(r: Round, a: ActiveState) returns (crashed: bool)
      requires ValidSnapshot(last.snapshot) && last.snapshot.state == Active(a) && ProperInserts(deferred)
      requires LegalRound(cfg, Here(), r)
      requires Allowed(last.snapshot, StepPlan(cfg, last.snapshot, a, deferred, skipReducer, r).cause)
      modifies this
      ensures var p := StepPlan(cfg, old(last.snapshot), a, old(deferred), old(skipReducer), r);
        Passed(p, CommitOf(cfg.limits, old(last.snapshot), p.cause, r.timing, r.id), r.id, old(supply) - Delivered(r),
               crashed)
      ensures origin == old(origin)
    {
      match a
      case Planning(pending) => crashed := PlanStep(r, pending);
      case ToolsPending(pending, _) => crashed := ToolsStep(r, pending);
    }

    /** _run_active, one pass. */
    method OnePass(r: Round) returns (crashed: bool)
      requires ValidLoop(Here()) && LegalRound(cfg, Here(), r)
      modifies this
      ensures !crashed ==>
        && Proceed(cfg, old(Here()), r) == Moved(Here(), PassEvents(cfg, old(Here()), r, last))
        && emitted == old(emitted) + PassEvents(cfg, old(Here()), r, last)
      ensures crashed ==> Proceed(cfg, old(Here()), r).Crashed?
      ensures origin == old(origin)
    {
      hide Allowed, CommitOf, PlanningPass, ToolPass, BoundaryCause, BoundaryDeferred, Proceed;
      PassAllowed(cfg, Here(), r);
      ProceedInSteps(cfg, Here(), r);
      var a := last.snapshot.state.active;
      BoundaryAllowed(last.snapshot, deferred, r.boundary);
      var boundary := Boundary(a, r.boundary);
      if boundary.Some? {
        crashed := CommitOnly(boundary.value, skipReducer, r);
      } else {
        crashed := ActiveStep(r, a);
      }
    }

    /** A pass keeps the verifier's agreement and the limits, and lowers the measure. */
    method NextPass(r: Round) returns (crashed: bool)
      requires Valid() && LegalRound(cfg, Here(), r)
      modifies this
      ensures !crashed ==> Valid() && origin == old(origin) && emitted[0] == old(emitted[0])
      ensures !crashed ==> Left() < old(Left())
      ensures !crashed && old(WithinLimits(cfg.limits, last.snapshot)) ==> WithinLimits(cfg.limits, last.snapshot)
    {
      hide Proceed, PassEvents, Accepts, WithinLimits;
      ghost var here, body := Here(), emitted[1..];
      crashed := OnePass(r);
      if crashed { return; }
      ghost var events := PassEvents(cfg, here, r, last);
      PassKeeps(origin, cfg, here, r, body, Here(), events);
      assert emitted[1..] == body + events;
    }

    /**
     * _run_active: for every legal host the loop ends, within budget if it began
     * within budget, and the verifier has followed it.
     */
    method RunActive(host: Host) returns (crashed: bool)
      requires Valid() && LegalHost(cfg, host)
      modifies this
      ensures !crashed ==> Valid() && !last.snapshot.state.Active? && origin == old(origin)
      ensures !crashed ==> emitted != [] && emitted[0] == old(emitted[0])
      ensures !crashed && old(WithinLimits(cfg.limits, last.snapshot)) ==> WithinLimits(cfg.limits, last.snapshot)
    {
      var passes := 0;
      while last.snapshot.state.Active?
        invariant Valid() && origin == old(origin) && emitted[0] == old(emitted[0])
        invariant old(WithinLimits(cfg.limits, last.snapshot)) ==> WithinLimits(cfg.limits, last.snapshot)
        decreases Left()
      {
        var r := host(Loop(last, deferred, skipReducer, used, supply), passes);
        crashed := NextPass(r);
        if crashed { return; }
        passes := passes + 1;
      }
      crashed := false;
    }

    /** _initialize, up to the first commit: a new run's start checkpoint, or the given one. */
    constructor (config: Config, q: Request, o: Opening)
      requires ValidRequest(q) && LegalOpening(q, o)
      ensures cfg == config && origin == AfterStart(q) && emitted != [] && emitted[0] == StartEvent(q)
      ensures deferred == [] && !skipReducer && supply == o.supply && used == {last.id} && ValidLoop(Here())
      ensures last == if q.StartRequest? then StartCheckpoint(q, o.id) else q.checkpoint
      ensures q.ResumeRequest? ==> emitted == [StartEvent(q)]
      ensures !q.ResumeRequest? ==> Valid()
    {
      cfg := config;
      last := if q.StartRequest? then StartCheckpoint(q, o.id) else q.checkpoint;
      deferred, skipReducer, supply := [], false, o.supply;
      used := {if q.StartRequest? then o.id else q.checkpoint.id};
      emitted := [StartEvent(q)] + if q.StartRequest? then [CommitEvent(StartCheckpoint(q, o.id))] else [];
      origin := AfterStart(q);
      new;
      InitializeAccepted(config.limits, q, o);
      InitializeLegal(config.limits, q, o);
    }

    /** _initialize of a resumed run: its first commit. */
    method Resume(q: Request, o: Opening) returns (crashed: bool)
      requires q.ResumeRequest? && ValidRequest(q) && LegalOpening(q, o) && origin == AfterStart(q)
      requires Here() == Given(q.checkpoint, o.supply) && emitted == [StartEvent(q)]
      modifies this
      ensures !crashed ==> Valid() && origin == AfterStart(q) && emitted[0] == StartEvent(q)
      ensures !crashed ==> supply == o.supply && used == {q.checkpoint.id, o.id}
      ensures crashed <==> !NamedKeys(Keys(q.metadata))
      ensures !crashed ==> emitted == old(emitted) + [CommitEvent(last)]
      ensures !crashed ==>
        Advances(old(Here()), Plan(Resumes(q.append, q.metadata), [], [], false),
                 CommittedCause(Resumes(q.append, q.metadata), o.timing), cfg.limits, Here())
    {
      hide CommitOf, ValidSnapshot, Allowed, ViewOf, Advances, CommittedCause, NamedKeys, CommitEvent;
      crashed := CommitCause(Resumes(q.append, q.metadata), o.timing, o.id, o.supply);
      ResumeAccepted(cfg.limits, q, o);
      ResumeOutcome(cfg.limits, q, o);
      if !crashed { assert emitted[1..] == Initialize(cfg.limits, q, o).events; }
    }

    /** The loop may be entered with what opening the catalog deferred, or its ending was committed. */
    twostate predicate Prepared(o: Opening, cause: Option<Cause>)
      reads this
    {
      match cause
      case None =>
        && last == old(last) && emitted == old(emitted) && used == old(used) && skipReducer == old(skipReducer)
        && deferred == old(deferred) + o.inserts && supply == old(supply) - |o.inserts|
      case Some(c) =>
        && Allowed(old(last.snapshot), c) && emitted == old(emitted) + [CommitEvent(last)] && last.id == o.catalogId
        && Advances(old(Here()), Plan(c, [], old(deferred) + o.inserts, false), CommittedCause(c, o.catalogTiming),
                    cfg.limits, Here())
    }

    /** _prepare, up to the loop: the catalog is opened, or its failure is committed. */
    method Prepare(o: Opening) returns (crashed: bool)
      requires Valid() && last.snapshot.state.Active? && LegalCatalog(Here(), o)
      modifies this
      ensures !crashed ==> Valid() && origin == old(origin) && emitted[0] == old(emitted[0])
      ensures crashed <==> o.catalog.CatalogPaused? && !NamedKeys(Keys(o.catalog.suspension.metadata))
      ensures !crashed ==> Prepared(o, CatalogCause(o.catalog))
    {
      hide CommitOf, ProperInserts, ValidSnapshot, Advances, CommittedCause, NamedKeys, CommitEvent, Accepts;
      ghost var here, body := Here(), emitted[1..];
      OpenedOutcome(cfg.limits, here, o);
      OpenedKeeps(origin, cfg.limits, here, o, body);
      deferred := deferred + o.inserts;
      var cause := CatalogCause(o.catalog);
      if cause.None? {
        supply := supply - |o.inserts|;
        crashed := false;
      } else {
        skipReducer := false;
        crashed := CommitCause(cause.value, o.catalogTiming, o.catalogId, supply - |o.inserts|);
      }
      if crashed { return; }
      ghost var out := Opened(cfg.limits, here, o);
      assert emitted[1..] == body + out.events;
      assert Here() == out.loop;
    }
  }

  /** What opening the catalog commits is accepted after what was accepted before. */
  lemma OpenedKeeps(v: Evidence, limits: Limits, l: Loop, o: Opening, body: seq<Event>)
    requires ValidLoop(l) && l.checkpoint.snapshot.state.Active? && LegalCatalog(l, o) && Accepts(v, l, body)
    ensures var out := Opened(limits, l, o);
      out.Moved? ==> ValidLoop(out.loop) && Accepts(v, out.loop, body + out.events)
  {
    hide Opened, VisitAll;
    OpenedAccepted(VisitAll(v, body).value, limits, l, o);
    var out := Opened(limits, l, o);
    if out.Moved? { AcceptsJoin(v, l, body, out.loop, out.events); }
  }

  /** A pass and its commit, by what the commit makes. */
  lemma ProceedInSteps(cfg: Config, l: Loop, r: Round)
    requires ValidLoop(l) && LegalRound(cfg, l, r)
    ensures Allowed(l.checkpoint.snapshot, Pass(cfg, l, r).cause)
    ensures var p := Pass(cfg, l, r);
      Proceed(cfg, l, r) == match CommitOf(cfg.limits, l.checkpoint.snapshot, p.cause, r.timing, r.id)
        case None => Crashed
        case Some(c) =>
          Moved(Loop(c, p.deferred, p.skipReducer, l.used + {r.id}, l.supply - Delivered(r)),
                p.events + [CommitEvent(c)])
  {
    PassAllowed(cfg, l, r);
    hide Pass, LegalRound, ValidLoop, CommitOf, Allowed;
  }

  function PassEvents(cfg: Config, l: Loop, r: Round, made: Checkpoint): seq<Event>
    requires LegalRound(cfg, l, r)
  {
    Pass(cfg, l, r).events + [CommitEvent(made)]
  }

  lemma PassKeeps(v: Evidence, cfg: Config, l: Loop, r: Round, body: seq<Event>, next: Loop, events: seq<Event>)
    requires ValidLoop(l) && LegalRound(cfg, l, r) && Accepts(v, l, body)
    requires Proceed(cfg, l, r) == Moved(next, events)
    ensures Accepts(v, next, body + events)
    ensures next.checkpoint.snapshot.state.Active? ==> Measure(cfg.limits, next) < Measure(cfg.limits, l)
    ensures WithinLimits(cfg.limits, l.checkpoint.snapshot) ==> WithinLimits(cfg.limits, next.checkpoint.snapshot)
  {
    PassAccepted(VisitAll(v, body).value, cfg, l, r);
    MeasureFalls(cfg, l, r);
    if WithinLimits(cfg.limits, l.checkpoint.snapshot) { StepKeepsLimits(cfg, l, r); }
    AcceptsJoin(v, l, body, next, events);
  }

  /** The tool step only adds to what is deferred. */
  lemma ToolsDefer(cfg: Config, s: Snapshot, pending: seq<ToolCall>, deferred: seq<Insert>, skip: bool,
                   input: ToolInput)
    requires ValidLimits(cfg.limits) && LegalTools(cfg, s, pending, input)
    ensures var alone := ToolPass(cfg, s, pending, [], skip, input);
      && ToolPass(cfg, s, pending, deferred, skip, input) == alone.(deferred := deferred + alone.deferred)
      && alone.skipReducer == skip
  {
    hide Approve, ApprovalEvents, SelectionEvent, Chosen, Scheduled, RunSteps, FinalResults;
    assert deferred + [] == deferred;
  }

  /**
   * run: for every request and every legal host the invocation ends, and unless
   * it raises its whole event stream is one the trace verifier accepts.
   */
  method Run(cfg: Config, q: Request, o: Opening, host: Host) returns (crashed: bool, e: Engine)
    requires ValidRequest(q) && LegalOpening(q, o) && LegalHost(cfg, host)
    ensures !crashed ==> |e.emitted| >= 2 && VerifyEvents(KindOfRequest(q), e.emitted).Ok?
    ensures !crashed ==> !e.last.snapshot.state.Active? && ValidSnapshot(e.last.snapshot)
  {
    hide VerifyEvents, Accepts, Stream, LegalHost, Initialize, ValidSnapshot;
    hide Advances, CommittedCause, NamedKeys, CatalogCause, WithinLimits, ViewOf, CommitEvent, AfterStart;
    e := new Engine(cfg, q, o);
    crashed := false;
    if q.ResumeRequest? { crashed := e.Resume(q, o); }
    if crashed { return; }
    if e.last.snapshot.state.Active? {
      crashed := e.Prepare(o);
      if crashed { return; }
      crashed := e.RunActive(host);
      if crashed { return; }
    }
    BodyIsAccepted(q, e.Here(), e.emitted[1..]);
    assert e.emitted + [StopEvent(e.Here())] == [StartEvent(q)] + e.emitted[1..] + [StopEvent(e.Here())];
    e.emitted := e.emitted
      + [InvocationStopped(if e.last.snapshot.state.Suspended? then SuspendedStop else TerminalStop, Some(e.last.id))];
  }
}
