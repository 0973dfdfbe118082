/**
 * Whole invocations (_engine/engine.py, run): how one starts, what its passes
 * do one after the other, and that its event stream is accepted.
 */
module Runs {
  import opened Wrappers
  import opened Messages
  import opened State
  import opened Checkpoints
  import opened Views
  import opened Changes
  import opened Commits
  import opened Trace
  import opened Verifier
  import opened ToolExecution
  import opened Rounds
  import opened Progress
  import opened Completeness
  import L = Linkage

  datatype Request =
    | StartRequest(context: Context, messages: seq<Message>)
    | ContinueRequest(checkpoint: Checkpoint)
    | ResumeRequest(checkpoint: Checkpoint, append: seq<Message>, metadata: Metadata)

  /** How opening the tool catalog and reading the model's capabilities ended. */
  datatype CatalogEnd =
    | CatalogOpened
    | CatalogPaused(suspension: Suspension)
    | CatalogTimedOut
    | CatalogRaised(message: Text)
    | CapabilitiesRaised(message: Text)

  /** What the outside world does up to the loop. */
  datatype Opening = Opening(
    timing: CommitTiming, id: Text, catalog: CatalogEnd, inserts: seq<Insert>, catalogTiming: CommitTiming,
    catalogId: Text, supply: nat)

  // ----------------------------------------------------- before the loop

  /** What the request constructors require. */
  predicate ValidRequest(q: Request) {
    match q
    case StartRequest(_, messages) =>
      && messages != [] && (forall i :: 0 <= i < |messages| ==> ValidMessage(messages[i]))
      && L.Analyze(messages, Active(Planning(false))).Ok?
    case ContinueRequest(c) => c.id != "" && ValidSnapshot(c.snapshot) && c.snapshot.state.Active?
    case ResumeRequest(c, append, metadata) =>
      c.id != "" && ValidSnapshot(c.snapshot) && Allowed(c.snapshot, Resumes(append, metadata))
  }

  predicate LegalOpening(q: Request, o: Opening) {
    && o.id != "" && o.catalogId != "" && o.id != o.catalogId
    && (!q.StartRequest? ==> o.id != q.checkpoint.id && o.catalogId != q.checkpoint.id)
    && ProperInserts(o.inserts) && |o.inserts| <= o.supply
    && (o.catalog.CatalogPaused? ==> ProperSuspension(o.catalog.suspension))
  }

  function KindOfRequest(q: Request): RequestKind {
    match q
    case StartRequest(_, _) => StartKind
    case ContinueRequest(_) => ContinueKind
    case ResumeRequest(_, _, _) => ResumeKind
  }

  function StartEvent(q: Request): Event {
    if q.StartRequest? then InvocationStarted(StartKind, None, None)
    else InvocationStarted(KindOfRequest(q), Some(q.checkpoint.id), Some(ViewOf(q.checkpoint.snapshot)))
  }

  function StartCheckpoint(q: Request, id: Text): Checkpoint
    requires q.StartRequest?
  {
    Checkpoint(id, Snapshot(0, q.context, q.messages, NO_METRICS, Active(Planning(false))), Started(Roles(q.messages)))
  }

  function Given(c: Checkpoint, supply: nat): Loop { Loop(c, [], false, {c.id}, supply) }

  /** _initialize: a start checkpoint, the given one, or a commit that resumes. */
  function Initialize(limits: Limits, q: Request, o: Opening): Outcome
    requires ValidRequest(q)
  {
    match q
    case StartRequest(_, _) =>
      var c := StartCheckpoint(q, o.id);
      Moved(Given(c, o.supply), [CommitEvent(c)])
    case ContinueRequest(c) => Moved(Given(c, o.supply), [])
    case ResumeRequest(c, append, metadata) =>
      Commit(limits, Given(c, o.supply), Plan(Resumes(append, metadata), [], [], false), o.timing, o.id, o.supply)
  }

  /** _prepare: why the loop is not entered, if it is not. */
  function CatalogCause(end: CatalogEnd): Option<Cause> {
    match end
    case CatalogOpened => None
    case CatalogPaused(suspension) => Some(Pauses(suspension))
    case CatalogTimedOut => Some(DEADLINE)
    case CatalogRaised(message) => Some(Fails("tool_catalog_error", message))
    case CapabilitiesRaised(message) => Some(Fails("model_capabilities_error", message))
  }

  /** _prepare, up to the loop. */
  function Opened(limits: Limits, l: Loop, o: Opening): Outcome
    requires l.checkpoint.snapshot.state.Active? && LegalCatalog(l, o)
  {
    var cause := CatalogCause(o.catalog);
    if cause.None? then Moved(l.(deferred := l.deferred + o.inserts, supply := l.supply - |o.inserts|), [])
    else
      Commit(limits, l, Plan(cause.value, [], l.deferred + o.inserts, false), o.catalogTiming, o.catalogId,
             l.supply - |o.inserts|)
  }

  predicate LegalCatalog(l: Loop, o: Opening) {
    && o.catalogId != "" && o.catalogId !in l.used && ProperInserts(o.inserts) && |o.inserts| <= l.supply
    && (o.catalog.CatalogPaused? ==> ProperSuspension(o.catalog.suspension))
  }

  // -------------------------------------------------------------- the loop

  lemma NextIsValid(cfg: Config, l: Loop, r: Round)
    requires ValidLoop(l) && LegalRound(cfg, l, r)
    ensures Proceed(cfg, l, r).Moved? ==> ValidLoop(Proceed(cfg, l, r).loop)
  {
    PassAllowed(cfg, l, r);
    CommitOutcome(cfg.limits, l, Pass(cfg, l, r), r.timing, r.id, l.supply - Delivered(r));
  }

  /** Rounds that can happen one after the other: each finds an active run, and none follows a raise. */
  predicate LegalRun(cfg: Config, l: Loop, rounds: seq<Round>)
    requires ValidLoop(l)
    decreases |rounds|
  {
    rounds == [] ||
      (LegalRound(cfg, l, rounds[0])
       && (NextIsValid(cfg, l, rounds[0]);
           match Proceed(cfg, l, rounds[0])
           case Crashed => |rounds| == 1
           case Moved(next, _) => LegalRun(cfg, next, rounds[1..])))
  }

  /** Events of an outcome, after others. */
  function Prepend(events: seq<Event>, out: Outcome): Outcome {
    match out case Crashed => Crashed case Moved(l, more) => Moved(l, events + more)
  }

  /** Where the loop stands after its rounds, and all it emitted. */
  function RunRounds(cfg: Config, l: Loop, rounds: seq<Round>): Outcome
    requires ValidLoop(l) && LegalRun(cfg, l, rounds)
    decreases |rounds|
  {
    if rounds == [] then Moved(l, [])
    else
      NextIsValid(cfg, l, rounds[0]);
      match Proceed(cfg, l, rounds[0])
      case Crashed => Crashed
      case Moved(next, events) => Prepend(events, RunRounds(cfg, next, rounds[1..]))
  }

  /** The loop always ends: there is a bound on its passes, fixed before the first. */
  lemma {:induction false} RunIsBounded(cfg: Config, l: Loop, rounds: seq<Round>)
    requires ValidLoop(l) && LegalRun(cfg, l, rounds)
    ensures |rounds| <= 2 * (Budget(cfg.limits, l.checkpoint.snapshot.metrics) + |l.deferred| + l.supply) + 2
    ensures |rounds| <= Measure(cfg.limits, l) + 1
    decreases |rounds|
  {
    if rounds != [] {
      MeasureFalls(cfg, l, rounds[0]);
      NextIsValid(cfg, l, rounds[0]);
      var out := Proceed(cfg, l, rounds[0]);
      if out.Moved? {
        RunIsBounded(cfg, out.loop, rounds[1..]);
        if !out.loop.checkpoint.snapshot.state.Active? { assert rounds[1..] == []; }
      }
    }
  }

  /** Budgets hold at every durable point of a run that started within them. */
  lemma {:induction false} RunKeepsLimits(cfg: Config, l: Loop, rounds: seq<Round>)
    requires ValidLoop(l) && LegalRun(cfg, l, rounds) && WithinLimits(cfg.limits, l.checkpoint.snapshot)
    ensures var out := RunRounds(cfg, l, rounds);
      out.Moved? ==> WithinLimits(cfg.limits, out.loop.checkpoint.snapshot)
    decreases |rounds|
  {
    if rounds != [] {
      StepKeepsLimits(cfg, l, rounds[0]);
      NextIsValid(cfg, l, rounds[0]);
      var out := Proceed(cfg, l, rounds[0]);
      if out.Moved? { RunKeepsLimits(cfg, out.loop, rounds[1..]); }
    }
  }

  // ------------------------------------------------------ inserts over a run

  /** What a run takes in, commits and loses of inserts. */
  datatype Account = Account(taken: multiset<Insert>, committed: multiset<Insert>, lost: multiset<Insert>)

  function AccountOf(cfg: Config, l: Loop, rounds: seq<Round>): Account
    requires ValidLoop(l) && LegalRun(cfg, l, rounds)
    decreases |rounds|
  {
    if rounds == [] then Account(multiset{}, multiset{}, multiset{})
    else
      NextIsValid(cfg, l, rounds[0]);
      match Proceed(cfg, l, rounds[0])
      case Crashed => Account(multiset{}, multiset{}, multiset{})
      case Moved(next, _) => Added(PassInserts(cfg, l, rounds[0]), AccountOf(cfg, next, rounds[1..]))
  }

  function PassInserts(cfg: Config, l: Loop, r: Round): Account
    requires LegalRound(cfg, l, r)
  {
    Account(multiset(Taken(cfg, l, r)), multiset(Inserted(CommittedCause(Pass(cfg, l, r).cause, r.timing))),
            multiset(Lost(cfg, l, r)))
  }

  function Added(a: Account, b: Account): Account {
    Account(a.taken + b.taken, a.committed + b.committed, a.lost + b.lost)
  }

  /**
   * Over any number of passes every insert is accounted for: deferred at the
   * start or taken in on the way, it is deferred at the end, committed or lost,
   * and lost only to tools that miss the deadline or to a late commit.
   */
  lemma {:induction false} RunAccountsForInserts(cfg: Config, l: Loop, rounds: seq<Round>)
    requires ValidLoop(l) && LegalRun(cfg, l, rounds) && RunRounds(cfg, l, rounds).Moved?
    ensures var end, a := RunRounds(cfg, l, rounds).loop, AccountOf(cfg, l, rounds);
      multiset(l.deferred) + a.taken == multiset(end.deferred) + a.committed + a.lost
    decreases |rounds|
  {
    if rounds != [] {
      hide LegalRound, ValidLoop, Proceed, PassInserts;
      NextIsValid(cfg, l, rounds[0]);
      var next := Proceed(cfg, l, rounds[0]).loop;
      RunAccountsForInserts(cfg, next, rounds[1..]);
      PassBalances(cfg, l, rounds[0]);
      var here, later := PassInserts(cfg, l, rounds[0]), AccountOf(cfg, next, rounds[1..]);
      var end := multiset(RunRounds(cfg, l, rounds).loop.deferred);
      Balance(multiset(l.deferred), here, multiset(next.deferred), later, end);
    }
  }

  lemma PassBalances(cfg: Config, l: Loop, r: Round)
    requires ValidLoop(l) && LegalRound(cfg, l, r) && Proceed(cfg, l, r).Moved?
    ensures var a := PassInserts(cfg, l, r);
      multiset(l.deferred) + a.taken == multiset(Proceed(cfg, l, r).loop.deferred) + a.committed + a.lost
  {
    hide Taken, Lost, Pass, Proceed, LegalRound, ValidLoop;
    PassKeepsInserts(cfg, l, r);
  }

  lemma Balance(start: multiset<Insert>, a: Account, middle: multiset<Insert>, b: Account, end: multiset<Insert>)
    requires start + a.taken == middle + a.committed + a.lost
    requires middle + b.taken == end + b.committed + b.lost
    ensures start + Added(a, b).taken == end + Added(a, b).committed + Added(a, b).lost
  {
    assert start + (a.taken + b.taken) == (start + a.taken) + b.taken;
    assert (middle + a.committed + a.lost) + b.taken == (middle + b.taken) + a.committed + a.lost;
  }

  lemma AcceptsJoin(v: Evidence, middle: Loop, first: seq<Event>, next: Loop, second: seq<Event>)
    requires Accepts(v, middle, first) && Accepts(VisitAll(v, first).value, next, second)
    ensures Accepts(v, next, first + second)
  {
    VisitConcat(v, first, second);
  }

  /** The verifier follows any number of passes. */
  lemma {:induction false} RoundsAccepted(v: Evidence, cfg: Config, l: Loop, rounds: seq<Round>)
    requires ValidLoop(l) && LegalRun(cfg, l, rounds) && At(v, l) && Idle(v) && Underway(v)
    ensures var out := RunRounds(cfg, l, rounds);
      out.Crashed? || Accepts(v, out.loop, out.events)
    decreases |rounds|
  {
    if rounds != [] {
      PassAccepted(v, cfg, l, rounds[0]);
      NextIsValid(cfg, l, rounds[0]);
      var out := Proceed(cfg, l, rounds[0]);
      if out.Moved? {
        var w := VisitAll(v, out.events).value;
        RoundsAccepted(w, cfg, out.loop, rounds[1..]);
        var rest := RunRounds(cfg, out.loop, rounds[1..]);
        if rest.Moved? { AcceptsJoin(v, out.loop, out.events, rest.loop, rest.events); }
      }
    }
  }

  // --------------------------------------------------------- whole invocations

  /** The verifier after the first entry. */
  function AfterStart(q: Request): Evidence {
    if q.StartRequest? then Fresh(StartKind)
    else Fresh(KindOfRequest(q)).(current := Some(ViewOf(q.checkpoint.snapshot)), lastId := Some(q.checkpoint.id),
                                  ids := {q.checkpoint.id})
  }

  lemma StartAccepted(q: Request)
    requires ValidRequest(q)
    ensures OnStart(KindOfRequest(q), StartEvent(q)) == Ok(AfterStart(q))
  {
    if !q.StartRequest? { ViewIsValid(q.checkpoint.snapshot); }
  }

  lemma StartCheckpointValid(q: Request, id: Text)
    requires q.StartRequest? && ValidRequest(q) && id != ""
    ensures ValidCheckpoint(StartCheckpoint(q, id))
  {
  }

  lemma FirstCommitAccepted(q: Request, o: Opening)
    requires q.StartRequest? && ValidRequest(q) && LegalOpening(q, o)
    ensures Accepts(AfterStart(q), Given(StartCheckpoint(q, o.id), o.supply), [CommitEvent(StartCheckpoint(q, o.id))])
  {
    var c := StartCheckpoint(q, o.id);
    StartCheckpointValid(q, o.id);
    ViewIsValid(c.snapshot);
    VisitOne(AfterStart(q), CommitEvent(c));
  }

  lemma ResumeAccepted(limits: Limits, q: Request, o: Opening)
    requires q.ResumeRequest? && ValidRequest(q) && LegalOpening(q, o)
    ensures var out := Initialize(limits, q, o);
      out.Crashed? || Accepts(AfterStart(q), out.loop, out.events)
  {
    var l, p := Given(q.checkpoint, o.supply), Plan(Resumes(q.append, q.metadata), [], [], false);
    assert VisitAll(AfterStart(q), []) == Ok(AfterStart(q));
    MoveAccepted(AfterStart(q), limits, l, p, o.timing, o.id, o.supply);
  }

  lemma InitializeAccepted(limits: Limits, q: Request, o: Opening)
    requires ValidRequest(q) && LegalOpening(q, o)
    ensures var out := Initialize(limits, q, o);
      out.Crashed? || Accepts(AfterStart(q), out.loop, out.events)
  {
    hide Accepts, AfterStart, ValidRequest, LegalOpening;
    match q
    case StartRequest(_, _) => FirstCommitAccepted(q, o);
    case ContinueRequest(_) => NothingAccepted(q, o);
    case ResumeRequest(_, _, _) => ResumeAccepted(limits, q, o);
  }

  /** A continued run has its checkpoint already. */
  lemma NothingAccepted(q: Request, o: Opening)
    requires q.ContinueRequest? && ValidRequest(q) && LegalOpening(q, o)
    ensures Accepts(AfterStart(q), Given(q.checkpoint, o.supply), [])
  {
    assert VisitAll(AfterStart(q), []) == Ok(AfterStart(q));
  }

  lemma InitializeLegal(limits: Limits, q: Request, o: Opening)
    requires ValidRequest(q) && LegalOpening(q, o)
    ensures var out := Initialize(limits, q, o);
      out.Moved? ==> LegalCatalog(out.loop, o) && ValidLoop(out.loop)
  {
    match q
    case StartRequest(_, _) => StartCheckpointValid(q, o.id);
    case ContinueRequest(_) =>
    case ResumeRequest(c, append, metadata) =>
      CommitOutcome(limits, Given(c, o.supply), Plan(Resumes(append, metadata), [], [], false), o.timing, o.id,
                    o.supply);
  }

  /**
   * Resuming raises exactly when its metadata has an empty key. Otherwise what
   * is committed is the resumption, or the deadline when it came first.
   */
  lemma ResumeOutcome(limits: Limits, q: Request, o: Opening)
    requires q.ResumeRequest? && ValidRequest(q) && LegalOpening(q, o)
    ensures var out, cause := Initialize(limits, q, o), Resumes(q.append, q.metadata);
      && (out.Crashed? <==> !NamedKeys(Keys(q.metadata)))
      && (out.Moved? ==>
            Advances(Given(q.checkpoint, o.supply), Plan(cause, [], [], false), CommittedCause(cause, o.timing),
                     limits, out.loop)
            && out.loop.checkpoint.id == o.id && out.loop.supply == o.supply
            && out.events == [CommitEvent(out.loop.checkpoint)])
  {
    var p := Plan(Resumes(q.append, q.metadata), [], [], false);
    CommitOutcome(limits, Given(q.checkpoint, o.supply), p, o.timing, o.id, o.supply);
    var out := Initialize(limits, q, o);
    if out.Moved? { assert [] + out.events == out.events; }
  }

  /**
   * Preparing raises exactly when the catalog pauses with an empty metadata key.
   * Otherwise the loop is entered, or the catalog's pause, limit or failure is
   * committed, or the deadline when it came first.
   */
  lemma OpenedOutcome(limits: Limits, l: Loop, o: Opening)
    requires ValidLoop(l) && l.checkpoint.snapshot.state.Active? && LegalCatalog(l, o)
    ensures var out, cause, waiting := Opened(limits, l, o), CatalogCause(o.catalog), l.deferred + o.inserts;
      && (out.Crashed? <==> o.catalog.CatalogPaused? && !NamedKeys(Keys(o.catalog.suspension.metadata)))
      && (cause.None? ==> out == Moved(l.(deferred := waiting, supply := l.supply - |o.inserts|), []))
      && (cause.Some? && out.Moved? ==>
            Allowed(l.checkpoint.snapshot, cause.value)
            && Advances(l, Plan(cause.value, [], waiting, false), CommittedCause(cause.value, o.catalogTiming), limits,
                        out.loop)
            && out.loop.checkpoint.id == o.catalogId && out.loop.supply == l.supply - |o.inserts|
            && out.events == [CommitEvent(out.loop.checkpoint)])
  {
    JoinInserts(l.deferred, o.inserts);
    var cause := CatalogCause(o.catalog);
    if cause.Some? {
      var p := Plan(cause.value, [], l.deferred + o.inserts, false);
      CommitOutcome(limits, l, p, o.catalogTiming, o.catalogId, l.supply - |o.inserts|);
      if Opened(limits, l, o).Moved? { assert [] + Opened(limits, l, o).events == Opened(limits, l, o).events; }
    }
  }

  lemma OpenedLegal(limits: Limits, l: Loop, o: Opening)
    requires ValidLoop(l) && l.checkpoint.snapshot.state.Active? && LegalCatalog(l, o)
    ensures var out := Opened(limits, l, o);
      out.Moved? ==> ValidLoop(out.loop)
  {
    var cause := CatalogCause(o.catalog);
    JoinInserts(l.deferred, o.inserts);
    if cause.Some? {
      CommitOutcome(limits, l, Plan(cause.value, [], l.deferred + o.inserts, false), o.catalogTiming, o.catalogId,
                    l.supply - |o.inserts|);
    }
  }

  lemma OpenedAccepted(v: Evidence, limits: Limits, l: Loop, o: Opening)
    requires ValidLoop(l) && l.checkpoint.snapshot.state.Active? && LegalCatalog(l, o)
    requires At(v, l) && Idle(v) && Underway(v)
    ensures var out := Opened(limits, l, o);
      out.Crashed? || Accepts(v, out.loop, out.events)
  {
    var cause := CatalogCause(o.catalog);
    JoinInserts(l.deferred, o.inserts);
    assert VisitAll(v, []) == Ok(v);
    if cause.Some? {
      MoveAccepted(v, limits, l, Plan(cause.value, [], l.deferred + o.inserts, false), o.catalogTiming, o.catalogId,
                   l.supply - |o.inserts|);
    }
  }

  /** A whole script of what the outside world does can happen. */
  predicate LegalScript(cfg: Config, q: Request, o: Opening, rounds: seq<Round>)
    requires ValidRequest(q)
  {
    && ValidLimits(cfg.limits) && LegalOpening(q, o)
    && (InitializeLegal(cfg.limits, q, o);
        var begun := Initialize(cfg.limits, q, o);
        if begun.Crashed? || !begun.loop.checkpoint.snapshot.state.Active? then rounds == []
        else
          (OpenedLegal(cfg.limits, begun.loop, o);
           var ready := Opened(cfg.limits, begun.loop, o);
           if ready.Crashed? then rounds == [] else LegalRun(cfg, ready.loop, rounds)))
  }

  /** run: every event between the first and the last, and the checkpoint reached. */
  function Invoke(cfg: Config, q: Request, o: Opening, rounds: seq<Round>): Outcome
    requires ValidRequest(q) && LegalScript(cfg, q, o, rounds)
  {
    InitializeLegal(cfg.limits, q, o);
    var begun := Initialize(cfg.limits, q, o);
    if begun.Crashed? || !begun.loop.checkpoint.snapshot.state.Active? then begun
    else
      OpenedLegal(cfg.limits, begun.loop, o);
      match Opened(cfg.limits, begun.loop, o)
      case Crashed => Crashed
      case Moved(l, events) => Prepend(begun.events + events, RunRounds(cfg, l, rounds))
  }

  lemma InvocationAccepted(cfg: Config, q: Request, o: Opening, rounds: seq<Round>)
    requires ValidRequest(q) && LegalScript(cfg, q, o, rounds)
    ensures var out := Invoke(cfg, q, o, rounds);
      out.Crashed? || Accepts(AfterStart(q), out.loop, out.events)
  {
    InitializeLegal(cfg.limits, q, o);
    InitializeAccepted(cfg.limits, q, o);
    var v, begun := AfterStart(q), Initialize(cfg.limits, q, o);
    if begun.Moved? && begun.loop.checkpoint.snapshot.state.Active? {
      var w := VisitAll(v, begun.events).value;
      OpenedAccepted(w, cfg.limits, begun.loop, o);
      var ready := Opened(cfg.limits, begun.loop, o);
      if ready.Moved? {
        AcceptsJoin(v, begun.loop, begun.events, ready.loop, ready.events);
        var events := begun.events + ready.events;
        RoundsAccepted(VisitAll(v, events).value, cfg, ready.loop, rounds);
        var out := RunRounds(cfg, ready.loop, rounds);
        if out.Moved? { AcceptsJoin(v, ready.loop, events, out.loop, out.events); }
      }
    }
  }

  /** _stop */
  function StopEvent(l: Loop): Event {
    InvocationStopped(if l.checkpoint.snapshot.state.Suspended? then SuspendedStop else TerminalStop,
                      Some(l.checkpoint.id))
  }

  /** The whole event stream of an invocation that stops on its own. */
  function Stream(q: Request, out: Outcome): seq<Event>
    requires out.Moved?
  {
    [StartEvent(q)] + out.events + [StopEvent(out.loop)]
  }

  lemma StopAccepted(v: Evidence, l: Loop)
    requires ValidLoop(l) && At(v, l) && Idle(v) && !l.checkpoint.snapshot.state.Active?
    ensures StopError(v, StopEvent(l)).None?
  {
  }

  /** A followed body between its first and last event is an accepted stream. */
  lemma BodyIsAccepted(q: Request, l: Loop, body: seq<Event>)
    requires ValidRequest(q) && Accepts(AfterStart(q), l, body) && !l.checkpoint.snapshot.state.Active?
    ensures VerifyEvents(KindOfRequest(q), [StartEvent(q)] + body + [StopEvent(l)]).Ok?
  {
    var events := [StartEvent(q)] + body + [StopEvent(l)];
    StartAccepted(q);
    assert events[1..|events| - 1] == body;
    StopAccepted(VisitAll(AfterStart(q), body).value, l);
  }

  /**
   * Checker completeness: with fresh call ids and named metadata keys, every
   * event stream of an invocation that stops as terminal or suspended is
   * accepted, whatever tools, approvals, controls, model and clock did.
   */
  lemma StreamIsAccepted(cfg: Config, q: Request, o: Opening, rounds: seq<Round>)
    requires ValidRequest(q) && LegalScript(cfg, q, o, rounds)
    requires var out := Invoke(cfg, q, o, rounds);
      out.Moved? && !out.loop.checkpoint.snapshot.state.Active?
    ensures VerifyEvents(KindOfRequest(q), Stream(q, Invoke(cfg, q, o, rounds))).Ok?
  {
    hide Invoke, LegalScript, VerifyEvents;
    InvocationAccepted(cfg, q, o, rounds);
    BodyIsAccepted(q, Invoke(cfg, q, o, rounds).loop, Invoke(cfg, q, o, rounds).events);
  }
}
