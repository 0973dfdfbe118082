/**
 * What starting, resuming and preparing an invocation lead to, stated on the
 * durable checkpoint (_engine/engine.py, _initialize and _prepare).
 */
module Openings {
  import opened Wrappers
  import opened Messages
  import opened State
  import opened Checkpoints
  import opened Views
  import opened Commits
  import opened Trace
  import opened ToolExecution
  import opened Rounds
  import opened Progress
  import opened Runs
  import opened Endings

  /**
   * A started run begins with a checkpoint of its messages at revision 0, in
   * planning and with nothing spent; a continued one goes on from its
   * checkpoint; a resumed one commits its resumption, or raises, and the
   * deadline when the commit is late.
   */
  lemma InitializeEnds(limits: Limits, q: Request, o: Opening)
    requires ValidRequest(q) && LegalOpening(q, o)
    ensures var out := Initialize(limits, q, o);
      match q
      case StartRequest(context, messages) =>
        && out.Moved?
        && var c := Checkpoint(o.id, Snapshot(0, context, messages, Metrics(0, 0, NO_USAGE), Active(Planning(false))),
                               Started(Roles(messages)));
          && out.loop == Loop(c, [], false, {o.id}, o.supply)
          && out.events == [CheckpointCommitted(o.id, c.fact, ViewOf(c.snapshot))]
      case ContinueRequest(c) => out == Moved(Loop(c, [], false, {c.id}, o.supply), [])
      case ResumeRequest(c, append, metadata) =>
        var l, k := Loop(c, [], false, {c.id}, o.supply), Kept([], false, []);
        && (o.timing == OnTime ==> Continues(l, o.id, out, k, append, metadata))
        && (o.timing != OnTime ==> LimitsOrRaises(l, o.id, out, k, metadata))
  {
    if q.ResumeRequest? {
      hide Initialize, ValidSnapshot, LegalOpening, Continues;
      ResumeEnds(limits, q, o);
    }
  }

  /** A late commit raises on an empty metadata key, and limits the run otherwise. */
  predicate LimitsOrRaises(l: Loop, id: Text, out: Outcome, k: Kept, metadata: Metadata) {
    if "" in Keys(metadata) then out.Crashed? else EndsLimited(l, id, out, k, DeadlineReached)
  }

  lemma ResumeEnds(limits: Limits, q: Request, o: Opening)
    requires q.ResumeRequest? && ValidRequest(q) && LegalOpening(q, o)
    ensures var l, k := Loop(q.checkpoint, [], false, {q.checkpoint.id}, o.supply), Kept([], false, []);
      var out := Initialize(limits, q, o);
      && (o.timing == OnTime ==> Continues(l, o.id, out, k, q.append, q.metadata))
      && (o.timing != OnTime ==> LimitsOrRaises(l, o.id, out, k, q.metadata))
  {
    var l, p := Given(q.checkpoint, o.supply), Plan(Resumes(q.append, q.metadata), [], [], false);
    assert ValidLoop(l);
    assert Allowed(q.checkpoint.snapshot, p.cause) && o.id != "" && o.id !in l.used;
    hide ValidLoop, Allowed, Continues, ValidSnapshot, Commit;
    if o.timing == OnTime {
      CommitBecomes(limits, l, p, o.id, o.supply);
    } else {
      LateLimits(limits, l, p, o.timing, o.id, o.supply);
    }
  }

  /** A late commit of anything but a turn limits the run, unless its keys are not named. */
  lemma LateLimits(limits: Limits, l: Loop, p: Plan, timing: CommitTiming, id: Text, supply: nat)
    requires ValidLoop(l) && id != "" && id !in l.used && ProperInserts(p.deferred) && timing != OnTime
    requires Allowed(l.checkpoint.snapshot, p.cause) && !p.cause.Turns?
    ensures var out := Commit(limits, l, p, timing, id, supply);
      if !NamedKeys(FactKeys(p.cause)) then out.Crashed?
      else EndsLimited(l, id, out, Kept(p.deferred, p.skipReducer, p.events), DeadlineReached)
  {
    var s := l.checkpoint.snapshot;
    CommitOutcome(limits, l, p, timing, id, supply);
    CommitMakes(limits, l, p, timing, id, supply);
    NeverReuses(s, p.cause);
    hide Commit, ValidLoop, Allowed, FreshCalls, FactKeys;
    assert CommittedCause(p.cause, timing) == DEADLINE;
    assert s.history + [] == s.history && AdvanceMetrics(s.metrics, 0, 0, None) == s.metrics;
  }

  /** What each ending of opening the catalog leads to; inserts that came meanwhile are deferred. */
  lemma PrepareEnds(limits: Limits, l: Loop, o: Opening)
    requires ValidLoop(l) && l.checkpoint.snapshot.state.Active? && LegalCatalog(l, o) && o.catalogTiming == OnTime
    ensures var out, k := Opened(limits, l, o), Kept(l.deferred + o.inserts, false, []);
      match o.catalog
      case CatalogOpened =>
        out == Moved(Loop(l.checkpoint, l.deferred + o.inserts, l.skipReducer, l.used, l.supply - |o.inserts|), [])
      case CatalogPaused(suspension) => Suspends(l, o.catalogId, out, k, suspension)
      case CatalogTimedOut => EndsLimited(l, o.catalogId, out, k, DeadlineReached)
      case CatalogRaised(message) => EndsFailed(l, o.catalogId, out, k, "tool_catalog_error", message)
      case CapabilitiesRaised(message) => EndsFailed(l, o.catalogId, out, k, "model_capabilities_error", message)
  {
    JoinInserts(l.deferred, o.inserts);
    var cause := CatalogCause(o.catalog);
    if cause.Some? {
      hide ValidLoop, ValidSnapshot, Commit, Suspends, EndsLimited, EndsFailed, ProperInserts;
      CommitBecomes(limits, l, Plan(cause.value, [], l.deferred + o.inserts, false), o.catalogId,
                    l.supply - |o.inserts|);
    }
  }

  /** A late ending limits the run instead; an opened catalog commits nothing to be late with. */
  lemma LatePrepareEnds(limits: Limits, l: Loop, o: Opening)
    requires ValidLoop(l) && l.checkpoint.snapshot.state.Active? && LegalCatalog(l, o) && o.catalogTiming != OnTime
    requires !o.catalog.CatalogOpened?
    ensures var out, k := Opened(limits, l, o), Kept(l.deferred + o.inserts, false, []);
      LimitsOrRaises(l, o.catalogId, out, k, if o.catalog.CatalogPaused? then o.catalog.suspension.metadata else [])
  {
    JoinInserts(l.deferred, o.inserts);
    hide ValidLoop, ValidSnapshot, Commit, EndsLimited, ProperInserts;
    LateLimits(limits, l, Plan(CatalogCause(o.catalog).value, [], l.deferred + o.inserts, false), o.catalogTiming,
               o.catalogId, l.supply - |o.inserts|);
  }
}
