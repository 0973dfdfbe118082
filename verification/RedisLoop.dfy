/**
 * The Redis commit loop (jharness-repository, redis.py, _commit_identity): it
 * probes, commits, and settles lost responses, while other clients commit in
 * between.
 */
module RedisLoop {
  import opened Messages
  import opened Checkpoints
  import opened Durable
  import opened Repository
  import opened RedisStore

  datatype ProbeFault = ProbeAnswers | ProbeFails(ofRedis: bool)

  /** What goes wrong with a commit script. Where its effect is open it took effect, or never will. */
  datatype CommitFault =
    | ScriptAnswers
    | ErrorReply(provesNoWrite: bool, applied: bool)
    | ConnectionFails(applied: bool)
    | OtherError

  /** One pass of the loop: what other clients commit before the probe and before the script, and the faults. */
  datatype Pass = Pass(before: seq<DurableCommit>, probe: ProbeFault, between: seq<DurableCommit>, commit: CommitFault)

  datatype Settled = Returned | RaisedFault | RaisedAnswer(response: Response) | StillRunning

  ghost predicate AllOf(run: Text, commits: seq<DurableCommit>) {
    forall i :: 0 <= i < |commits| ==> ValidCommit(commits[i]) && RunOf(commits[i].checkpoint) == run
  }

  ghost predicate ValidPass(run: Text, p: Pass) { AllOf(run, p.before) && AllOf(run, p.between) }

  /** A reply that proves no write comes with none. */
  predicate TookEffect(f: CommitFault) {
    (f.ErrorReply? && !f.provesNoWrite && f.applied) || (f.ConnectionFails? && f.applied)
  }

  lemma RunHolds(db: RedisRun)
    requires db.Valid()
    ensures Holds(db.View(), db.known.chain)
  {
  }

  /** Other clients commit, one script after the other. */
  method Interfere(db: RedisRun, others: seq<DurableCommit>)
    requires db.Valid() && AllOf(db.run, others)
    modifies db
    ensures db.Valid() && old(db.known.chain) <= db.known.chain
    ensures db.View() == AfterOthers(old(db.View()), db.run, others)
  {
    hide After, Respond, ValidCommit, Kept;
    for i := 0 to |others|
      invariant db.Valid() && old(db.known.chain) <= db.known.chain
      invariant db.View() == AfterOthers(old(db.View()), db.run, others[..i])
    {
      assert others[..i + 1][..i] == others[..i] && others[..i + 1][i] == others[i];
      var _ := db.CommitScript(others[i]);
    }
    assert others[..|others|] == others;
  }

  // ------------------------------------------------------- one pass, by values

  /** The store the probe of a pass meets, and the one its script meets. */
  function Probed(store: RunStore, c: DurableCommit, p: Pass): RunStore {
    AfterOthers(store, RunOf(c.checkpoint), p.before)
  }

  function Scripted(store: RunStore, c: DurableCommit, p: Pass): RunStore {
    AfterOthers(Probed(store, c, p), RunOf(c.checkpoint), p.between)
  }

  /** How a pass ends the loop, if it does. */
  function EndOf(store: RunStore, c: DurableCommit, p: Pass, cluster: bool, unknown: bool): Settled {
    if !p.probe.ProbeAnswers? then if unknown && p.probe.ofRedis then StillRunning else RaisedFault
    else
      var probe := ProbeAnswer(Probed(store, c, p), c);
      if probe.Says? then if probe.response == Known then Returned else RaisedAnswer(probe.response)
      else match p.commit
        case OtherError => RaisedFault
        case ScriptAnswers =>
          var met := Scripted(store, c, p);
          if Welcomes(met, c) then Returned else RaisedAnswer(Respond(met, c))
        case ErrorReply(provesNoWrite, _) => if !cluster && provesNoWrite then RaisedFault else StillRunning
        case ConnectionFails(_) => StillRunning
  }

  /** The store after a pass. */
  function LeftAfter(store: RunStore, c: DurableCommit, p: Pass): RunStore {
    if !p.probe.ProbeAnswers? || ProbeAnswer(Probed(store, c, p), c) != IsNew then Probed(store, c, p)
    else if p.commit.OtherError? then Scripted(store, c, p)
    else if p.commit.ScriptAnswers? || TookEffect(p.commit) then After(Scripted(store, c, p), c)
    else Scripted(store, c, p)
  }

  /** The loop over the passes still given; a pass whose script was sent and not answered leaves the outcome unknown. */
  function LoopEnds(store: RunStore, c: DurableCommit, passes: seq<Pass>, cluster: bool, unknown: bool): Settled
    decreases |passes|
  {
    if passes == [] then StillRunning
    else
      var end := EndOf(store, c, passes[0], cluster, unknown);
      if end != StillRunning then end
      else LoopEnds(LeftAfter(store, c, passes[0]), c, passes[1..], cluster, true)
  }

  // ----------------------------------------------------------- when it returns

  /** The store before pass k, if the loop gets there. */
  function StoreAt(store: RunStore, c: DurableCommit, passes: seq<Pass>, k: nat): RunStore
    requires k <= |passes|
    decreases k
  {
    if k == 0 then store else StoreAt(LeftAfter(store, c, passes[0]), c, passes[1..], k - 1)
  }

  /** The loop goes on after a script without an answer, and once the outcome is unknown after a failing probe too. */
  predicate PassesOn(p: Pass, cluster: bool, unknown: bool) {
    if p.probe.ProbeFails? then unknown && p.probe.ofRedis
    else (p.commit.ErrorReply? && (cluster || !p.commit.provesNoWrite)) || p.commit.ConnectionFails?
  }

  /** A pass without a fault. */
  predicate Clear(p: Pass) { p.probe.ProbeAnswers? && p.commit.ScriptAnswers? }

  predicate GetsTo(passes: seq<Pass>, cluster: bool, unknown: bool, k: nat) {
    k < |passes| && forall i :: 0 <= i < k ==> PassesOn(passes[i], cluster, unknown || i > 0)
  }

  /** Both stores of a pass let the commit through. */
  predicate Open(store: RunStore, c: DurableCommit, p: Pass) {
    Welcomes(Probed(store, c, p), c) && Welcomes(Scripted(store, c, p), c)
  }

  predicate OpenTo(store: RunStore, c: DurableCommit, passes: seq<Pass>, k: nat)
    requires k < |passes|
  {
    forall i: nat :: i <= k ==> Open(StoreAt(store, c, passes, i), c, passes[i])
  }

  lemma OpenNext(store: RunStore, c: DurableCommit, passes: seq<Pass>, k: nat)
    requires 0 < k < |passes| && OpenTo(store, c, passes, k)
    ensures Open(store, c, passes[0]) && OpenTo(LeftAfter(store, c, passes[0]), c, passes[1..], k - 1)
  {
    assert Open(StoreAt(store, c, passes, 0), c, passes[0]);
    forall i: nat | i <= k - 1
      ensures Open(StoreAt(LeftAfter(store, c, passes[0]), c, passes[1..], i), c, passes[1..][i])
    {
      assert Open(StoreAt(store, c, passes, i + 1), c, passes[i + 1]);
    }
  }

  /** A probe that finds the run open to the commit says it is new or known. */
  lemma OpenProbe(store: RunStore, c: DurableCommit)
    requires Welcomes(store, c)
    ensures ProbeAnswer(store, c) == IsNew || ProbeAnswer(store, c) == Says(Known)
    ensures Respond(store, c) == Known ==> ProbeAnswer(store, c) == Says(Known)
  {
  }

  /**
   * The settling law: when the faults let the loop get to a pass without one,
   * and every store met on the way lets the commit through, it returns.
   */
  lemma {:induction false} LoopReturns(store: RunStore, c: DurableCommit, passes: seq<Pass>, cluster: bool,
                                       unknown: bool, k: nat)
    requires GetsTo(passes, cluster, unknown, k) && Clear(passes[k]) && OpenTo(store, c, passes, k)
    ensures LoopEnds(store, c, passes, cluster, unknown) == Returned
    decreases k
  {
    hide Respond, Probed, Scripted, LeftAfter, Welcomes, ProbeAnswer, OpenTo;
    if k == 0 {
      assert Open(StoreAt(store, c, passes, 0), c, passes[0]) by { OpenHere(store, c, passes, 0); }
    } else {
      OpenNext(store, c, passes, k);
      assert GetsTo(passes[1..], cluster, true, k - 1);
    }
    OpenProbe(Probed(store, c, passes[0]), c);
    if EndOf(store, c, passes[0], cluster, unknown) == StillRunning && k > 0 {
      LoopReturns(LeftAfter(store, c, passes[0]), c, passes[1..], cluster, true, k - 1);
    }
  }

  lemma OpenHere(store: RunStore, c: DurableCommit, passes: seq<Pass>, k: nat)
    requires k < |passes| && OpenTo(store, c, passes, k)
    ensures Open(StoreAt(store, c, passes, k), c, passes[k])
  {
  }

  /** One pass keeps a ledger, and whatever is in it. */
  lemma PassHolds(store: RunStore, chain: seq<Checkpoint>, c: DurableCommit, p: Pass)
    returns (later: seq<Checkpoint>)
    requires Holds(store, chain) && ValidCommit(c) && ValidPass(RunOf(c.checkpoint), p)
    ensures Holds(LeftAfter(store, c, p), later)
    ensures InLedger(store.ledger, c.checkpoint) ==>
      && Open(store, c, p) && InLedger(LeftAfter(store, c, p).ledger, c.checkpoint)
      && ProbeAnswer(Probed(store, c, p), c) == Says(Known)
    ensures Open(store, c, p) && p.probe.ProbeAnswers? && (p.commit.ScriptAnswers? || TookEffect(p.commit)) ==>
      InLedger(LeftAfter(store, c, p).ledger, c.checkpoint)
  {
    hide Holds, Respond, After, ValidCommit, AfterOthers, Welcomes, InLedger, ProbeAnswer;
    var run, probed, met := RunOf(c.checkpoint), Probed(store, c, p), Scripted(store, c, p);
    AllAreValid(run, p.before);
    AllAreValid(run, p.between);
    var first := OthersHold(store, chain, run, p.before);
    var second := OthersHold(probed, first, run, p.between);
    LedgerWelcomes(probed, first, c);
    LedgerWelcomes(met, second, c);
    if InLedger(store.ledger, c.checkpoint) { EntryStaysOthers(store, c.checkpoint, run, p.before); }
    if InLedger(probed.ledger, c.checkpoint) { EntryStaysOthers(probed, c.checkpoint, run, p.between); }
    ProbeKnows(probed, c);
    LedgerLaw(met, second, c);
    later := if LeftAfter(store, c, p) == probed then first
             else if LeftAfter(store, c, p) == met then second else second + [c.checkpoint];
  }

  lemma AllAreValid(run: Text, commits: seq<DurableCommit>)
    requires AllOf(run, commits)
    ensures AllValid(commits)
  {
  }

  /** A probe says known exactly when the ledger does, and new only for an id the ledger lacks. */
  lemma ProbeKnows(store: RunStore, c: DurableCommit)
    ensures Respond(store, c) == Known ==> ProbeAnswer(store, c) == Says(Known)
    ensures Welcomes(store, c) && ProbeAnswer(store, c) != IsNew ==> Respond(store, c) == Known
  {
  }

  /** With the commit in the ledger the first probe that is answered returns, whatever others do. */
  lemma {:induction false} LedgerReturns(store: RunStore, chain: seq<Checkpoint>, c: DurableCommit, passes: seq<Pass>,
                                         cluster: bool, unknown: bool, k: nat)
    requires Holds(store, chain) && ValidCommit(c) && InLedger(store.ledger, c.checkpoint) && k < |passes|
    requires forall i :: 0 <= i < |passes| ==> ValidPass(RunOf(c.checkpoint), passes[i])
    requires passes[k].probe.ProbeAnswers? && (k > 0 ==> unknown)
    requires forall i :: 0 <= i < k ==> passes[i].probe == ProbeFails(true)
    ensures LoopEnds(store, c, passes, cluster, unknown) == Returned
    decreases k
  {
    hide Holds, Respond, After, ValidCommit, ValidPass, Probed, Scripted, LeftAfter, Welcomes, ProbeAnswer, InLedger;
    var later := PassHolds(store, chain, c, passes[0]);
    if k > 0 { LedgerReturns(LeftAfter(store, c, passes[0]), later, c, passes[1..], cluster, true, k - 1); }
  }

  /**
   * A commit that took effect before its answer was lost is settled: the loop
   * returns at the next probe that is answered, if until then probes fail by
   * Redis errors only, whatever other clients commit in between.
   */
  lemma AppliedIsSettled(store: RunStore, chain: seq<Checkpoint>, c: DurableCommit, passes: seq<Pass>, cluster: bool,
                         unknown: bool, k: nat)
    requires Holds(store, chain) && ValidCommit(c) && 0 < k < |passes|
    requires forall i :: 0 <= i < |passes| ==> ValidPass(RunOf(c.checkpoint), passes[i])
    requires passes[0].probe.ProbeAnswers? && TookEffect(passes[0].commit) && Open(store, c, passes[0])
    requires (forall i :: 0 < i < k ==> passes[i].probe == ProbeFails(true)) && passes[k].probe.ProbeAnswers?
    ensures LoopEnds(store, c, passes, cluster, unknown) == Returned
  {
    hide Holds, Respond, After, ValidCommit, ValidPass, Probed, Scripted, LeftAfter, Welcomes, ProbeAnswer, InLedger;
    var later := PassHolds(store, chain, c, passes[0]);
    OpenProbe(Probed(store, c, passes[0]), c);
    LedgerReturns(LeftAfter(store, c, passes[0]), later, c, passes[1..], cluster, true, k - 1);
  }

  // ------------------------------------------------------ how it ends, exactly

  /** The loop goes on behind pass i, having come to it. */
  predicate GoesOn(store: RunStore, c: DurableCommit, passes: seq<Pass>, cluster: bool, unknown: bool, i: nat)
    requires i < |passes|
  {
    && PassesOn(passes[i], cluster, unknown || i > 0)
    && (passes[i].probe.ProbeAnswers? ==> IsOpen(Probed(StoreAt(store, c, passes, i), c, passes[i]), c))
  }

  /** The probe finds neither the checkpoint nor another head than the one it expects. */
  predicate IsOpen(store: RunStore, c: DurableCommit) {
    && c.checkpoint.id !in store.ledger
    && c.checkpoint.snapshot.revision
       == match store.head case None => 0 case Some(head) => head.snapshot.revision + 1
  }

  /** How the loop ends at a pass behind which it does not go on. */
  predicate EndsAs(store: RunStore, c: DurableCommit, p: Pass, settled: Settled) {
    if p.probe.ProbeFails? then settled == RaisedFault
    else if !IsOpen(Probed(store, c, p), c) then Tells(Probed(store, c, p), c, settled)
    else if p.commit.ScriptAnswers? then Tells(Scripted(store, c, p), c, settled)
    else settled == RaisedFault
  }

  predicate Tells(met: RunStore, c: DurableCommit, settled: Settled) {
    settled == if Welcomes(met, c) then Returned else RaisedAnswer(Respond(met, c))
  }

  lemma OpenMeansNew(store: RunStore, c: DurableCommit)
    requires HeadCounts(store) && ValidCommit(c)
    ensures ProbeAnswer(store, c) == if IsOpen(store, c) then IsNew else Says(Respond(store, c))
    ensures !IsOpen(store, c) ==> (Welcomes(store, c) <==> Respond(store, c) == Known)
  {
    assert c.checkpoint.snapshot.revision >= 0;
    hide ValidCommit;
  }

  /** One pass: the loop goes on from what it leaves, or ends there. */
  lemma PassStep(store: RunStore, c: DurableCommit, passes: seq<Pass>, cluster: bool, unknown: bool)
    requires passes != [] && HeadCounts(Probed(store, c, passes[0])) && ValidCommit(c)
    ensures var settled := LoopEnds(store, c, passes, cluster, unknown);
      if GoesOn(store, c, passes, cluster, unknown, 0) then
        settled == LoopEnds(LeftAfter(store, c, passes[0]), c, passes[1..], cluster, true)
      else EndsAs(store, c, passes[0], settled)
  {
    OpenMeansNew(Probed(store, c, passes[0]), c);
    hide Probed, Scripted, LeftAfter, Respond, Welcomes, IsOpen, ProbeAnswer, HeadCounts, ValidCommit;
  }

  lemma PassCounts(store: RunStore, c: DurableCommit, p: Pass)
    requires HeadCounts(store) && ValidCommit(c) && ValidPass(RunOf(c.checkpoint), p)
    ensures HeadCounts(Probed(store, c, p)) && HeadCounts(LeftAfter(store, c, p))
  {
    AllAreValid(RunOf(c.checkpoint), p.before);
    AllAreValid(RunOf(c.checkpoint), p.between);
    OthersCount(store, RunOf(c.checkpoint), p.before);
    OthersCount(Probed(store, c, p), RunOf(c.checkpoint), p.between);
    assert c.checkpoint.snapshot.revision >= 0;
    hide AfterOthers, Respond, ValidCommit, ProbeAnswer;
  }

  /**
   * How the loop ends, for any passes: at the first one behind which it does
   * not go on, with what that met; and while it goes on behind all of them it
   * is still running.
   */
  lemma {:induction false} LoopExactly(store: RunStore, c: DurableCommit, passes: seq<Pass>, cluster: bool,
                                       unknown: bool, k: nat)
    requires HeadCounts(store) && ValidCommit(c) && k <= |passes|
    requires forall i :: 0 <= i < |passes| ==> ValidPass(RunOf(c.checkpoint), passes[i])
    requires forall i: nat :: i < k ==> GoesOn(store, c, passes, cluster, unknown, i)
    requires k < |passes| ==> !GoesOn(store, c, passes, cluster, unknown, k)
    ensures var settled := LoopEnds(store, c, passes, cluster, unknown);
      if k == |passes| then settled == StillRunning else EndsAs(StoreAt(store, c, passes, k), c, passes[k], settled)
    decreases k
  {
    hide Probed, HeadCounts, ValidCommit, ValidPass, EndsAs, LeftAfter, PassesOn, IsOpen, EndOf;
    if passes != [] {
      PassCounts(store, c, passes[0]);
      PassStep(store, c, passes, cluster, unknown);
      if k > 0 {
        var left, rest := LeftAfter(store, c, passes[0]), passes[1..];
        forall i: nat | i < |rest|
          ensures GoesOn(left, c, rest, cluster, true, i) == GoesOn(store, c, passes, cluster, unknown, i + 1)
        {
          assert rest[i] == passes[i + 1] && StoreAt(store, c, passes, i + 1) == StoreAt(left, c, rest, i);
        }
        LoopExactly(left, c, rest, cluster, true, k - 1);
        if k < |passes| {
          assert StoreAt(store, c, passes, k) == StoreAt(left, c, rest, k - 1) && rest[k - 1] == passes[k];
        }
      }
    }
  }

  // ------------------------------------------------------------- the loop itself

  lemma AskedOnce(store: RunStore, chain: seq<Checkpoint>, c: DurableCommit)
    requires Holds(store, chain) && ValidCommit(c)
    ensures var r := Respond(store, c);
      && (r == Stored || r == Known ==> InLedger(After(store, c).ledger, c.checkpoint))
      && (r != Stored ==> After(store, c) == store)
      && (r == Stored ==> !InLedger(store.ledger, c.checkpoint))
      && (r.Conflict? ==> !Passed(chain, c.checkpoint.id) && !InLedger(store.ledger, c.checkpoint))
      && (InLedger(store.ledger, c.checkpoint) <==> r == Known)
  {
    LedgerLaw(store, chain, c);
  }

  lemma KeepsEntry(store: RunStore, c: Checkpoint, run: Text, commits: seq<DurableCommit>)
    ensures InLedger(store.ledger, c) ==> InLedger(AfterOthers(store, run, commits).ledger, c)
  {
    if InLedger(store.ledger, c) { EntryStaysOthers(store, c, run, commits); }
  }

  /** The commit script, when it runs to its end. */
  method Apply(db: RedisRun, c: DurableCommit) returns (response: Response, ghost wrote: bool)
    requires db.Valid() && ValidCommit(c) && RunOf(c.checkpoint) == db.run
    modifies db
    ensures db.Valid() && old(db.known.chain) <= db.known.chain
    ensures response == Respond(old(db.View()), c) && db.View() == After(old(db.View()), c)
    ensures wrote <==> response == Stored
    ensures wrote ==> !old(InLedger(db.View().ledger, c.checkpoint))
    ensures response == Stored || response == Known ==> InLedger(db.View().ledger, c.checkpoint)
    ensures old(InLedger(db.View().ledger, c.checkpoint)) ==> InLedger(db.View().ledger, c.checkpoint)
    ensures response.Conflict? ==>
      !Passed(db.known.chain, c.checkpoint.id) && !InLedger(db.View().ledger, c.checkpoint)
  {
    hide ValidCommit, Kept, After, Holds;
    RunHolds(db);
    ghost var before, chain := db.View(), db.known.chain;
    AskedOnce(before, chain, c);
    var s := db.CommitScript(c);
    response := s.response;
    wrote := response == Stored;
  }

  /** The probe of one pass. */
  method ProbeOnce(db: RedisRun, c: DurableCommit) returns (s: Script)
    requires db.Valid() && ValidCommit(c) && RunOf(c.checkpoint) == db.run
    ensures s == ProbeAnswer(db.View(), c) && (s == IsNew || s.Says?)
    ensures s == IsNew ==> !InLedger(db.View().ledger, c.checkpoint)
    ensures s == Says(Known) ==> InLedger(db.View().ledger, c.checkpoint)
    ensures s.Says? && s.response.Conflict? ==> !Passed(db.known.chain, c.checkpoint.id)
    ensures s.Says? && s.response != Known ==> !InLedger(db.View().ledger, c.checkpoint)
  {
    hide ValidCommit, Kept, Holds, Respond;
    RunHolds(db);
    AskedOnce(db.View(), db.known.chain, c);
    s := db.Probe(c);
  }

  /** One pass of the loop: whether it ends it, and whether an outcome is unknown afterwards. */
  method PassOnce(db: RedisRun, c: DurableCommit, p: Pass, cluster: bool, before: bool)
    returns (end: Settled, unknown: bool, ghost wrote: bool)
    requires db.Valid() && ValidCommit(c) && RunOf(c.checkpoint) == db.run && ValidPass(db.run, p)
    modifies db
    ensures db.Valid() && old(db.known.chain) <= db.known.chain
    ensures end == EndOf(old(db.View()), c, p, cluster, before) && db.View() == LeftAfter(old(db.View()), c, p)
    ensures end == StillRunning ==> unknown
    ensures wrote ==> !old(InLedger(db.View().ledger, c.checkpoint)) && (end == Returned || unknown)
    ensures wrote || end == Returned || old(InLedger(db.View().ledger, c.checkpoint)) ==>
      InLedger(db.View().ledger, c.checkpoint)
    ensures old(InLedger(db.View().ledger, c.checkpoint)) && before && end != Returned ==> unknown
    ensures end.RaisedAnswer? && end.response.Conflict? ==>
      !Passed(db.known.chain, c.checkpoint.id) && !InLedger(db.View().ledger, c.checkpoint)
  {
    hide ValidCommit, Kept, AllOf, Holds, Respond, InLedger, Passed, After, AfterOthers, ProbeAnswer;
    unknown, wrote := before, false;
    KeepsEntry(db.View(), c.checkpoint, db.run, p.before);
    Interfere(db, p.before);
    if !p.probe.ProbeAnswers? {
      end := if !unknown || !p.probe.ofRedis then RaisedFault else StillRunning;
      return;
    }
    var s := ProbeOnce(db, c);
    if s.Says? {
      end := if s.response == Known then Returned else RaisedAnswer(s.response);
      return;
    }
    unknown := false;
    KeepsEntry(db.View(), c.checkpoint, db.run, p.between);
    Interfere(db, p.between);
    if p.commit.OtherError? {
      end := RaisedFault;
      return;
    }
    if p.commit.ScriptAnswers? {
      var response;
      response, wrote := Apply(db, c);
      end := if response == Stored || response == Known then Returned else RaisedAnswer(response);
      return;
    }
    if TookEffect(p.commit) {
      var unheard;
      unheard, wrote := Apply(db, c);
    } else if p.commit.ErrorReply? && !cluster && p.commit.provesNoWrite {
      end := RaisedFault;
      return;
    }
    end, unknown := StillRunning, true;
  }

  /**
   * _commit_identity, for any faults and any interference. It returns only with
   * the checkpoint in the chain exactly once; it raises a revision conflict only
   * if the checkpoint never took effect; and it never writes twice. How it ends
   * is what the settling laws speak of.
   */
  method CommitIdentity(db: RedisRun, c: DurableCommit, cluster: bool, passes: seq<Pass>)
    returns (settled: Settled, ghost writes: nat, unknown: bool)
    requires db.Valid() && ValidCommit(c) && RunOf(c.checkpoint) == db.run
    requires forall i :: 0 <= i < |passes| ==> ValidPass(db.run, passes[i])
    modifies db
    ensures db.Valid() && old(db.known.chain) <= db.known.chain && writes <= 1
    ensures settled == Returned ==> AppearsOnce(db.known.chain, c.checkpoint)
    ensures settled.RaisedAnswer? && settled.response.Conflict?
      ==> writes == 0 && !Passed(db.known.chain, c.checkpoint.id)
    ensures (settled.RaisedFault? || settled.RaisedAnswer?) && !unknown ==> writes == 0
    ensures writes == 1 ==> AppearsOnce(db.known.chain, c.checkpoint)
    ensures settled == LoopEnds(old(db.View()), c, passes, cluster, false)
  {
    hide ValidCommit, Kept, AppearsOnce, ValidPass, Holds, InLedger, Passed, EndOf, LeftAfter;
    assert passes[0..] == passes;
    unknown, writes, settled := false, 0, StillRunning;
    for i := 0 to |passes|
      invariant db.Valid() && old(db.known.chain) <= db.known.chain && writes <= 1 && settled == StillRunning
      invariant writes == 1 ==> unknown && InLedger(db.View().ledger, c.checkpoint)
      invariant LoopEnds(db.View(), c, passes[i..], cluster, unknown)
             == LoopEnds(old(db.View()), c, passes, cluster, false)
    {
      assert passes[i..][1..] == passes[i + 1..];
      ghost var wrote;
      settled, unknown, wrote := PassOnce(db, c, passes[i], cluster, unknown);
      if wrote { writes := writes + 1; }
      if settled != StillRunning { break; }
    }
    RunHolds(db);
    if InLedger(db.View().ledger, c.checkpoint) { LedgerMeansOnce(db.View(), db.known.chain, c.checkpoint); }
  }
}
