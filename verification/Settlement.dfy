/**
 * The MySQL commit loop (jharness-repository, mysql.py, _commit_sync): it
 * retries and settles commits whose response was lost, while other clients
 * commit in between.
 */
module Settlement {
  import opened Wrappers
  import opened Messages
  import opened Checkpoints
  import opened Durable
  import opened Repository
  import opened SqlStore

  /** An exception: one of the driver or the operating system, with its code, or any other. */
  datatype Failure = DriverFailure(code: Option<int>) | OtherFailure

  /** What goes wrong in one attempt. A commit whose response is lost took effect, or never will. */
  datatype Fault =
    | NoFault
    | FailsBefore(failure: Failure)
    | CommitRefused(failure: Failure)
    | ResponseLost(applied: bool)

  /** One attempt: what other clients commit before it, and its fault. */
  datatype Attempt = Attempt(others: seq<DurableCommit>, fault: Fault)

  /** How one attempt ended. */
  datatype Ended = Done | OutcomeUnknown | Failed(failure: Failure) | Answered(response: Response)

  /** How the loop ended. */
  datatype Settled = Returned | Raised(ended: Ended) | StillRunning

  predicate OrdinaryRetry(e: Ended) {
    e.Failed? && e.failure.DriverFailure? && e.failure.code.Some? && e.failure.code.value in {1062, 1205, 1213}
  }

  /** _is_mysql_settlement_retry: any exception of the driver or the operating system. */
  predicate SettlementRetry(e: Ended) { e.Failed? && e.failure.DriverFailure? }

  ghost predicate ValidAttempts(attempts: seq<Attempt>) {
    forall i :: 0 <= i < |attempts| ==> AllValid(attempts[i].others)
  }

  /** Other clients commit, one transaction after the other. */
  method Interfere(db: SqlRepository, others: seq<DurableCommit>, run: Text)
    requires db.Valid() && AllValid(others)
    modifies db
    ensures db.Valid() && old(db.Chain(run)) <= db.Chain(run)
    ensures db.View(run) == AfterOthers(old(db.View(run)), run, others)
  {
    hide AllValid, After, Respond, ValidCommit;
    for i := 0 to |others|
      invariant db.Valid() && old(db.Chain(run)) <= db.Chain(run)
      invariant db.View(run) == AfterOthers(old(db.View(run)), run, others[..i])
    {
      OneValid(others, i);
      assert others[..i + 1][..i] == others[..i] && others[..i + 1][i] == others[i];
      var _ := db.CommitOnce(others[i]);
    }
    assert others[..|others|] == others;
  }

  /** The run's rows leave a ledger its chain accounts for. */
  lemma RunHolds(db: SqlRepository, run: Text)
    requires db.Valid()
    ensures Holds(db.View(run), db.Chain(run))
  {
    assert db.Fits(run);
  }

  // --------------------------------------------------- one attempt, by values

  /** How an attempt ends that meets this store. */
  function EndOf(met: RunStore, c: DurableCommit, fault: Fault): Ended {
    if fault.FailsBefore? then Failed(fault.failure)
    else if !Welcomes(met, c) then Answered(Respond(met, c))
    else match fault
      case NoFault => Done
      case CommitRefused(failure) => Failed(failure)
      case ResponseLost(_) => OutcomeUnknown
  }

  /** It takes effect. */
  predicate Writes(met: RunStore, c: DurableCommit, fault: Fault) {
    Respond(met, c) == Stored && (fault.NoFault? || fault == ResponseLost(true))
  }

  function LeftBy(met: RunStore, c: DurableCommit, fault: Fault): RunStore {
    if Writes(met, c, fault) then After(met, c) else met
  }

  /** The store an attempt meets, and leaves. */
  function Met(store: RunStore, c: DurableCommit, a: Attempt): RunStore {
    AfterOthers(store, RunOf(c.checkpoint), a.others)
  }

  function LeftAfter(store: RunStore, c: DurableCommit, a: Attempt): RunStore { LeftBy(Met(store, c, a), c, a.fault) }

  /** The loop over the attempts still given: two ordinary retries, and any number once an outcome is unknown. */
  function LoopEnds(store: RunStore, c: DurableCommit, attempts: seq<Attempt>, retries: nat, unknown: bool): Settled
    decreases |attempts|
  {
    if attempts == [] then StillRunning
    else
      var e, left := EndOf(Met(store, c, attempts[0]), c, attempts[0].fault), LeftAfter(store, c, attempts[0]);
      if e == Done then Returned
      else if e == OutcomeUnknown then LoopEnds(left, c, attempts[1..], retries, true)
      else if unknown then if SettlementRetry(e) then LoopEnds(left, c, attempts[1..], retries, true) else Raised(e)
      else if retries >= 2 || !OrdinaryRetry(e) then Raised(e)
      else LoopEnds(left, c, attempts[1..], retries + 1, false)
  }

  // ------------------------------------------------------ when it returns

  /** The store attempt k meets, if the loop gets there. */
  function StoreAt(store: RunStore, c: DurableCommit, attempts: seq<Attempt>, k: nat): RunStore
    requires k < |attempts|
    decreases k
  {
    if k == 0 then Met(store, c, attempts[0]) else StoreAt(LeftAfter(store, c, attempts[0]), c, attempts[1..], k - 1)
  }

  /** Once an outcome is unknown the loop goes on after lost responses and failures of the driver. */
  predicate PassesOn(fault: Fault) {
    || fault.ResponseLost?
    || (fault.FailsBefore? && fault.failure.DriverFailure?) || (fault.CommitRefused? && fault.failure.DriverFailure?)
  }

  /** Before that, only after a failure with one of three codes. */
  predicate Ordinary(fault: Fault) {
    && (fault.FailsBefore? || fault.CommitRefused?) && fault.failure.DriverFailure?
    && fault.failure.code.Some? && fault.failure.code.value in {1062, 1205, 1213}
  }

  /**
   * The faults let the loop get to attempt k: at most two ordinary failures,
   * then, unless k comes next, a lost response and after it only what passes on.
   */
  predicate GetsTo(attempts: seq<Attempt>, ordinary: nat, k: nat) {
    && ordinary <= k < |attempts| && ordinary <= 2
    && (forall i :: 0 <= i < ordinary ==> Ordinary(attempts[i].fault))
    && (ordinary < k ==> attempts[ordinary].fault.ResponseLost?)
    && (forall i :: ordinary < i < k ==> PassesOn(attempts[i].fault))
  }

  /** Every store met up to attempt k lets the commit through. */
  predicate WelcomedTo(store: RunStore, c: DurableCommit, attempts: seq<Attempt>, k: nat)
    requires k < |attempts|
  {
    forall i: nat :: i <= k ==> Welcomes(StoreAt(store, c, attempts, i), c)
  }

  lemma WelcomedNext(store: RunStore, c: DurableCommit, attempts: seq<Attempt>, k: nat)
    requires 0 < k < |attempts| && WelcomedTo(store, c, attempts, k)
    ensures Welcomes(Met(store, c, attempts[0]), c)
    ensures WelcomedTo(LeftAfter(store, c, attempts[0]), c, attempts[1..], k - 1)
  {
    assert Welcomes(StoreAt(store, c, attempts, 0), c);
    forall i: nat | i <= k - 1 ensures Welcomes(StoreAt(LeftAfter(store, c, attempts[0]), c, attempts[1..], i), c) {
      assert Welcomes(StoreAt(store, c, attempts, i + 1), c);
    }
  }

  /** Once an outcome is unknown, the first attempt without a fault settles it. */
  lemma {:induction false} UnknownSettles(store: RunStore, c: DurableCommit, attempts: seq<Attempt>, retries: nat,
      k: nat)
    requires k < |attempts| && attempts[k].fault.NoFault? && WelcomedTo(store, c, attempts, k)
    requires forall i :: 0 <= i < k ==> PassesOn(attempts[i].fault)
    ensures LoopEnds(store, c, attempts, retries, true) == Returned
    decreases k
  {
    hide Respond, Met, LeftAfter, Welcomes, WelcomedTo;
    if k == 0 {
      assert Welcomes(StoreAt(store, c, attempts, 0), c) by { WelcomedHere(store, c, attempts, 0); }
    } else {
      WelcomedNext(store, c, attempts, k);
      UnknownSettles(LeftAfter(store, c, attempts[0]), c, attempts[1..], retries, k - 1);
    }
  }

  lemma WelcomedHere(store: RunStore, c: DurableCommit, attempts: seq<Attempt>, k: nat)
    requires k < |attempts| && WelcomedTo(store, c, attempts, k)
    ensures Welcomes(StoreAt(store, c, attempts, k), c)
  {
  }

  /**
   * The settling law: when the faults let the loop get to an attempt without
   * one, and every store met on the way lets the commit through, it returns.
   */
  lemma {:induction false} LoopReturns(store: RunStore, c: DurableCommit, attempts: seq<Attempt>, retries: nat,
                                       ordinary: nat, k: nat)
    requires GetsTo(attempts, ordinary, k) && retries + ordinary <= 2
    requires attempts[k].fault.NoFault? && WelcomedTo(store, c, attempts, k)
    ensures LoopEnds(store, c, attempts, retries, false) == Returned
    decreases k
  {
    hide Respond, Met, LeftAfter, Welcomes, WelcomedTo;
    if k == 0 {
      WelcomedHere(store, c, attempts, 0);
    } else {
      var left := LeftAfter(store, c, attempts[0]);
      WelcomedNext(store, c, attempts, k);
      if ordinary == 0 {
        UnknownSettles(left, c, attempts[1..], retries, k - 1);
      } else {
        LoopReturns(left, c, attempts[1..], retries + 1, ordinary - 1, k - 1);
      }
    }
  }

  /** One attempt keeps a ledger, and whatever is in it. */
  lemma AttemptHolds(store: RunStore, chain: seq<Checkpoint>, c: DurableCommit, a: Attempt)
    returns (later: seq<Checkpoint>)
    requires Holds(store, chain) && ValidCommit(c) && AllValid(a.others)
    ensures Holds(LeftAfter(store, c, a), later)
    ensures InLedger(store.ledger, c.checkpoint) ==>
      Welcomes(Met(store, c, a), c) && InLedger(LeftAfter(store, c, a).ledger, c.checkpoint)
    ensures Welcomes(Met(store, c, a), c) && (a.fault.NoFault? || a.fault == ResponseLost(true)) ==>
      InLedger(LeftAfter(store, c, a).ledger, c.checkpoint)
  {
    hide Holds, Respond, After, ValidCommit, AllValid, AfterOthers, Welcomes;
    var run, met := RunOf(c.checkpoint), Met(store, c, a);
    later := OthersHold(store, chain, run, a.others);
    LedgerWelcomes(met, later, c);
    if InLedger(store.ledger, c.checkpoint) { EntryStaysOthers(store, c.checkpoint, run, a.others); }
    LedgerLaw(met, later, c);
    NotStored(met, c);
    if Respond(met, c) == Stored && Writes(met, c, a.fault) { later := later + [c.checkpoint]; }
  }

  lemma NotStored(store: RunStore, c: DurableCommit)
    ensures Welcomes(store, c) <==> Respond(store, c) == Stored || Respond(store, c) == Known
    ensures Respond(store, c) != Stored ==> After(store, c) == store
  {
  }

  /** A commit in the ledger is let through by every store the loop meets, whatever others do. */
  lemma {:induction false} LedgerIsWelcome(store: RunStore, chain: seq<Checkpoint>, c: DurableCommit,
                                           attempts: seq<Attempt>, k: nat)
    requires Holds(store, chain) && ValidCommit(c) && ValidAttempts(attempts) && k < |attempts|
    requires InLedger(store.ledger, c.checkpoint)
    ensures Welcomes(StoreAt(store, c, attempts, k), c)
    decreases k
  {
    hide Holds, Respond, After, ValidCommit, AllValid, Welcomes, InLedger, Met, LeftAfter;
    assert AllValid(attempts[0].others) && ValidAttempts(attempts[1..]);
    var later := AttemptHolds(store, chain, c, attempts[0]);
    if k > 0 { LedgerIsWelcome(LeftAfter(store, c, attempts[0]), later, c, attempts[1..], k - 1); }
  }

  /**
   * A commit that took effect before its response was lost is settled: the loop
   * returns once an attempt meets no fault, if until then only responses are
   * lost or the driver fails, whatever other clients commit in between.
   */
  lemma AppliedIsSettled(store: RunStore, chain: seq<Checkpoint>, c: DurableCommit, attempts: seq<Attempt>,
                         retries: nat, unknown: bool, k: nat)
    requires Holds(store, chain) && ValidCommit(c) && ValidAttempts(attempts) && 0 < k < |attempts|
    requires attempts[0].fault == ResponseLost(true) && Welcomes(Met(store, c, attempts[0]), c)
    requires (forall i :: 0 < i < k ==> PassesOn(attempts[i].fault)) && attempts[k].fault.NoFault?
    ensures LoopEnds(store, c, attempts, retries, unknown) == Returned
  {
    hide Holds, Respond, After, ValidCommit, AllValid, Welcomes, InLedger, Met, LeftAfter, WelcomedTo;
    assert AllValid(attempts[0].others) && ValidAttempts(attempts[1..]);
    var left, rest := LeftAfter(store, c, attempts[0]), attempts[1..];
    var later := AttemptHolds(store, chain, c, attempts[0]);
    assert WelcomedTo(left, c, rest, k - 1) by { LedgerWelcomesTo(left, later, c, rest, k - 1); }
    UnknownSettles(left, c, rest, retries, k - 1);
  }

  lemma LedgerWelcomesTo(store: RunStore, chain: seq<Checkpoint>, c: DurableCommit, attempts: seq<Attempt>, k: nat)
    requires Holds(store, chain) && ValidCommit(c) && ValidAttempts(attempts) && k < |attempts|
    requires InLedger(store.ledger, c.checkpoint)
    ensures WelcomedTo(store, c, attempts, k)
  {
    forall i: nat | i <= k ensures Welcomes(StoreAt(store, c, attempts, i), c) {
      LedgerIsWelcome(store, chain, c, attempts, i);
    }
  }

  /** An attempt without a fault ends the loop either way: it returns exactly when the store lets the commit through. */
  lemma ClearDecides(store: RunStore, c: DurableCommit, attempts: seq<Attempt>, retries: nat, unknown: bool)
    requires attempts != [] && attempts[0].fault.NoFault?
    ensures LoopEnds(store, c, attempts, retries, unknown)
         == if Welcomes(Met(store, c, attempts[0]), c) then Returned
            else Raised(Answered(Respond(Met(store, c, attempts[0]), c)))
  {
  }

  /** It never returns but by an attempt without a fault that the store lets through. */
  lemma {:induction false} ReturnedWasClear(store: RunStore, c: DurableCommit, attempts: seq<Attempt>, retries: nat,
                                            unknown: bool)
    returns (k: nat)
    requires LoopEnds(store, c, attempts, retries, unknown) == Returned
    ensures k < |attempts| && attempts[k].fault.NoFault? && Welcomes(StoreAt(store, c, attempts, k), c)
    decreases |attempts|
  {
    hide Respond, Met, LeftAfter, Welcomes;
    var e := EndOf(Met(store, c, attempts[0]), c, attempts[0].fault);
    if e == Done {
      k := 0;
    } else {
      var left := LeftAfter(store, c, attempts[0]);
      var known := e == OutcomeUnknown || unknown;
      k := ReturnedWasClear(left, c, attempts[1..], if known then retries else retries + 1, known);
      k := k + 1;
    }
  }

  // ------------------------------------------------------ how it ends, exactly

  /** The fault of an attempt shows: it comes before the store answers, or the store lets the commit through. */
  predicate Shows(met: RunStore, c: DurableCommit, fault: Fault) { fault.FailsBefore? || Welcomes(met, c) }

  predicate LostBefore(attempts: seq<Attempt>, i: nat) {
    exists j :: 0 <= j < i && j < |attempts| && attempts[j].fault.ResponseLost?
  }

  /**
   * The loop goes on behind attempt i, having come to it: a response was lost,
   * or the driver failed after one was, or before that one of the first two
   * retries is spent on an ordinary failure.
   */
  predicate GoesOn(store: RunStore, c: DurableCommit, attempts: seq<Attempt>, retries: nat, unknown: bool, i: nat)
    requires i < |attempts|
  {
    var fault := attempts[i].fault;
    && Shows(StoreAt(store, c, attempts, i), c, fault)
    && if unknown || LostBefore(attempts, i) then PassesOn(fault)
       else fault.ResponseLost? || (retries + i < 2 && Ordinary(fault))
  }

  /** How the loop ends at an attempt behind which it does not go on. */
  predicate EndsAs(met: RunStore, c: DurableCommit, fault: Fault, settled: Settled) {
    if !Shows(met, c, fault) then settled == Raised(Answered(Respond(met, c)))
    else match fault
      case NoFault => settled == Returned
      case FailsBefore(failure) => settled == Raised(Failed(failure))
      case CommitRefused(failure) => settled == Raised(Failed(failure))
      case ResponseLost(_) => true
  }

  lemma GoesOnNext(store: RunStore, c: DurableCommit, attempts: seq<Attempt>, retries: nat, unknown: bool, i: nat)
    requires 0 < i < |attempts|
    ensures var left, lost := LeftAfter(store, c, attempts[0]), unknown || attempts[0].fault.ResponseLost?;
      GoesOn(store, c, attempts, retries, unknown, i)
      == GoesOn(left, c, attempts[1..], if lost then retries else retries + 1, lost, i - 1)
  {
    hide Shows, LeftAfter, PassesOn, Ordinary;
    var rest := attempts[1..];
    assert rest[i - 1] == attempts[i];
    assert StoreAt(store, c, attempts, i) == StoreAt(LeftAfter(store, c, attempts[0]), c, rest, i - 1);
    if LostBefore(attempts, i) && !attempts[0].fault.ResponseLost? {
      var j :| 0 <= j < i && j < |attempts| && attempts[j].fault.ResponseLost?;
      assert rest[j - 1].fault.ResponseLost?;
    }
    if LostBefore(rest, i - 1) {
      var j :| 0 <= j < i - 1 && j < |rest| && rest[j].fault.ResponseLost?;
      assert attempts[j + 1].fault.ResponseLost?;
    }
  }

  /** One attempt: the loop goes on from what it leaves, or ends there. */
  lemma LoopStep(store: RunStore, c: DurableCommit, attempts: seq<Attempt>, retries: nat, unknown: bool)
    requires attempts != []
    ensures var left, lost := LeftAfter(store, c, attempts[0]), unknown || attempts[0].fault.ResponseLost?;
      var settled := LoopEnds(store, c, attempts, retries, unknown);
      if GoesOn(store, c, attempts, retries, unknown, 0) then
        settled == LoopEnds(left, c, attempts[1..], if lost then retries else retries + 1, lost)
      else EndsAs(StoreAt(store, c, attempts, 0), c, attempts[0].fault, settled)
  {
    hide Met, Respond, LeftAfter, Welcomes;
    assert !LostBefore(attempts, 0);
  }

  /**
   * How the loop ends, for any attempts: at the first one behind which it does
   * not go on, with what that met; and while it goes on behind all of them it
   * is still running.
   */
  lemma {:induction false} LoopExactly(store: RunStore, c: DurableCommit, attempts: seq<Attempt>, retries: nat,
                                       unknown: bool, k: nat)
    requires k <= |attempts|
    requires forall i: nat :: i < k ==> GoesOn(store, c, attempts, retries, unknown, i)
    requires k < |attempts| ==> !GoesOn(store, c, attempts, retries, unknown, k)
    ensures var settled := LoopEnds(store, c, attempts, retries, unknown);
      if k == |attempts| then settled == StillRunning
      else EndsAs(StoreAt(store, c, attempts, k), c, attempts[k].fault, settled)
    decreases k
  {
    hide GoesOn, EndsAs, LeftAfter, LoopEnds;
    if attempts == [] {
      NoAttempts(store, c, retries, unknown);
    } else {
      LoopStep(store, c, attempts, retries, unknown);
      if k > 0 {
        var left, lost := LeftAfter(store, c, attempts[0]), unknown || attempts[0].fault.ResponseLost?;
        var rest, spent := attempts[1..], if lost then retries else retries + 1;
        forall i: nat | i < |rest|
          ensures GoesOn(left, c, rest, spent, lost, i) == GoesOn(store, c, attempts, retries, unknown, i + 1)
        {
          GoesOnNext(store, c, attempts, retries, unknown, i + 1);
        }
        LoopExactly(left, c, rest, spent, lost, k - 1);
        if k < |attempts| {
          assert StoreAt(store, c, attempts, k) == StoreAt(left, c, rest, k - 1) && rest[k - 1] == attempts[k];
        }
      }
    }
  }

  lemma NoAttempts(store: RunStore, c: DurableCommit, retries: nat, unknown: bool)
    ensures LoopEnds(store, c, [], retries, unknown) == StillRunning
  {
  }

  // ---------------------------------------------------------- the loop itself

  /** _commit_once under one fault. */
  method Try(db: SqlRepository, c: DurableCommit, a: Attempt) returns (e: Ended, ghost wrote: bool)
    requires db.Valid() && ValidCommit(c) && AllValid(a.others)
    modifies db
    ensures db.Valid() && old(db.Chain(RunOf(c.checkpoint))) <= db.Chain(RunOf(c.checkpoint))
    ensures var met := Met(old(db.View(RunOf(c.checkpoint))), c, a);
      && e == EndOf(met, c, a.fault) && (wrote <==> Writes(met, c, a.fault))
      && db.View(RunOf(c.checkpoint)) == LeftBy(met, c, a.fault)
    ensures old(InLedger(db.View(RunOf(c.checkpoint)).ledger, c.checkpoint)) ==>
      !wrote && InLedger(db.View(RunOf(c.checkpoint)).ledger, c.checkpoint) && (a.fault.NoFault? ==> e == Done)
    ensures e == Done || wrote ==> InLedger(db.View(RunOf(c.checkpoint)).ledger, c.checkpoint)
    ensures wrote ==> e == Done || e == OutcomeUnknown
    ensures e.Answered? && e.response.Conflict? ==>
      !Passed(db.Chain(RunOf(c.checkpoint)), c.checkpoint.id)
        && !InLedger(db.View(RunOf(c.checkpoint)).ledger, c.checkpoint)
  {
    hide ValidCommit, AllValid, Respond, AfterOthers, After, Holds;
    ghost var run, store, chain := RunOf(c.checkpoint), db.View(RunOf(c.checkpoint)), db.Chain(RunOf(c.checkpoint));
    RunHolds(db, run);
    ghost var later := AttemptHolds(store, chain, c, a);
    wrote := false;
    Interfere(db, a.others, RunOf(c.checkpoint));
    ghost var met := db.View(run);
    RunHolds(db, run);
    LedgerWelcomes(met, db.Chain(run), c);
    if InLedger(store.ledger, c.checkpoint) { EntryStaysOthers(store, c.checkpoint, run, a.others); }
    if a.fault.FailsBefore? { return Failed(a.fault.failure), false; }
    var response := db.Ask(c);
    if response != Stored && response != Known {
      if response.Conflict? { ConflictIsAbsent(met, db.Chain(run), c); }
      return Answered(response), false;
    }
    if a.fault.CommitRefused? { return Failed(a.fault.failure), false; }
    if !a.fault.ResponseLost? || a.fault.applied {
      NotStored(met, c);
      var r := db.CommitOnce(c);
      wrote := r == Stored;
    }
    e := if a.fault.ResponseLost? then OutcomeUnknown else Done;
  }

  /**
   * _commit_sync, for any faults and any interference. It returns only with the
   * checkpoint in the chain exactly once; it raises a revision conflict only if
   * the checkpoint never took effect; and it never writes twice. An exception
   * before any response was lost means nothing was written. How it ends is what
   * the settling laws speak of.
   */
  method CommitSync(db: SqlRepository, c: DurableCommit, attempts: seq<Attempt>)
    returns (settled: Settled, ghost writes: nat, unknown: bool)
    requires db.Valid() && ValidCommit(c) && ValidAttempts(attempts)
    modifies db
    ensures db.Valid() && old(db.Chain(RunOf(c.checkpoint))) <= db.Chain(RunOf(c.checkpoint)) && writes <= 1
    ensures settled == Returned ==> AppearsOnce(db.Chain(RunOf(c.checkpoint)), c.checkpoint)
    ensures settled.Raised? && settled.ended.Answered? && settled.ended.response.Conflict? ==>
      writes == 0 && !Passed(db.Chain(RunOf(c.checkpoint)), c.checkpoint.id)
    ensures settled.Raised? && !unknown ==> writes == 0
    ensures writes == 1 ==> AppearsOnce(db.Chain(RunOf(c.checkpoint)), c.checkpoint)
    ensures settled == LoopEnds(old(db.View(RunOf(c.checkpoint))), c, attempts, 0, false)
  {
    hide ValidCommit, AllValid, AppearsOnce, EndOf, LeftBy, Writes, Met, Respond, InLedger;
    assert attempts[0..] == attempts;
    var ordinaryRetries := 0;
    unknown, writes := false, 0;
    for i := 0 to |attempts|
      invariant db.Valid() && old(db.Chain(RunOf(c.checkpoint))) <= db.Chain(RunOf(c.checkpoint)) && writes <= 1
      invariant writes == 1 ==> unknown && InLedger(db.View(RunOf(c.checkpoint)).ledger, c.checkpoint)
      invariant 0 <= ordinaryRetries
      invariant LoopEnds(db.View(RunOf(c.checkpoint)), c, attempts[i..], ordinaryRetries, unknown)
             == LoopEnds(old(db.View(RunOf(c.checkpoint))), c, attempts, 0, false)
    {
      assert attempts[i..][1..] == attempts[i + 1..];
      var e, wrote := Try(db, c, attempts[i]);
      if wrote { writes := writes + 1; }
      RunHolds(db, RunOf(c.checkpoint));
      if InLedger(db.View(RunOf(c.checkpoint)).ledger, c.checkpoint) {
        LedgerMeansOnce(db.View(RunOf(c.checkpoint)), db.Chain(RunOf(c.checkpoint)), c.checkpoint);
      }
      if e == Done { return Returned, writes, unknown; }
      if e == OutcomeUnknown {
        unknown := true;
      } else if unknown {
        if !SettlementRetry(e) { return Raised(e), writes, unknown; }
      } else if ordinaryRetries >= 2 || !OrdinaryRetry(e) {
        return Raised(e), writes, unknown;
      } else {
        ordinaryRetries := ordinaryRetries + 1;
      }
    }
    settled := StillRunning;
    RunHolds(db, RunOf(c.checkpoint));
    if writes == 1 { LedgerMeansOnce(db.View(RunOf(c.checkpoint)), db.Chain(RunOf(c.checkpoint)), c.checkpoint); }
  }
}
