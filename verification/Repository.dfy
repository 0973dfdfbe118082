/**
 * The abstract repository of one run (head, ledger, compare-and-set on the
 * revision, idempotent retry) and the two that keep whole checkpoints
 * (jharness-repository, memory.py; kernel/repository.py, EphemeralRepository).
 */
module Repository {
  import opened Wrappers
  import opened Messages
  import opened Digests
  import opened Checkpoints
  import opened Durable
  import opened Changes
  import opened Commits
  import opened Views

  datatype LedgerEntry = LedgerEntry(revision: int, digest: Fingerprint)

  /** What a repository holds of one run. */
  datatype RunStore = RunStore(head: Option<Checkpoint>, ledger: map<Text, LedgerEntry>)

  const EMPTY_STORE := RunStore(None, map[])

  datatype Refusal =
    | ReusedId | LedgerInconsistent | LedgerOrphaned | BadFirstBase | WrongParent | WrongBase | OtherRun

  datatype Response = Stored | Known | Conflict(expected: Option<int>, actual: Option<int>) | Refused(why: Refusal)

  function ActualRevision(head: Option<Checkpoint>): Option<int> {
    if head.None? then None else Some(head.value.snapshot.revision)
  }

  /** _accept_existing */
  function AcceptExisting(head: Option<Checkpoint>, entry: LedgerEntry, c: DurableCommit): Response {
    var digest, revision := CheckpointDigest(c.checkpoint), c.checkpoint.snapshot.revision;
    if entry.digest != digest then Refused(ReusedId)
    else if entry.revision != revision then Refused(LedgerInconsistent)
    else if head.None? || head.value.snapshot.revision < revision then Refused(LedgerOrphaned)
    else if head.value.snapshot.revision == revision
            && (head.value.id != c.checkpoint.id || CheckpointDigest(head.value) != digest)
      then Refused(LedgerOrphaned)
    else Known
  }

  /** _validate_new_commit */
  function ValidateNew(head: Option<Checkpoint>, c: DurableCommit): Response {
    if ActualRevision(head) != ExpectedRevision(c) then Conflict(ExpectedRevision(c), ActualRevision(head))
    else match head
      case None => if c.parent.Some? || !c.change.InitialHistory? then Refused(BadFirstBase) else Stored
      case Some(previous) =>
        if c.parent != Some(previous.id) then Refused(WrongParent)
        else if !BasedOn(c.change, previous.snapshot.history) then Refused(WrongBase)
        else Stored
  }

  function Respond(store: RunStore, c: DurableCommit): Response {
    if c.checkpoint.id in store.ledger then AcceptExisting(store.head, store.ledger[c.checkpoint.id], c)
    else ValidateNew(store.head, c)
  }

  function After(store: RunStore, c: DurableCommit): RunStore {
    if Respond(store, c) != Stored then store
    else
      var digest := CheckpointDigest(c.checkpoint);
      RunStore(Some(c.checkpoint), store.ledger[c.checkpoint.id := LedgerEntry(c.checkpoint.snapshot.revision, digest)])
  }

  // --------------------------------------------------------- the ledger law

  /** The checkpoints a run has gone through: revisions rise by one, from the first one's. */
  predicate Successive(chain: seq<Checkpoint>) {
    forall i :: 0 <= i < |chain| ==> chain[i].snapshot.revision == chain[0].snapshot.revision + i
  }

  predicate InLedger(ledger: map<Text, LedgerEntry>, c: Checkpoint) {
    c.id in ledger && ledger[c.id] == LedgerEntry(c.snapshot.revision, CheckpointDigest(c))
  }

  ghost predicate Passed(chain: seq<Checkpoint>, id: Text) { exists i :: 0 <= i < |chain| && chain[i].id == id }

  /**
   * The store is what the chain leaves: its head is the last checkpoint, and the
   * ledger holds exactly the checkpoints of the chain, each under its own id.
   */
  ghost predicate Holds(store: RunStore, chain: seq<Checkpoint>) {
    && Successive(chain)
    && store.head == (if chain == [] then None else Some(chain[|chain| - 1]))
    && (forall i :: 0 <= i < |chain| ==> InLedger(store.ledger, chain[i]))
    && (forall id <- store.ledger.Keys :: Passed(chain, id))
  }

  /** The ledger is a bijection with the revisions of the chain. */
  lemma LedgerIsBijection(store: RunStore, chain: seq<Checkpoint>, i: nat, j: nat)
    requires Holds(store, chain) && i < |chain| && j < |chain|
    ensures chain[i].id == chain[j].id <==> i == j
    ensures store.ledger[chain[i].id].revision == chain[0].snapshot.revision + i
  {
    assert InLedger(store.ledger, chain[i]) && InLedger(store.ledger, chain[j]);
  }

  /** A checkpoint and the one before it: what the later one says of its parent and its base. */
  ghost predicate Follows(before: Option<Checkpoint>, c: DurableCommit) {
    match before
    case None => c.parent.None? && c.checkpoint.snapshot.revision == 0 && c.change.InitialHistory?
    case Some(previous) =>
      && c.parent == Some(previous.id) && c.checkpoint.snapshot.revision == previous.snapshot.revision + 1
      && BasedOn(c.change, previous.snapshot.history)
      && c.checkpoint.snapshot.history == Changed(previous.snapshot.history, c.change)
  }

  lemma StoredExtends(store: RunStore, chain: seq<Checkpoint>, c: DurableCommit)
    requires Holds(store, chain) && ValidCommit(c) && Respond(store, c) == Stored
    ensures Holds(After(store, c), chain + [c.checkpoint]) && Follows(store.head, c)
  {
    hide ValidCheckpoint, ChangeFits;
    var next, longer := After(store, c), chain + [c.checkpoint];
    if chain != [] { ChangeProduces(c.checkpoint.snapshot.history, c.change, chain[|chain| - 1].snapshot.history); }
    forall i | 0 <= i < |longer| ensures InLedger(next.ledger, longer[i]) {
      if i < |chain| { assert InLedger(store.ledger, chain[i]); }
    }
    forall id | id in next.ledger.Keys ensures Passed(longer, id) {
      if id != c.checkpoint.id {
        var i :| 0 <= i < |chain| && chain[i].id == id;
        assert longer[i].id == id;
      } else {
        assert longer[|chain|].id == id;
      }
    }
  }

  lemma KnownIsPassed(store: RunStore, chain: seq<Checkpoint>, c: DurableCommit)
    requires Holds(store, chain) && c.checkpoint.id in store.ledger
    ensures Respond(store, c) == Known || Respond(store, c) == Refused(ReusedId)
    ensures Respond(store, c) == Known <==> InLedger(store.ledger, c.checkpoint)
  {
    assert Passed(chain, c.checkpoint.id);
    var i :| 0 <= i < |chain| && chain[i].id == c.checkpoint.id;
    assert InLedger(store.ledger, chain[i]);
  }

  /**
   * The ledger law: a commit either extends the chain by exactly its
   * checkpoint, or leaves the store as it was. It is known exactly when it
   * is in the ledger with this content; a conflict means its id never was; and
   * the inconsistent and orphaned branches are unreachable.
   */
  lemma LedgerLaw(store: RunStore, chain: seq<Checkpoint>, c: DurableCommit)
    requires Holds(store, chain) && ValidCommit(c)
    ensures var r := Respond(store, c);
      && (r == Stored ==> Holds(After(store, c), chain + [c.checkpoint]) && Follows(store.head, c))
      && (r != Stored ==> After(store, c) == store)
      && (r == Known <==> InLedger(store.ledger, c.checkpoint))
      && (r == Refused(ReusedId) <==> Passed(chain, c.checkpoint.id) && !InLedger(store.ledger, c.checkpoint))
      && (r.Conflict? || r == Stored ==> !Passed(chain, c.checkpoint.id))
      && (r.Refused? ==> r.why == ReusedId || r.why == WrongParent || r.why == WrongBase)
  {
    if c.checkpoint.id in store.ledger { KnownIsPassed(store, chain, c); }
    if Passed(chain, c.checkpoint.id) {
      var i :| 0 <= i < |chain| && chain[i].id == c.checkpoint.id;
      assert InLedger(store.ledger, chain[i]);
    }
    if Respond(store, c) == Stored { StoredExtends(store, chain, c); }
  }

  /** No stored head has a negative revision. */
  predicate HeadCounts(store: RunStore) { store.head.Some? ==> store.head.value.snapshot.revision >= 0 }

  lemma {:induction false} OthersCount(store: RunStore, run: Text, others: seq<DurableCommit>)
    requires HeadCounts(store) && AllValid(others)
    ensures HeadCounts(AfterOthers(store, run, others))
  {
    hide Respond;
    if others != [] {
      FrontValid(others);
      OneValid(others, |others| - 1);
      OthersCount(store, run, others[..|others| - 1]);
    }
  }

  /** The revision a commit has to have on a head. */
  function RevisionAfter(head: Option<Checkpoint>): int {
    match head case None => 0 case Some(previous) => previous.snapshot.revision + 1
  }

  /**
   * Which answer a new checkpoint gets: it is stored exactly when it follows the
   * head; with another revision it conflicts, naming the revision it expected
   * and the one that is there; otherwise the wrong parent is refused before the
   * wrong base.
   */
  lemma NewIsAnswered(store: RunStore, chain: seq<Checkpoint>, c: DurableCommit)
    requires Holds(store, chain) && ValidCommit(c) && !Passed(chain, c.checkpoint.id)
    requires HeadCounts(store)
    ensures var r, revision, head := Respond(store, c), c.checkpoint.snapshot.revision, store.head;
      && (r == Stored <==> Follows(head, c))
      && (r.Conflict? <==> revision != RevisionAfter(head))
      && (r.Conflict? ==>
            && r.expected == (if revision == 0 then None else Some(revision - 1))
            && r.actual == (if head.None? then None else Some(head.value.snapshot.revision)))
      && (r == Refused(WrongParent) <==>
            head.Some? && revision == RevisionAfter(head) && c.parent != Some(head.value.id))
      && (r == Refused(WrongBase) <==>
            && head.Some? && revision == RevisionAfter(head) && c.parent == Some(head.value.id)
            && (c.change.baseCount != |head.value.snapshot.history|
                || c.change.baseDigest != HistoryDigest(head.value.snapshot.history)))
  {
    hide ValidCheckpoint, ChangeFits, HistoryDigest;
    NotInLedger(store, chain, c.checkpoint.id);
    if Respond(store, c) == Stored { StoredExtends(store, chain, c); }
    hide Holds;
  }

  /** What a store answers, by its ledger: a known id by its digest alone, a new one by its base. */
  lemma AnswersByLedger(store: RunStore, chain: seq<Checkpoint>, c: DurableCommit)
    requires Holds(store, chain) && ValidCommit(c)
    ensures Respond(store, c)
         == if c.checkpoint.id !in store.ledger then ValidateNew(store.head, c)
            else if store.ledger[c.checkpoint.id].digest == CheckpointDigest(c.checkpoint) then Known
            else Refused(ReusedId)
  {
    LedgerLaw(store, chain, c);
    if c.checkpoint.id in store.ledger { KnownIsPassed(store, chain, c); }
  }

  /** A retry of a commit that was stored is known, and changes nothing, however far the run has gone on. */
  lemma RetryIsKnown(store: RunStore, chain: seq<Checkpoint>, c: DurableCommit, i: nat)
    requires Holds(store, chain) && ValidCommit(c) && i < |chain| && chain[i] == c.checkpoint
    ensures Respond(store, c) == Known && After(store, c) == store
  {
    LedgerLaw(store, chain, c);
  }

  /** A valid commit on the stored head, under a new id, is stored. */
  lemma FreshCommitIsStored(store: RunStore, chain: seq<Checkpoint>, previous: Checkpoint, c: DurableCommit)
    requires Holds(store, chain) && store.head == Some(previous) && !Passed(chain, c.checkpoint.id) && ValidCommit(c)
    requires c.parent == Some(previous.id) && c.checkpoint.snapshot.revision == previous.snapshot.revision + 1 > 0
    requires BasedOn(c.change, previous.snapshot.history)
    ensures Respond(store, c) == Stored && Holds(After(store, c), chain + [c.checkpoint])
  {
    hide Holds, ValidCommit, BasedOn;
    NotInLedger(store, chain, c.checkpoint.id);
    StoredExtends(store, chain, c);
  }

  /** A change the engine reduces from the stored head is stored, unless its checkpoint id was used before. */
  lemma EngineCommitIsStored(store: RunStore, chain: seq<Checkpoint>, previous: Checkpoint, c: Change, id: Text)
    requires Holds(store, chain) && store.head == Some(previous) && !Passed(chain, id)
    requires ValidCheckpoint(previous) && RunOf(previous) != "" && Passes(previous.snapshot, c, id)
    requires c.replace.Some? ==> c.append == []
    ensures var next := Reduce(previous.snapshot, c, id).value;
      var commit := DurableCommit(next, Some(previous.id), HistoryChangeOf(previous.snapshot, c, next.snapshot));
      ValidCommit(commit) && Respond(store, commit) == Stored && Holds(After(store, commit), chain + [next])
  {
    hide Holds, ValidCommit, BasedOn, Respond, After, HistoryChangeOf, VerifyChange, BoundaryOk, ValidFact;
    EngineCommitIsValid(previous, c, id);
    var next := Reduce(previous.snapshot, c, id).value;
    NextRevision(previous, c, id);
    FreshCommitIsStored(store, chain, previous,
                        DurableCommit(next, Some(previous.id), HistoryChangeOf(previous.snapshot, c, next.snapshot)));
  }

  lemma NextRevision(previous: Checkpoint, c: Change, id: Text)
    requires previous.snapshot.history != [] && c.replace != Some([])
    requires Reduce(previous.snapshot, c, id).Ok?
    ensures Reduce(previous.snapshot, c, id).value.snapshot.revision == previous.snapshot.revision + 1
    ensures Reduce(previous.snapshot, c, id).value.id == id
  {
  }

  lemma NotInLedger(store: RunStore, chain: seq<Checkpoint>, id: Text)
    requires Holds(store, chain) && !Passed(chain, id)
    ensures id !in store.ledger
  {
  }

  // ---------------------------------------------------- many clients at once

  /** The store after commits of any clients, in the order their transactions took effect. */
  function AfterAll(store: RunStore, commits: seq<DurableCommit>): RunStore
    decreases |commits|
  {
    if commits == [] then store else AfterAll(After(store, commits[0]), commits[1..])
  }

  /** Those of the commits that were stored. */
  function StoredOf(store: RunStore, commits: seq<DurableCommit>): (stored: seq<DurableCommit>)
    decreases |commits|
  {
    if commits == [] then []
    else
      (if Respond(store, commits[0]) == Stored then [commits[0]] else [])
      + StoredOf(After(store, commits[0]), commits[1..])
  }

  function CheckpointsOf(commits: seq<DurableCommit>): (chain: seq<Checkpoint>)
    ensures |chain| == |commits|
  {
    seq(|commits|, i requires 0 <= i < |commits| => commits[i].checkpoint)
  }

  /** Each commit follows the one before it. */
  ghost predicate Linear(before: Option<Checkpoint>, commits: seq<DurableCommit>)
    decreases |commits|
  {
    commits != [] ==> Follows(before, commits[0]) && Linear(Some(commits[0].checkpoint), commits[1..])
  }

  ghost predicate AllValid(commits: seq<DurableCommit>) {
    forall i :: 0 <= i < |commits| ==> ValidCommit(commits[i])
  }

  /** However the commits of any number of clients interleave, the store is what the stored ones leave. */
  lemma {:induction false} InterleavingsHold(store: RunStore, chain: seq<Checkpoint>, commits: seq<DurableCommit>)
    requires Holds(store, chain) && AllValid(commits)
    ensures Holds(AfterAll(store, commits), chain + CheckpointsOf(StoredOf(store, commits)))
    decreases |commits|
  {
    hide Holds, Respond, ValidCommit, Follows, After;
    if commits == [] {
      assert chain + [] == chain;
    } else {
      var first, rest := commits[0], commits[1..];
      var next := After(store, first);
      LedgerLaw(store, chain, first);
      if Respond(store, first) == Stored {
        InterleavingsHold(next, chain + [first.checkpoint], rest);
        JoinStored(chain, first, StoredOf(next, rest));
      } else {
        InterleavingsHold(next, chain, rest);
        assert [] + StoredOf(next, rest) == StoredOf(next, rest);
      }
    }
  }

  lemma JoinStored(chain: seq<Checkpoint>, first: DurableCommit, stored: seq<DurableCommit>)
    ensures chain + CheckpointsOf([first] + stored) == chain + [first.checkpoint] + CheckpointsOf(stored)
  {
    assert CheckpointsOf([first] + stored) == [first.checkpoint] + CheckpointsOf(stored);
    assert chain + ([first.checkpoint] + CheckpointsOf(stored)) == chain + [first.checkpoint] + CheckpointsOf(stored);
  }

  /** The stored commits form one linear chain, each made on the checkpoint before it. */
  lemma {:induction false} InterleavingsAreLinear(store: RunStore, chain: seq<Checkpoint>, commits: seq<DurableCommit>)
    requires Holds(store, chain) && AllValid(commits)
    ensures Linear(store.head, StoredOf(store, commits))
    decreases |commits|
  {
    hide Holds, Respond, ValidCommit, Follows;
    if commits != [] {
      var first, rest := commits[0], commits[1..];
      var next := After(store, first);
      LedgerLaw(store, chain, first);
      if Respond(store, first) == Stored {
        InterleavingsAreLinear(next, chain + [first.checkpoint], rest);
        assert ([first] + StoredOf(next, rest))[1..] == StoredOf(next, rest);
      } else {
        InterleavingsAreLinear(next, chain, rest);
        assert [] + StoredOf(next, rest) == StoredOf(next, rest);
      }
    }
  }

  /** A ledger entry stays as it is whatever is committed later. */
  lemma EntryStays(store: RunStore, c: Checkpoint, later: DurableCommit)
    requires InLedger(store.ledger, c)
    ensures InLedger(After(store, later).ledger, c)
  {
  }

  /** A run's store after the commits other clients make to any run. */
  function AfterOthers(store: RunStore, run: Text, commits: seq<DurableCommit>): RunStore {
    if commits == [] then store
    else
      var before, last := AfterOthers(store, run, commits[..|commits| - 1]), commits[|commits| - 1];
      if RunOf(last.checkpoint) == run then After(before, last) else before
  }

  lemma {:induction false} OthersHold(store: RunStore, chain: seq<Checkpoint>, run: Text, commits: seq<DurableCommit>)
    returns (later: seq<Checkpoint>)
    requires Holds(store, chain) && AllValid(commits)
    ensures Holds(AfterOthers(store, run, commits), later) && chain <= later
    decreases |commits|
  {
    if commits == [] {
      later := chain;
    } else {
      hide Holds, Respond, ValidCommit, After;
      var front, last := commits[..|commits| - 1], commits[|commits| - 1];
      OneValid(commits, |commits| - 1);
      assert AllValid(front) by { FrontValid(commits); }
      later := OthersHold(store, chain, run, front);
      LedgerLaw(AfterOthers(store, run, front), later, last);
      if RunOf(last.checkpoint) == run && Respond(AfterOthers(store, run, front), last) == Stored {
        later := later + [last.checkpoint];
      }
    }
  }

  lemma FrontValid(commits: seq<DurableCommit>)
    requires AllValid(commits) && commits != []
    ensures AllValid(commits[..|commits| - 1])
  {
  }

  lemma {:induction false} EntryStaysOthers(store: RunStore, c: Checkpoint, run: Text, commits: seq<DurableCommit>)
    requires InLedger(store.ledger, c)
    ensures InLedger(AfterOthers(store, run, commits).ledger, c)
    decreases |commits|
  {
    if commits != [] {
      EntryStaysOthers(store, c, run, commits[..|commits| - 1]);
      EntryStays(AfterOthers(store, run, commits[..|commits| - 1]), c, commits[|commits| - 1]);
    }
  }

  /** The store lets this commit through: it stores it, or knows it already. */
  predicate Welcomes(store: RunStore, c: DurableCommit) { Respond(store, c) == Stored || Respond(store, c) == Known }

  /** A checkpoint in the ledger is always let through. */
  lemma LedgerWelcomes(store: RunStore, chain: seq<Checkpoint>, c: DurableCommit)
    requires Holds(store, chain) && ValidCommit(c)
    ensures InLedger(store.ledger, c.checkpoint) <==> Respond(store, c) == Known
    ensures InLedger(store.ledger, c.checkpoint) ==> Welcomes(store, c)
    ensures Welcomes(store, c) ==> InLedger(After(store, c).ledger, c.checkpoint)
  {
    hide Holds, Respond, After, ValidCommit;
    LedgerLaw(store, chain, c);
    if Welcomes(store, c) { CommittedIsInLedger(store, chain, c); }
  }

  lemma OneValid(commits: seq<DurableCommit>, i: nat)
    requires AllValid(commits) && i < |commits|
    ensures ValidCommit(commits[i])
  {
  }

  /** The checkpoint is in the chain, and its id is nowhere else in it. */
  ghost predicate AppearsOnce(chain: seq<Checkpoint>, c: Checkpoint) {
    exists i :: 0 <= i < |chain| && CheckpointDigest(chain[i]) == CheckpointDigest(c)
                && forall j :: 0 <= j < |chain| && chain[j].id == c.id ==> j == i
  }

  lemma LedgerMeansOnce(store: RunStore, chain: seq<Checkpoint>, c: Checkpoint)
    requires Holds(store, chain) && InLedger(store.ledger, c)
    ensures AppearsOnce(chain, c)
  {
    assert Passed(chain, c.id);
    var i :| 0 <= i < |chain| && chain[i].id == c.id;
    forall j | 0 <= j < |chain| && chain[j].id == c.id ensures j == i { LedgerIsBijection(store, chain, i, j); }
    assert InLedger(store.ledger, chain[i]);
  }

  lemma CommittedIsInLedger(store: RunStore, chain: seq<Checkpoint>, c: DurableCommit)
    requires Holds(store, chain) && ValidCommit(c) && (Respond(store, c) == Stored || Respond(store, c) == Known)
    ensures InLedger(After(store, c).ledger, c.checkpoint)
    ensures InLedger(store.ledger, c.checkpoint) ==> Respond(store, c) == Known
  {
    LedgerLaw(store, chain, c);
  }

  lemma ConflictIsAbsent(store: RunStore, chain: seq<Checkpoint>, c: DurableCommit)
    requires Holds(store, chain) && ValidCommit(c) && Respond(store, c).Conflict?
    ensures !Passed(chain, c.checkpoint.id) && !InLedger(store.ledger, c.checkpoint)
  {
    LedgerLaw(store, chain, c);
  }

  // ------------------------------------------------------- whole checkpoints

  /** The stored head of the memory repository, with what it compares. */
  datatype StoredHead = StoredHead(checkpoint: Checkpoint, digest: Fingerprint, historyCount: int,
                                   historyDigest: Digest)

  class MemoryRunRepository {
    var heads: map<Text, StoredHead>
    var ledger: map<Text, map<Text, LedgerEntry>>

    constructor ()
      ensures Valid() && forall run: Text :: View(run) == EMPTY_STORE
    {
      heads, ledger := map[], map[];
    }

    ghost predicate Valid()
      reads this
    {
      forall run <- heads.Keys :: Consistent(heads[run])
    }

    /** What is held of a run. */
    ghost function View(run: Text): RunStore
      reads this
    {
      RunStore(if run in heads then Some(heads[run].checkpoint) else None, if run in ledger then ledger[run] else map[])
    }

    /** commit, under the lock: one run's store moves as the abstract one does, and no other run's does. */
    method Commit(c: DurableCommit) returns (r: Response)
      requires Valid() && ValidCommit(c)
      modifies this
      ensures Valid() && r == Respond(old(View(RunOf(c.checkpoint))), c)
      ensures View(RunOf(c.checkpoint)) == After(old(View(RunOf(c.checkpoint))), c)
      ensures forall run: Text :: run != RunOf(c.checkpoint) ==> View(run) == old(View(run))
    {
      var run, id := RunOf(c.checkpoint), c.checkpoint.id;
      var entries := if run in ledger then ledger[run] else map[];
      var head := if run in heads then Some(heads[run]) else None;
      if id in entries {
        r := Accept(head, entries[id], c);
        return;
      }
      r := Check(head, c);
      if r == Stored { StoreNew(entries, c); }
    }

    /** _accept_existing, on the stored head. */
    method Accept(head: Option<StoredHead>, entry: LedgerEntry, c: DurableCommit) returns (r: Response)
      requires head.Some? ==> Consistent(head.value)
      ensures r == AcceptExisting(CheckpointIn(head), entry, c)
    {
      if entry.digest != CheckpointDigest(c.checkpoint) { return Refused(ReusedId); }
      if entry.revision != c.checkpoint.snapshot.revision { return Refused(LedgerInconsistent); }
      if head.None? || head.value.checkpoint.snapshot.revision < entry.revision { return Refused(LedgerOrphaned); }
      if head.value.checkpoint.snapshot.revision == entry.revision
         && (head.value.checkpoint.id != c.checkpoint.id || head.value.digest != entry.digest) {
        return Refused(LedgerOrphaned);
      }
      r := Known;
    }

    /** _validate_new_commit, on the stored head. */
    method Check(head: Option<StoredHead>, c: DurableCommit) returns (r: Response)
      requires head.Some? ==> Consistent(head.value)
      ensures r == ValidateNew(CheckpointIn(head), c)
    {
      var actual := if head.None? then None else Some(head.value.checkpoint.snapshot.revision);
      if actual != ExpectedRevision(c) { return Conflict(ExpectedRevision(c), actual); }
      if head.None? {
        return if c.parent.Some? || !c.change.InitialHistory? then Refused(BadFirstBase) else Stored;
      }
      if c.parent != Some(head.value.checkpoint.id) { return Refused(WrongParent); }
      if c.change.InitialHistory? || c.change.baseCount != head.value.historyCount
         || c.change.baseDigest != head.value.historyDigest {
        return Refused(WrongBase);
      }
      r := Stored;
    }

    /** _store_new */
    method StoreNew(entries: map<Text, LedgerEntry>, c: DurableCommit)
      requires Valid()
      modifies this
      ensures Valid()
      ensures heads == old(heads)[RunOf(c.checkpoint) := HeadOf(c.checkpoint)]
      ensures ledger == old(ledger)[RunOf(c.checkpoint) :=
        entries[c.checkpoint.id := LedgerEntry(c.checkpoint.snapshot.revision, CheckpointDigest(c.checkpoint))]]
    {
      var run := RunOf(c.checkpoint);
      var entry := LedgerEntry(c.checkpoint.snapshot.revision, CheckpointDigest(c.checkpoint));
      ledger := ledger[run := entries[c.checkpoint.id := entry]];
      heads := heads[run := HeadOf(c.checkpoint)];
    }

    /** get_head */
    method GetHead(run: Text) returns (c: Option<Checkpoint>)
      ensures c == View(run).head
    {
      c := if run in heads then Some(heads[run].checkpoint) else None;
    }
  }

  function HeadOf(c: Checkpoint): StoredHead {
    StoredHead(c, CheckpointDigest(c), |c.snapshot.history|, HistoryDigest(c.snapshot.history))
  }

  predicate Consistent(h: StoredHead) { h == HeadOf(h.checkpoint) }

  function CheckpointIn(head: Option<StoredHead>): Option<Checkpoint> {
    if head.None? then None else Some(head.value.checkpoint)
  }

  /** The ledger entries behind the fingerprints of a run: a fingerprint carries its revision. */
  function Entries(run: Text, byId: map<(Text, Text), Fingerprint>): map<Text, LedgerEntry> {
    map key | key in byId && key.0 == run :: key.1 := LedgerEntry(byId[key].revision, byId[key])
  }

  lemma EntriesAt(run: Text, byId: map<(Text, Text), Fingerprint>, id: Text)
    ensures id in Entries(run, byId) <==> (run, id) in byId
    ensures (run, id) in byId ==> Entries(run, byId)[id] == LedgerEntry(byId[(run, id)].revision, byId[(run, id)])
  {
    if (run, id) in byId { assert (run, id).1 in Entries(run, byId); }
  }

  lemma EntriesAdd(run: Text, byId: map<(Text, Text), Fingerprint>, id: Text, digest: Fingerprint)
    ensures Entries(run, byId[(run, id) := digest]) == Entries(run, byId)[id := LedgerEntry(digest.revision, digest)]
  {
    var left := Entries(run, byId[(run, id) := digest]);
    var right := Entries(run, byId)[id := LedgerEntry(digest.revision, digest)];
    forall k ensures k in left <==> k in right {
      EntriesAt(run, byId, k);
      EntriesAt(run, byId[(run, id) := digest], k);
    }
    forall k | k in left ensures left[k] == right[k] {
      EntriesAt(run, byId, k);
      EntriesAt(run, byId[(run, id) := digest], k);
    }
  }

  /** The repository of a single invocation. */
  class EphemeralRepository {
    var head: Option<Checkpoint>
    var byId: map<(Text, Text), Fingerprint>

    /** Its one run, once it has a head. */
    ghost predicate Valid()
      reads this
    {
      && (head.None? ==> byId == map[])
      && (forall key <- byId.Keys :: head.Some? && key.0 == RunOf(head.value))
    }

    /** The same run as the abstract repository sees it. */
    ghost function View(): RunStore
      reads this
    {
      if head.None? then EMPTY_STORE else RunStore(head, Entries(RunOf(head.value), byId))
    }

    constructor (initial: Option<Checkpoint>)
      ensures Valid() && head == initial
      ensures initial.Some? ==> Holds(View(), [initial.value])
      ensures initial.None? ==> Holds(View(), [])
    {
      head := initial;
      byId := if initial.None? then map[]
              else map[(RunOf(initial.value), initial.value.id) := CheckpointDigest(initial.value)];
      new;
      if initial.Some? {
        var run, id := RunOf(initial.value), initial.value.id;
        EntriesAt(run, byId, id);
        assert [initial.value][0].id == id;
      }
    }

    /** commit: from a ledger that holds a chain, it does what the abstract repository does. */
    method Commit(c: DurableCommit, ghost chain: seq<Checkpoint>) returns (r: Response)
      requires Valid() && ValidCommit(c) && Holds(View(), chain)
      modifies this
      ensures Valid()
      ensures old(head).Some? && RunOf(old(head).value) != RunOf(c.checkpoint)
        ==> r == Refused(OtherRun) && View() == old(View())
      ensures old(head).None? || RunOf(old(head).value) == RunOf(c.checkpoint) ==>
        r == Respond(old(View()), c) && View() == After(old(View()), c)
    {
      var run, id := RunOf(c.checkpoint), c.checkpoint.id;
      var digest := CheckpointDigest(c.checkpoint);
      AnswersByLedger(View(), chain, c);
      EntriesAt(run, byId, id);
      hide Respond, Holds, ValidCommit, ValidateNew, Entries, CheckpointDigest;
      if (run, id) in byId { return if digest == byId[(run, id)] then Known else Refused(ReusedId); }
      if head.Some? && RunOf(head.value) != run { return Refused(OtherRun); }
      r := Check(c);
      if r == Stored { Keep(c.checkpoint); }
    }

    /** The two writes of a new commit. */
    method Keep(c: Checkpoint)
      requires Valid() && (head.None? || RunOf(head.value) == RunOf(c))
      modifies this
      ensures Valid() && head == Some(c)
      ensures View() == RunStore(Some(c),
        old(View()).ledger[c.id := LedgerEntry(c.snapshot.revision, CheckpointDigest(c))])
    {
      EntriesAdd(RunOf(c), byId, c.id, CheckpointDigest(c));
      assert head.None? ==> Entries(RunOf(c), byId) == map[];
      head := Some(c);
      byId := byId[(RunOf(c), c.id) := CheckpointDigest(c)];
    }

    /** The checks on a new commit of the same run. */
    method Check(c: DurableCommit) returns (r: Response)
      requires ValidCommit(c)
      ensures r == ValidateNew(head, c)
    {
      var actual := ActualRevision(head);
      if actual != ExpectedRevision(c) { return Conflict(ExpectedRevision(c), actual); }
      if head.Some? {
        if c.parent != Some(head.value.id) { return Refused(WrongParent); }
        return if BasedOn(c.change, head.value.snapshot.history) then Stored else Refused(WrongBase);
      }
      r := if c.change.InitialHistory? then Stored else Refused(BadFirstBase);
    }
  }
}
