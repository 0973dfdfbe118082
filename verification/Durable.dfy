/**
 * Durable commits and the digest that identifies a checkpoint
 * (kernel/repository.py, _engine/commit.py).
 */
module Durable {
  import opened Wrappers
  import opened Messages
  import opened Digests
  import opened State
  import opened Linkage
  import opened Checkpoints
  import opened Changes
  import opened Commits

  // ------------------------------------------------------ checkpoint digest

  /** checkpoint_digest, as the values it is written from. */
  datatype Fingerprint = Fingerprint(
    id: Text, revision: int, context: Context, historyCount: int, historyDigest: Digest, metrics: Metrics,
    state: RunState, fact: Fact)

  /** The state as it is written: the pending-turn flag of a top-level ToolsPending is left out. */
  function WrittenState(s: RunState): RunState {
    match s
    case Active(ToolsPending(calls, _)) => Active(ToolsPending(calls, false))
    case _ => s
  }

  /** The fact as it is written: the pending-turn flag of a model turn is left out. */
  function WrittenFact(f: Fact): Fact {
    if f.ModelTurn? then f.(providerTurnPending := false) else f
  }

  function CheckpointDigest(c: Checkpoint): Fingerprint {
    var s := c.snapshot;
    Fingerprint(c.id, s.revision, s.context, |s.history|, HistoryDigest(s.history), s.metrics, WrittenState(s.state),
                WrittenFact(c.fact))
  }

  /** A checkpoint without the two flags its digest does not cover. */
  function Unflagged(c: Checkpoint): Checkpoint {
    c.(snapshot := c.snapshot.(state := WrittenState(c.snapshot.state)), fact := WrittenFact(c.fact))
  }

  /** The same state, or two that owe the same calls and differ in the flag alone. */
  predicate SameStateBut(a: RunState, b: RunState) {
    a == b || (a.Active? && b.Active? && a.active.ToolsPending? && b.active.ToolsPending?
               && a.active.pending == b.active.pending)
  }

  /** The same fact, or two model turns that differ in the flag alone. */
  predicate SameFactBut(a: Fact, b: Fact) {
    a == b || (a.ModelTurn? && b.ModelTurn? && a.result == b.result && a.partCount == b.partCount
               && a.callIds == b.callIds && a.finishReason == b.finishReason && a.usage == b.usage
               && a.limitReason == b.limitReason)
  }

  /** One digest means one checkpoint, up to those flags. */
  lemma DigestIdentifies(a: Checkpoint, b: Checkpoint)
    ensures CheckpointDigest(a) == CheckpointDigest(b) <==> Unflagged(a) == Unflagged(b)
    ensures CheckpointDigest(a) == CheckpointDigest(b)
      <==> a.id == b.id && a.snapshot.(state := b.snapshot.state) == b.snapshot
           && SameStateBut(a.snapshot.state, b.snapshot.state) && SameFactBut(a.fact, b.fact)
  {
    if CheckpointDigest(a) == CheckpointDigest(b) { HistoryDigestInjective(a.snapshot.history, b.snapshot.history); }
    hide HistoryDigest;
  }

  /** A checkpoint that owes calls, with the pending-turn flag turned over, in its model-turn fact too. */
  function Flipped(c: Checkpoint): Checkpoint
    requires c.snapshot.state.Active? && c.snapshot.state.active.ToolsPending?
  {
    var flag := !c.snapshot.state.active.providerTurnPending;
    c.(snapshot := c.snapshot.(state := Active(c.snapshot.state.active.(providerTurnPending := flag))),
       fact := if c.fact.ModelTurn? then c.fact.(providerTurnPending := flag) else c.fact)
  }

  /** Every valid checkpoint that owes calls shares its digest with another valid one, which goes on differently. */
  lemma DigestOmitsFlag(c: Checkpoint)
    requires ValidCheckpoint(c) && c.snapshot.state.Active? && c.snapshot.state.active.ToolsPending?
    ensures ValidCheckpoint(Flipped(c)) && Flipped(c) != c && CheckpointDigest(Flipped(c)) == CheckpointDigest(c)
  {
    FlippedSnapshot(c);
    FlippedBoundary(c);
    hide ValidSnapshot, BoundaryOk, HistoryDigest;
  }

  lemma FlippedSnapshot(c: Checkpoint)
    requires ValidSnapshot(c.snapshot) && c.snapshot.state.Active? && c.snapshot.state.active.ToolsPending?
    ensures ValidSnapshot(Flipped(c).snapshot)
  {
    hide Link, ValidMessage;
    assert OwedCalls(Flipped(c).snapshot.state) == OwedCalls(c.snapshot.state);
  }

  lemma ToolBoundaryStays(s: Snapshot, next: Snapshot, ids: seq<Text>, outcomes: seq<OutcomeKind>,
                          suspension: Option<SuspensionView>)
    requires ToolBoundary(s, ids, outcomes, suspension) && next.history == s.history
    requires s.state.Active? && next.state.Active?
    ensures ToolBoundary(next, ids, outcomes, suspension)
  {
    var tail := next.history[|next.history| - |ids|..];
    assert tail == s.history[|s.history| - |ids|..];
    forall i | 0 <= i < |ids|
      ensures tail[i].role == Tool && tail[i].toolCallId == Some(ids[i]) && KindOf(tail[i]) == Some(outcomes[i])
    {
    }
  }

  lemma FlippedBoundary(c: Checkpoint)
    requires c.snapshot.state.Active? && c.snapshot.state.active.ToolsPending? && c.snapshot.history != []
    requires BoundaryOk(c.snapshot, c.fact) && ValidFact(c.fact)
    ensures BoundaryOk(Flipped(c).snapshot, Flipped(c).fact) && ValidFact(Flipped(c).fact)
  {
    var s, flipped := c.snapshot, Flipped(c);
    assert Roles(flipped.snapshot.history) == Roles(s.history);
    match c.fact
    case ModelTurn(_, _, _, _, _, _, _) =>
      assert c.fact.result == TurnToolsPending;
      assert ModelBoundary(flipped.snapshot, flipped.fact);
    case ToolBatch(_, ids, _, outcomes, suspension) =>
      ToolBoundaryStays(s, flipped.snapshot, ids, outcomes, suspension);
    case _ =>
  }

  // -------------------------------------------------------- durable commits

  datatype HistoryChange =
    | InitialHistory(messages: seq<Message>)
    | HistoryAppend(baseCount: int, baseDigest: Digest, messages: seq<Message>)
    | HistoryReplace(baseCount: int, baseDigest: Digest, messages: seq<Message>)
    | HistoryUnchanged(baseCount: int, baseDigest: Digest)

  datatype DurableCommit = DurableCommit(checkpoint: Checkpoint, parent: Option<Text>, change: HistoryChange)

  function RunOf(c: Checkpoint): Text { c.snapshot.context.runId }

  function ExpectedRevision(c: DurableCommit): Option<int> {
    if c.checkpoint.snapshot.revision == 0 then None else Some(c.checkpoint.snapshot.revision - 1)
  }

  /** _validate_history_change: the change, by count and digest, leads to the checkpoint's history. */
  predicate ChangeFits(history: seq<Message>, change: HistoryChange) {
    match change
    case InitialHistory(messages) => |history| == |messages| && HistoryDigest(history) == HistoryDigest(messages)
    case HistoryAppend(count, digest, messages) =>
      |history| == count + |messages| && HistoryDigest(history) == ExtendHistory(digest, messages)
    case HistoryReplace(_, _, messages) => |history| == |messages| && HistoryDigest(history) == HistoryDigest(messages)
    case HistoryUnchanged(count, digest) => |history| == count && HistoryDigest(history) == digest
  }

  /** What DurableCommit's constructor and its parts require. */
  predicate ValidCommit(c: DurableCommit) {
    && ValidCheckpoint(c.checkpoint) && RunOf(c.checkpoint) != "" && c.parent != Some("")
    && (c.checkpoint.snapshot.revision == 0 ==> c.parent.None? && c.change.InitialHistory?)
    && (c.checkpoint.snapshot.revision != 0 ==> c.parent.Some? && !c.change.InitialHistory?)
    && (c.change.HistoryAppend? ==> c.change.messages != [])
    && (!c.change.InitialHistory? ==> c.change.baseCount >= 1)
    && ChangeFits(c.checkpoint.snapshot.history, c.change)
  }

  /** The base a change was made for. */
  predicate BasedOn(change: HistoryChange, base: seq<Message>) {
    !change.InitialHistory? && change.baseCount == |base| && change.baseDigest == HistoryDigest(base)
  }

  /** What a change makes of its base. */
  function Changed(base: seq<Message>, change: HistoryChange): seq<Message> {
    match change
    case InitialHistory(messages) => messages
    case HistoryAppend(_, _, messages) => base + messages
    case HistoryReplace(_, _, messages) => messages
    case HistoryUnchanged(_, _) => base
  }

  /** Count and digest alone force the checkpoint's history to be the changed base. */
  lemma ChangeProduces(history: seq<Message>, change: HistoryChange, base: seq<Message>)
    requires ChangeFits(history, change) && (change.InitialHistory? || BasedOn(change, base))
    ensures history == Changed(base, change)
  {
    match change
    case InitialHistory(messages) => HistoryDigestInjective(history, messages);
    case HistoryReplace(_, _, messages) => HistoryDigestInjective(history, messages);
    case HistoryAppend(_, _, messages) =>
      ExtendTwice(EmptyHistory, base, messages);
      HistoryDigestInjective(history, base + messages);
    case HistoryUnchanged(_, _) => HistoryDigestInjective(history, base);
  }

  // ---------------------------------------------------------- the committer

  /** _history_change */
  function HistoryChangeOf(previous: Snapshot, c: Change, next: Snapshot): HistoryChange {
    var count, digest := |previous.history|, HistoryDigest(previous.history);
    if c.replace.Some? then HistoryReplace(count, digest, next.history)
    else if c.append != [] then HistoryChange.HistoryAppend(count, digest, c.append)
    else HistoryUnchanged(count, digest)
  }

  /** What the engine hands to the repository after a reduced change is a valid commit on its base. */
  lemma EngineCommitIsValid(previous: Checkpoint, c: Change, id: Text)
    requires ValidCheckpoint(previous) && RunOf(previous) != "" && Passes(previous.snapshot, c, id)
    requires c.replace.Some? ==> c.append == []
    ensures var next := Reduce(previous.snapshot, c, id).value;
      var change := HistoryChangeOf(previous.snapshot, c, next.snapshot);
      && ValidCommit(DurableCommit(next, Some(previous.id), change))
      && BasedOn(change, previous.snapshot.history)
  {
    var base := previous.snapshot.history;
    ExtendTwice(EmptyHistory, base, c.append);
    assert base + [] == base;
  }
}
