/**
 * The storage codec (jharness-repository, _codec.py): a checkpoint's core
 * beside bounded chunks of its history, and when reading them back gives the
 * same checkpoint. Values stand for their JSON documents.
 */
module Codec {
  import opened Wrappers
  import opened Messages
  import opened Digests
  import opened State
  import opened Linkage
  import opened Checkpoints
  import opened Durable

  const CHUNK := 64

  // ------------------------------------------------------------------ chunks

  /** Messages in blocks of 64, only the last of them smaller. */
  function Chunks(messages: seq<Message>): (chunks: seq<seq<Message>>)
    ensures forall i :: 0 <= i < |chunks| ==> 1 <= |chunks[i]| <= CHUNK
    ensures forall i :: 0 <= i < |chunks| - 1 ==> |chunks[i]| == CHUNK
    ensures chunks == [] <==> messages == []
  {
    if messages == [] then []
    else if |messages| <= CHUNK then [messages]
    else [messages[..CHUNK]] + Chunks(messages[CHUNK..])
  }

  function Join(chunks: seq<seq<Message>>): seq<Message> {
    if chunks == [] then [] else chunks[0] + Join(chunks[1..])
  }

  lemma {:induction false} JoinChunks(messages: seq<Message>)
    ensures Join(Chunks(messages)) == messages
  {
    if messages == [] {
    } else if |messages| <= CHUNK {
      assert [messages][1..] == [];
    } else {
      JoinChunks(messages[CHUNK..]);
      assert ([messages[..CHUNK]] + Chunks(messages[CHUNK..]))[1..] == Chunks(messages[CHUNK..]);
    }
  }

  lemma {:induction false} JoinConcat(a: seq<seq<Message>>, b: seq<seq<Message>>)
    ensures Join(a + b) == Join(a) + Join(b)
  {
    if a == [] {
      assert a + b == b;
    } else {
      assert (a + b)[1..] == a[1..] + b;
      JoinConcat(a[1..], b);
    }
  }

  lemma {:induction false} ChunksSnoc(full: seq<seq<Message>>, last: seq<Message>)
    requires forall i :: 0 <= i < |full| ==> |full[i]| == CHUNK
    requires 1 <= |last| <= CHUNK
    ensures Chunks(Join(full) + last) == full + [last]
  {
    if full == [] {
      assert [] + last == last;
    } else {
      ChunksSnoc(full[1..], last);
      var all := Join(full) + last;
      assert all[..CHUNK] == full[0] && all[CHUNK..] == Join(full[1..]) + last;
    }
  }

  /** _encode_chunks */
  method EncodeChunks(messages: seq<Message>) returns (chunks: seq<seq<Message>>)
    ensures chunks == Chunks(messages)
  {
    chunks := [];
    var pending: seq<Message> := [];
    for i := 0 to |messages|
      invariant |pending| < CHUNK && (forall k :: 0 <= k < |chunks| ==> |chunks[k]| == CHUNK)
      invariant Join(chunks) + pending == messages[..i]
    {
      assert messages[..i + 1] == messages[..i] + [messages[i]];
      pending := pending + [messages[i]];
      if |pending| == CHUNK {
        JoinConcat(chunks, [pending]);
        assert [pending][1..] == [];
        chunks := chunks + [pending];
        pending := [];
      }
    }
    assert messages[..|messages|] == messages;
    assert Join(chunks) + pending == messages;
    if pending != [] {
      ChunksSnoc(chunks, pending);
      chunks := chunks + [pending];
    } else if chunks != [] {
      var front, last := chunks[..|chunks| - 1], chunks[|chunks| - 1];
      JoinConcat(front, [last]);
      assert chunks == front + [last] && [last][1..] == [];
      assert Join(chunks) + [] == Join(chunks) && Join([last]) == last + [] == last;
      ChunksSnoc(front, last);
    }
  }

  /** encode_history_change */
  function EncodedChange(change: HistoryChange): seq<seq<Message>> {
    if change.HistoryUnchanged? then [] else Chunks(change.messages)
  }

  method EncodeHistoryChange(change: HistoryChange) returns (chunks: seq<seq<Message>>)
    ensures chunks == EncodedChange(change)
  {
    if change.HistoryUnchanged? { return []; }
    chunks := EncodeChunks(change.messages);
  }

  /** The blocks a history is in after a change. */
  function NextBlocks(blocks: seq<seq<Message>>, change: HistoryChange): seq<seq<Message>> {
    match change
    case InitialHistory(messages) => Chunks(messages)
    case HistoryReplace(_, _, messages) => Chunks(messages)
    case HistoryAppend(_, _, messages) => blocks + Chunks(messages)
    case HistoryUnchanged(_, _) => blocks
  }

  lemma NextBlocksJoin(blocks: seq<seq<Message>>, base: seq<Message>, change: HistoryChange)
    requires !change.InitialHistory? && !change.HistoryReplace? ==> Join(blocks) == base
    ensures Join(NextBlocks(blocks, change)) == Changed(base, change)
  {
    if !change.HistoryUnchanged? { JoinChunks(change.messages); }
    if change.HistoryAppend? { JoinConcat(blocks, Chunks(change.messages)); }
  }

  // ------------------------------------------------------- unresolved calls

  datatype StoredError =
    | BadLinkage | NoUnresolved | PendingManifest | DuplicateCalls | CountMismatch | BadSnapshot | DigestMismatch

  /** _unresolved_tool_calls from a pending suffix on. */
  function UnresolvedFrom(pending: seq<ToolCall>, messages: seq<Message>): Result<seq<ToolCall>, StoredError>
    decreases |messages|
  {
    if messages == [] then Ok(pending)
    else
      var m := messages[0];
      if pending != [] then
        if m.role != Tool || m.toolCallId != Some(pending[0].id) then Err(BadLinkage)
        else UnresolvedFrom(pending[1..], messages[1..])
      else if m.role == Tool then Err(BadLinkage)
      else UnresolvedFrom(CallsOf(m), messages[1..])
  }

  /** _unresolved_tool_calls */
  method UnresolvedToolCalls(history: seq<Message>) returns (r: Result<seq<ToolCall>, StoredError>)
    ensures r == UnresolvedFrom([], history)
  {
    var pending: seq<ToolCall>, cursor: nat := [], 0;
    assert history[0..] == history;
    for i := 0 to |history|
      invariant cursor <= |pending|
      invariant UnresolvedFrom(pending[cursor..], history[i..]) == UnresolvedFrom([], history)
    {
      var message := history[i];
      assert history[i..][1..] == history[i + 1..];
      if cursor < |pending| {
        assert pending[cursor..][1..] == pending[cursor + 1..];
        if message.role != Tool || message.toolCallId != Some(pending[cursor].id) { return Err(BadLinkage); }
        cursor := cursor + 1;
        continue;
      }
      if message.role == Tool { return Err(BadLinkage); }
      var calls := CallsOf(message);
      pending, cursor := calls, 0;
      assert calls[0..] == calls;
    }
    r := Ok(pending[cursor..]);
  }

  /** On a linked history it finds the calls that full validation leaves unresolved. */
  lemma {:induction false} UnresolvedAgrees(l: Linked, messages: seq<Message>)
    requires LinkFrom(l, messages).Ok?
    ensures UnresolvedFrom(l.unresolved, messages) == Ok(LinkFrom(l, messages).value.unresolved)
    decreases |messages|
  {
    if messages != [] { UnresolvedAgrees(LinkStep(l, messages[0]).value, messages[1..]); }
  }

  // ---------------------------------------------------------- stored states

  datatype StoredActive = StoredPlanning | StoredPending(count: int, digest: Digest)

  datatype StoredState =
    | StoredTop(pending: StoredActive)
    | StoredSuspended(resumeTo: StoredActive, suspension: Suspension)
    | StoredAsIs(state: RunState)

  /** _encode_pending_state, and the bare planning marker. */
  function EncodeActive(a: ActiveState): StoredActive {
    match a
    case Planning(_) => StoredPlanning
    case ToolsPending(calls, _) => StoredPending(|calls|, CallsDigest(calls))
  }

  /** _encode_storage_state */
  function EncodeState(s: RunState): StoredState {
    match s
    case Active(ToolsPending(calls, flag)) => StoredTop(EncodeActive(ToolsPending(calls, flag)))
    case Suspended(resumeTo, suspension) => StoredSuspended(EncodeActive(resumeTo), suspension)
    case _ => StoredAsIs(s)
  }

  /** _decode_pending_state and the resume marker: the calls come from the history alone. */
  function DecodeActive(stored: StoredActive, history: seq<Message>): Result<ActiveState, StoredError> {
    match stored
    case StoredPlanning => Ok(Planning(false))
    case StoredPending(count, digest) =>
      match UnresolvedFrom([], history)
      case Err(e) => Err(e)
      case Ok(calls) =>
        if calls == [] then Err(NoUnresolved)
        else if !Unique(Ids(calls)) then Err(DuplicateCalls)
        else if |calls| != count || CallsDigest(calls) != digest then Err(PendingManifest)
        else Ok(ToolsPending(calls, false))
  }

  /** _decode_storage_state */
  function DecodeState(stored: StoredState, history: seq<Message>): Result<RunState, StoredError> {
    match stored
    case StoredTop(pending) => (match DecodeActive(pending, history) case Err(e) => Err(e) case Ok(a) => Ok(Active(a)))
    case StoredSuspended(resumeTo, suspension) =>
      (match DecodeActive(resumeTo, history) case Err(e) => Err(e) case Ok(a) => Ok(Suspended(a, suspension)))
    case StoredAsIs(state) => Ok(state)
  }

  // ------------------------------------------------------------ checkpoints

  /** Everything of a checkpoint but its history. */
  datatype Core = Core(
    id: Text, parent: Option<Text>, revision: int, context: Context, metrics: Metrics, state: StoredState, fact: Fact,
    historyCount: int, historyDigest: Digest)

  /** encode_core */
  function EncodeCore(c: Checkpoint, parent: Option<Text>): Core {
    var s := c.snapshot;
    Core(c.id, parent, s.revision, s.context, s.metrics, EncodeState(s.state), c.fact, |s.history|,
         HistoryDigest(s.history))
  }

  /** DecodedCore.checkpoint and the digest check. */
  function Reconstructed(core: Core, history: seq<Message>, expected: Fingerprint): Result<Checkpoint, StoredError> {
    if |history| != core.historyCount then Err(CountMismatch)
    else match DecodeState(core.state, history)
      case Err(e) => Err(e)
      case Ok(state) =>
        var snapshot := Snapshot(core.revision, core.context, history, core.metrics, state);
        var c := Checkpoint(core.id, snapshot, core.fact);
        if !ValidCheckpoint(c) then Err(BadSnapshot)
        else if CheckpointDigest(c) != expected then Err(DigestMismatch)
        else Ok(c)
  }

  /** reconstruct_checkpoint */
  method Reconstruct(core: Core, chunks: seq<seq<Message>>, expected: Fingerprint)
    returns (r: Result<Checkpoint, StoredError>)
    ensures r == Reconstructed(core, Join(chunks), expected)
  {
    var messages: seq<Message> := [];
    assert chunks[..0] == [];
    for i := 0 to |chunks|
      invariant messages == Join(chunks[..i])
    {
      assert chunks[..i + 1] == chunks[..i] + [chunks[i]];
      JoinConcat(chunks[..i], [chunks[i]]);
      assert [chunks[i]][1..] == [];
      messages := messages + chunks[i];
    }
    assert chunks[..|chunks|] == chunks;
    r := Reconstructed(core, messages, expected);
  }

  /** What storage does to a state: it forgets the pending-turn flag of owed calls and of a suspension. */
  function Forgotten(s: RunState): RunState {
    match s
    case Active(ToolsPending(calls, _)) => Active(ToolsPending(calls, false))
    case Suspended(Planning(_), suspension) => Suspended(Planning(false), suspension)
    case Suspended(ToolsPending(calls, _), suspension) => Suspended(ToolsPending(calls, false), suspension)
    case _ => s
  }

  /** Pending calls are rebuilt from the history alone. */
  lemma DecodesForgotten(s: Snapshot)
    requires ValidSnapshot(s)
    ensures DecodeState(EncodeState(s.state), s.history) == Ok(Forgotten(s.state))
  {
    UnresolvedAgrees(NOTHING_LINKED, s.history);
  }

  /** What is owed, and so what may stay unresolved, does not depend on the flag. */
  lemma ForgottenOwes(s: RunState, history: seq<Message>)
    ensures OwedCalls(Forgotten(s)) == OwedCalls(s) && Analyze(history, Forgotten(s)) == Analyze(history, s)
    ensures ValidState(Forgotten(s)) <==> ValidState(s)
  {
  }

  /** Of the boundary checks only a model turn's looks at the flag. */
  lemma ForgottenBoundary(s: Snapshot, f: Fact)
    requires s.history != [] && BoundaryOk(s, f) && Forgotten(s.state) != s.state
    ensures BoundaryOk(s.(state := Forgotten(s.state)), f) <==> !f.ModelTurn?
  {
    var forgotten := s.(state := Forgotten(s.state));
    assert forgotten.state.Active? == s.state.Active? && forgotten.state.Suspended? == s.state.Suspended?;
    if s.state.Suspended? { assert forgotten.state.suspension == s.state.suspension; }
  }

  /** A checkpoint without the flag is valid again, unless its fact is the model turn that set it. */
  lemma ForgottenIsValid(c: Checkpoint)
    requires ValidCheckpoint(c)
    ensures var forgotten := c.(snapshot := c.snapshot.(state := Forgotten(c.snapshot.state)));
      ValidCheckpoint(forgotten) <==> Forgotten(c.snapshot.state) == c.snapshot.state || !c.fact.ModelTurn?
  {
    var forgotten := c.(snapshot := c.snapshot.(state := Forgotten(c.snapshot.state)));
    if Forgotten(c.snapshot.state) == c.snapshot.state {
      assert forgotten == c;
    } else {
      hide BoundaryOk, Analyze, ValidFact, ValidMessage;
      ForgottenOwes(c.snapshot.state, c.snapshot.history);
      ForgottenBoundary(c.snapshot, c.fact);
    }
  }

  /**
   * The storage round trip, exactly: a checkpoint is read back as itself if and
   * only if its state keeps no pending-turn flag that storage forgets. When it
   * does, a suspended state and the state of a model turn are refused on
   * reading; any other state with owed calls is silently read back without it.
   */
  lemma RoundTrip(c: Checkpoint, parent: Option<Text>)
    requires ValidCheckpoint(c)
    ensures var s := c.snapshot;
      var r := Reconstructed(EncodeCore(c, parent), s.history, CheckpointDigest(c));
      && (r == Ok(c) <==> Forgotten(s.state) == s.state)
      && (r.Ok? <==> Forgotten(s.state) == s.state || (s.state.Active? && !c.fact.ModelTurn?))
      && (r.Ok? ==> r.value == c.(snapshot := s.(state := Forgotten(s.state))))
  {
    DecodesForgotten(c.snapshot);
    ForgottenIsValid(c);
  }

  // ------------------------------------------------------------ reading back

  /** Reading a head can fail on stored rows that do not fit together. */
  datatype ReadError =
    | MissingLedger
    | LedgerDiffers
    | BadParent
    | BadCore
    | MissingChunk
    | BadCount
    | Unreadable(error: StoredError)
    | HeadDiffers

  /** The outcome of reading a checkpoint back. */
  predicate ReadsAs(r: Result<Option<Checkpoint>, ReadError>, c: Checkpoint, parent: Option<Text>) {
    match Reconstructed(EncodeCore(c, parent), c.snapshot.history, CheckpointDigest(c))
    case Err(e) => r == Err(Unreadable(e))
    case Ok(read) => r == Ok(Some(read))
  }

  /** The active state that stored calls stand for, given what the history leaves unresolved. */
  ghost predicate Restores(stored: StoredActive, history: seq<Message>, a: ActiveState) {
    match stored
    case StoredPlanning => a == Planning(false)
    case StoredPending(count, digest) =>
      && a.ToolsPending? && !a.providerTurnPending && |a.pending| == count && CallsDigest(a.pending) == digest
      && Link(history).Ok? && Link(history).value.unresolved == a.pending && a.pending != []
  }

  ghost predicate RestoresState(stored: StoredState, history: seq<Message>, s: RunState) {
    match stored
    case StoredTop(a) => s.Active? && Restores(a, history, s.active)
    case StoredSuspended(a, suspension) =>
      s.Suspended? && s.suspension == suspension && Restores(a, history, s.resumeTo)
    case StoredAsIs(state) => s == state
  }

  /**
   * Reading, exactly: a checkpoint comes of a core and a history if and only if
   * it is a valid one of just these parts, with the expected digest, whose owed
   * calls are those the history leaves unresolved, as the core counted and
   * digested them.
   */
  lemma ReconstructsExactly(core: Core, history: seq<Message>, expected: Fingerprint, c: Checkpoint)
    ensures Reconstructed(core, history, expected) == Ok(c) <==>
      && ValidCheckpoint(c) && CheckpointDigest(c) == expected && |history| == core.historyCount
      && c.id == core.id && c.fact == core.fact && c.snapshot.revision == core.revision
      && c.snapshot.context == core.context && c.snapshot.metrics == core.metrics && c.snapshot.history == history
      && RestoresState(core.state, history, c.snapshot.state)
  {
    hide BoundaryOk, ValidFact, CheckpointDigest;
    if ValidCheckpoint(c) && c.snapshot.history == history { RestoresExactly(core.state, c.snapshot); }
    if Reconstructed(core, history, expected) == Ok(c) { RestoresExactly(core.state, c.snapshot); }
    hide ValidSnapshot, DecodeState, RestoresState;
  }

  lemma RestoresExactly(stored: StoredState, s: Snapshot)
    requires ValidSnapshot(s)
    ensures DecodeState(stored, s.history) == Ok(s.state) <==> RestoresState(stored, s.history, s.state)
  {
    UnresolvedAgrees(NOTHING_LINKED, s.history);
  }

  /** A reconstructed checkpoint has the identity of its core. */
  lemma ReconstructedFields(core: Core, history: seq<Message>, expected: Fingerprint)
    requires Reconstructed(core, history, expected).Ok?
    ensures var c := Reconstructed(core, history, expected).value;
      && c.id == core.id && c.snapshot.context == core.context && c.snapshot.revision == core.revision
      && c.snapshot.history == history && c.snapshot.metrics == core.metrics && c.fact == core.fact
      && |history| == core.historyCount && ValidCheckpoint(c) && CheckpointDigest(c) == expected
  {
  }

  /** Reading gives the abstract head itself exactly when its state keeps no flag that storage forgets. */
  lemma ReadsBackExactly(r: Result<Option<Checkpoint>, ReadError>, c: Checkpoint, parent: Option<Text>)
    requires ValidCheckpoint(c) && ReadsAs(r, c, parent)
    ensures r == Ok(Some(c)) <==> Forgotten(c.snapshot.state) == c.snapshot.state
  {
    RoundTrip(c, parent);
  }

  // -------------------------------------------------------- a lost flag

  const ASKED := Freeform("call", "tool", "", [])
  const QUESTION := Message(User, [ContentPart("text", Some("hi"), None, None, None, None, [], [])], [], None, None, [])
  const REQUEST := Message(Assistant, [], [Runtime(ASKED)], None, None, [])

  /** A run resumed while its provider turn is pending and one tool call is owed. */
  const RESUMED := Checkpoint("id", Snapshot(3, Context("run", []), [QUESTION, REQUEST], NO_METRICS,
                                             Active(ToolsPending([ASKED], true))), Resumed([], []))

  lemma RequestAsks()
    ensures CallsOf(REQUEST) == [ASKED] && ValidMessage(REQUEST) && ValidMessage(QUESTION) && Unique(Ids([ASKED]))
  {
    assert [Runtime(ASKED)][1..] == [];
    assert RuntimeCalls([Runtime(ASKED)]) == [ASKED] + RuntimeCalls([]) == [ASKED];
  }

  lemma ResumedIsLinked()
    ensures Link([QUESTION, REQUEST]) == Ok(Linked(ToSet(Ids([ASKED])), [ASKED]))
  {
    RequestAsks();
    var history := [QUESTION, REQUEST];
    assert history[1..] == [REQUEST] && [REQUEST][1..] == [];
    assert LinkStep(NOTHING_LINKED, QUESTION) == Ok(NOTHING_LINKED);
    assert {} + ToSet(Ids([ASKED])) == ToSet(Ids([ASKED]));
    assert LinkStep(NOTHING_LINKED, REQUEST) == Ok(Linked(ToSet(Ids([ASKED])), [ASKED]));
    assert LinkFrom(NOTHING_LINKED, [REQUEST]) == Ok(Linked(ToSet(Ids([ASKED])), [ASKED]));
    assert LinkFrom(NOTHING_LINKED, history) == LinkFrom(NOTHING_LINKED, history[1..]);
  }

  /** The round trip fails: this valid checkpoint is read back without error as another one. */
  lemma FlagIsLost()
    ensures ValidCheckpoint(RESUMED)
    ensures var read := Reconstructed(EncodeCore(RESUMED, Some("parent")), RESUMED.snapshot.history,
                                      CheckpointDigest(RESUMED));
      read.Ok? && read.value != RESUMED && read.value.snapshot.state == Active(ToolsPending([ASKED], false))
  {
    RequestAsks();
    ResumedIsLinked();
    RoundTrip(RESUMED, Some("parent"));
  }
}
