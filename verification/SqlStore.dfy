/**
 * The chunked SQL repositories (jharness-repository, sqlite.py, mysql.py,
 * _history_manifest.py): three tables changed by one transaction, and their
 * refinement of the abstract repository that keeps whole checkpoints.
 */
module SqlStore {
  import opened Wrappers
  import opened Messages
  import opened Digests
  import opened Checkpoints
  import opened Durable
  import opened Codec
  import opened Repository

  datatype HeadRow = HeadRow(
    revision: int, checkpointId: Text, parent: Option<Text>, digest: Fingerprint, core: Core, generation: int,
    chunkCount: int, messageCount: int, historyDigest: Digest)

  datatype ChunkRow = ChunkRow(count: int, messages: seq<Message>)

  type LedgerTable = map<(Text, Text), LedgerEntry>
  type ChunkTable = map<(Text, int, int), ChunkRow>

  datatype Manifest = Manifest(generation: int, firstIndex: int, chunkCount: int)

  // ------------------------------------------------------ the manifest policy

  /** validate_new_base, from the stored head row. */
  function BaseError(head: Option<HeadRow>, c: DurableCommit): Option<Refusal> {
    match head
    case None => if c.parent.Some? || !c.change.InitialHistory? then Some(BadFirstBase) else None
    case Some(row) =>
      if c.parent != Some(row.checkpointId) then Some(WrongParent)
      else if c.change.InitialHistory? || c.change.baseCount != row.messageCount
        || c.change.baseDigest != row.historyDigest
        then Some(WrongBase)
      else None
  }

  /** next_history_manifest */
  function NextManifest(head: Option<HeadRow>, c: DurableCommit, added: nat): Manifest {
    if head.None? || c.change.HistoryReplace? then Manifest(c.checkpoint.snapshot.revision, 0, added)
    else
      var row := head.value;
      Manifest(row.generation, row.chunkCount,
               if c.change.HistoryAppend? then row.chunkCount + added else row.chunkCount)
  }

  /** validate_encoded_history */
  predicate EncodedFits(head: Option<HeadRow>, c: DurableCommit, chunks: seq<seq<Message>>) {
    var added, total := |Join(chunks)|, |c.checkpoint.snapshot.history|;
    if head.None? || c.change.HistoryReplace? then chunks != [] && added == total
    else if c.change.HistoryAppend? then chunks != [] && head.value.messageCount + added == total
    else chunks == [] && head.value.messageCount == total
  }

  // ------------------------------------------------------- one run's rows

  /** The ledger rows of a run. */
  function LedgerOf(ledger: LedgerTable, run: Text): map<Text, LedgerEntry> {
    map key | key in ledger && key.0 == run :: key.1 := ledger[key]
  }

  lemma LedgerAt(ledger: LedgerTable, run: Text, id: Text)
    ensures id in LedgerOf(ledger, run) <==> (run, id) in ledger
    ensures (run, id) in ledger ==> LedgerOf(ledger, run)[id] == ledger[(run, id)]
  {
    if (run, id) in ledger { assert (run, id).1 in LedgerOf(ledger, run); }
  }

  lemma LedgerAdd(ledger: LedgerTable, run: Text, id: Text, entry: LedgerEntry, other: Text)
    ensures LedgerOf(ledger[(run, id) := entry], other)
         == if other == run then LedgerOf(ledger, other)[id := entry] else LedgerOf(ledger, other)
  {
    var more := ledger[(run, id) := entry];
    var left := LedgerOf(more, other);
    var right := if other == run then LedgerOf(ledger, other)[id := entry] else LedgerOf(ledger, other);
    forall k ensures k in left <==> k in right {
      LedgerAt(ledger, other, k);
      LedgerAt(more, other, k);
    }
    forall k | k in left ensures left[k] == right[k] {
      LedgerAt(ledger, other, k);
      LedgerAt(more, other, k);
    }
  }

  lemma LedgerAddAll(ledger: LedgerTable, run: Text, id: Text, entry: LedgerEntry)
    ensures LedgerOf(ledger[(run, id) := entry], run) == LedgerOf(ledger, run)[id := entry]
    ensures forall other: Text :: other != run ==>
      LedgerOf(ledger[(run, id) := entry], other) == LedgerOf(ledger, other)
  {
    LedgerAdd(ledger, run, id, entry, run);
    forall other: Text | other != run ensures LedgerOf(ledger[(run, id) := entry], other) == LedgerOf(ledger, other) {
      LedgerAdd(ledger, run, id, entry, other);
    }
  }

  function Head(chain: seq<Checkpoint>): Option<Checkpoint> {
    if chain == [] then None else Some(chain[|chain| - 1])
  }

  /** The head row is the last checkpoint's, and its generation is no later than its revision. */
  predicate RowFits(row: HeadRow, c: Checkpoint) {
    && row.revision == c.snapshot.revision && row.checkpointId == c.id && row.digest == CheckpointDigest(c)
    && row.core == EncodeCore(c, row.parent) && row.messageCount == |c.snapshot.history|
    && row.historyDigest == HistoryDigest(c.snapshot.history)
    && 0 <= row.generation <= row.revision && (row.revision == 0 <==> row.parent.None?)
  }

  predicate HeadFits(head: Option<HeadRow>, chain: seq<Checkpoint>) {
    if chain == [] then head.None? else head.Some? && RowFits(head.value, chain[|chain| - 1])
  }

  /** The chunks of the current generation are the blocks of the history, and nothing lies beyond them. */
  ghost predicate ChunksFit(chunks: ChunkTable, run: Text, head: Option<HeadRow>, blocks: seq<seq<Message>>,
                            history: seq<Message>) {
    match head
    case None => forall key <- chunks.Keys :: key.0 != run
    case Some(row) =>
      && row.chunkCount == |blocks| && Join(blocks) == history
      && (forall i :: 0 <= i < |blocks| ==> HasChunk(chunks, run, row.generation, i, blocks[i]))
      && (forall key <- chunks.Keys :: key.0 == run ==> Settled(key, row))
  }

  predicate HasChunk(chunks: ChunkTable, run: Text, generation: int, i: int, block: seq<Message>) {
    (run, generation, i) in chunks && chunks[(run, generation, i)] == ChunkRow(|block|, block) && 1 <= |block| <= CHUNK
  }

  /** No chunk is of a generation later than the head, or past the end of its generation's. */
  predicate Settled(key: (Text, int, int), row: HeadRow) {
    key.1 <= row.revision && (key.1 == row.generation ==> key.2 < row.chunkCount)
  }

  function HistoryOf(chain: seq<Checkpoint>): seq<Message> {
    if chain == [] then [] else chain[|chain| - 1].snapshot.history
  }

  /** All rows of a run are those a chain of checkpoints left. */
  ghost predicate RunFits(head: Option<HeadRow>, ledger: LedgerTable, chunks: ChunkTable, run: Text,
                          chain: seq<Checkpoint>, blocks: seq<seq<Message>>) {
    && HeadFits(head, chain)
    && Holds(RunStore(Head(chain), LedgerOf(ledger, run)), chain)
    && ChunksFit(chunks, run, head, blocks, HistoryOf(chain))
    && (forall i :: 0 <= i < |chain| ==> ValidCheckpoint(chain[i]) && RunOf(chain[i]) == run)
    && (chain != [] ==> chain[0].snapshot.revision == 0)
  }

  // ---------------------------------------------------------- inserting chunks

  /** The chunk table with some blocks added from an index on. */
  function Inserted(chunks: ChunkTable, run: Text, generation: int, first: int, added: seq<seq<Message>>): ChunkTable
    decreases |added|
  {
    if added == [] then chunks
    else Inserted(chunks[(run, generation, first) := ChunkRow(|added[0]|, added[0])], run, generation, first + 1,
                  added[1..])
  }

  lemma {:induction false} InsertedAt(chunks: ChunkTable, run: Text, generation: int, first: int,
                                      added: seq<seq<Message>>,
                                      key: (Text, int, int))
    ensures var more := Inserted(chunks, run, generation, first, added);
      var mine := key.0 == run && key.1 == generation && first <= key.2 < first + |added|;
      && (key in more <==> mine || key in chunks)
      && (mine ==> more[key] == ChunkRow(|added[key.2 - first]|, added[key.2 - first]))
      && (!mine && key in chunks ==> more[key] == chunks[key])
    decreases |added|
  {
    if added != [] {
      var next := chunks[(run, generation, first) := ChunkRow(|added[0]|, added[0])];
      InsertedAt(next, run, generation, first + 1, added[1..], key);
      if key == (run, generation, first) { assert key in next; }
    }
  }

  /** No chunk is stored under this key. */
  predicate FreeKey(chunks: ChunkTable, run: Text, generation: int, first: int, i: int) {
    (run, generation, first + i) !in chunks
  }

  /** The chunk table after a commit. */
  function NextChunks(chunks: ChunkTable, head: Option<HeadRow>, c: DurableCommit): ChunkTable {
    var m := NextManifest(head, c, |EncodedChange(c.change)|);
    Inserted(chunks, RunOf(c.checkpoint), m.generation, m.firstIndex, EncodedChange(c.change))
  }

  /** The keys a commit inserts are new: every generation used so far is at most the head's revision. */
  lemma KeysAreNew(chunks: ChunkTable, run: Text, head: Option<HeadRow>, c: DurableCommit, added: nat, i: nat,
                   blocks: seq<seq<Message>>, history: seq<Message>)
    requires ChunksFit(chunks, run, head, blocks, history) && i < added
    requires head.Some? ==> c.checkpoint.snapshot.revision == head.value.revision + 1
    ensures FreeKey(chunks, run, NextManifest(head, c, added).generation, NextManifest(head, c, added).firstIndex, i)
  {
    var m := NextManifest(head, c, added);
    var key := (run, m.generation, m.firstIndex + i);
    assert head.Some? && key in chunks.Keys ==> Settled(key, head.value);
  }

  /** Chunks inserted at the next manifest are the next history's, and the invariant holds again. */
  lemma ChunksAdvance(chunks: ChunkTable, run: Text, head: Option<HeadRow>, blocks: seq<seq<Message>>,
                      base: seq<Message>,
                      c: DurableCommit, row: HeadRow)
    requires ChunksFit(chunks, run, head, blocks, base)
    requires head.None? ==> c.change.InitialHistory? && base == []
    requires head.Some? ==>
      !c.change.InitialHistory? && row.revision == head.value.revision + 1 == c.checkpoint.snapshot.revision
    requires head.Some? ==> head.value.generation <= head.value.revision
    requires var m := NextManifest(head, c, |EncodedChange(c.change)|);
      row.generation == m.generation && row.chunkCount == m.chunkCount && row.revision == c.checkpoint.snapshot.revision
    ensures var m, added := NextManifest(head, c, |EncodedChange(c.change)|), EncodedChange(c.change);
      ChunksFit(Inserted(chunks, run, m.generation, m.firstIndex, added), run, Some(row), NextBlocks(blocks, c.change),
                Changed(base, c.change))
  {
    var added := EncodedChange(c.change);
    var m := NextManifest(head, c, |added|);
    var more := Inserted(chunks, run, m.generation, m.firstIndex, added);
    var next := NextBlocks(blocks, c.change);
    NextBlocksJoin(blocks, base, c.change);
    forall i | 0 <= i < |next| ensures HasChunk(more, run, row.generation, i, next[i]) {
      InsertedAt(chunks, run, m.generation, m.firstIndex, added, (run, row.generation, i));
      if i < m.firstIndex { assert HasChunk(chunks, run, row.generation, i, blocks[i]); }
    }
    forall key | key in more.Keys && key.0 == run ensures Settled(key, row) {
      InsertedAt(chunks, run, m.generation, m.firstIndex, added, key);
      if key in chunks && head.Some? { assert Settled(key, head.value); }
    }
  }

  // ---------------------------------------------------------- a whole commit

  /** What the stored head row answers to a commit, as the transaction asks it. */
  function RowResponse(head: Option<HeadRow>, existing: Option<LedgerEntry>, c: DurableCommit): Response {
    var revision, digest := c.checkpoint.snapshot.revision, CheckpointDigest(c.checkpoint);
    if existing.Some? then
      if existing.value.digest != digest then Refused(ReusedId)
      else if existing.value.revision != revision then Refused(LedgerInconsistent)
      else if head.None? || head.value.revision < revision then Refused(LedgerOrphaned)
      else if head.value.revision == revision
        && (head.value.checkpointId != c.checkpoint.id || head.value.digest != digest)
        then Refused(LedgerOrphaned)
      else Known
    else
      var actual := if head.None? then None else Some(head.value.revision);
      if actual != ExpectedRevision(c) then Conflict(ExpectedRevision(c), actual)
      else if BaseError(head, c).Some? then Refused(BaseError(head, c).value)
      else Stored
  }

  /** The rows answer as the abstract repository does. */
  lemma RowsRespond(head: Option<HeadRow>, ledger: LedgerTable, run: Text, chain: seq<Checkpoint>, c: DurableCommit)
    requires HeadFits(head, chain) && Holds(RunStore(Head(chain), LedgerOf(ledger, run)), chain)
    ensures var existing := if (run, c.checkpoint.id) in ledger then Some(ledger[(run, c.checkpoint.id)]) else None;
      RowResponse(head, existing, c) == Respond(RunStore(Head(chain), LedgerOf(ledger, run)), c)
  {
    LedgerAt(ledger, run, c.checkpoint.id);
  }

  /** The row a commit writes. */
  function NextRow(head: Option<HeadRow>, c: DurableCommit): HeadRow {
    var s := c.checkpoint.snapshot;
    var m := NextManifest(head, c, |EncodedChange(c.change)|);
    HeadRow(s.revision, c.checkpoint.id, c.parent, CheckpointDigest(c.checkpoint), EncodeCore(c.checkpoint, c.parent),
            m.generation, m.chunkCount, |s.history|, HistoryDigest(s.history))
  }

  lemma NextRowFits(head: Option<HeadRow>, chain: seq<Checkpoint>, c: DurableCommit)
    requires HeadFits(head, chain) && ValidCommit(c)
    requires head.Some? ==> c.checkpoint.snapshot.revision == head.value.revision + 1
    ensures RowFits(NextRow(head, c), c.checkpoint)
  {
  }

  /** The encoded chunks always represent the declared change. */
  lemma EncodedAlwaysFits(head: Option<HeadRow>, chain: seq<Checkpoint>, c: DurableCommit)
    requires HeadFits(head, chain) && ValidCommit(c) && Follows(Head(chain), c)
    ensures EncodedFits(head, c, EncodedChange(c.change))
  {
    if !c.change.HistoryUnchanged? { JoinChunks(c.change.messages); }
  }

  lemma LedgerAdvances(ledger: LedgerTable, run: Text, chain: seq<Checkpoint>, c: DurableCommit)
    requires Holds(RunStore(Head(chain), LedgerOf(ledger, run)), chain) && ValidCommit(c)
    requires Respond(RunStore(Head(chain), LedgerOf(ledger, run)), c) == Stored
    ensures Follows(Head(chain), c)
    ensures var entry := LedgerEntry(c.checkpoint.snapshot.revision, CheckpointDigest(c.checkpoint));
      var longer := chain + [c.checkpoint];
      Holds(RunStore(Head(longer), LedgerOf(ledger[(run, c.checkpoint.id) := entry], run)), longer)
  {
    var entry := LedgerEntry(c.checkpoint.snapshot.revision, CheckpointDigest(c.checkpoint));
    StoredExtends(RunStore(Head(chain), LedgerOf(ledger, run)), chain, c);
    LedgerAdd(ledger, run, c.checkpoint.id, entry, run);
  }

  lemma ChunksAdvanceFrom(head: Option<HeadRow>, chunks: ChunkTable, run: Text, chain: seq<Checkpoint>,
                          blocks: seq<seq<Message>>, c: DurableCommit)
    requires HeadFits(head, chain) && ChunksFit(chunks, run, head, blocks, HistoryOf(chain))
    requires ValidCommit(c) && Follows(Head(chain), c)
    requires RunOf(c.checkpoint) == run
    ensures ChunksFit(NextChunks(chunks, head, c), run, Some(NextRow(head, c)), NextBlocks(blocks, c.change),
                      HistoryOf(chain + [c.checkpoint]))
  {
    ChunksAdvance(chunks, run, head, blocks, HistoryOf(chain), c, NextRow(head, c));
    CommitHistory(chain, c);
  }

  /** A stored commit leaves rows that fit the longer chain. */
  lemma RowsAdvance(head: Option<HeadRow>, ledger: LedgerTable, chunks: ChunkTable, run: Text, chain: seq<Checkpoint>,
                    blocks: seq<seq<Message>>, c: DurableCommit)
    requires RunFits(head, ledger, chunks, run, chain, blocks) && ValidCommit(c) && RunOf(c.checkpoint) == run
    requires Respond(RunStore(Head(chain), LedgerOf(ledger, run)), c) == Stored
    ensures Follows(Head(chain), c)
    ensures var entry := LedgerEntry(c.checkpoint.snapshot.revision, CheckpointDigest(c.checkpoint));
      RunFits(Some(NextRow(head, c)), ledger[(run, c.checkpoint.id) := entry], NextChunks(chunks, head, c), run,
              chain + [c.checkpoint], NextBlocks(blocks, c.change))
  {
    hide Holds, ChunksFit, Respond, ValidCheckpoint;
    LedgerAdvances(ledger, run, chain, c);
    NextRowFits(head, chain, c);
    ChunksAdvanceFrom(head, chunks, run, chain, blocks, c);
  }

  lemma CommitHistory(chain: seq<Checkpoint>, c: DurableCommit)
    requires ValidCommit(c) && Follows(Head(chain), c)
    ensures c.checkpoint.snapshot.history == Changed(HistoryOf(chain), c.change)
  {
    if chain == [] { ChangeProduces(c.checkpoint.snapshot.history, c.change, []); }
  }

  /** What is stored of another run is not touched. */
  lemma OthersStand(head: Option<HeadRow>, ledger: LedgerTable, chunks: ChunkTable, run: Text, chain: seq<Checkpoint>,
                    blocks: seq<seq<Message>>, other: Text, id: Text, entry: LedgerEntry, generation: int, first: int,
                    added: seq<seq<Message>>)
    requires RunFits(head, ledger, chunks, run, chain, blocks) && other != run
    ensures RunFits(head, ledger[(other, id) := entry], Inserted(chunks, other, generation, first, added), run, chain,
      blocks)
  {
    var more := Inserted(chunks, other, generation, first, added);
    LedgerAdd(ledger, other, id, entry, run);
    forall key: (Text, int, int) | key.0 == run ensures key in more <==> key in chunks
      ensures key in chunks ==> more[key] == chunks[key]
    {
      InsertedAt(chunks, other, generation, first, added, key);
    }
    if head.Some? {
      forall i | 0 <= i < |blocks| ensures HasChunk(more, run, head.value.generation, i, blocks[i]) {
        assert HasChunk(chunks, run, head.value.generation, i, blocks[i]);
      }
    }
  }

  // ------------------------------------------------------------ the database

  class SqlRepository {
    var heads: map<Text, HeadRow>
    var ledger: LedgerTable
    var chunks: ChunkTable
    ghost var chains: map<Text, seq<Checkpoint>>
    ghost var blocks: map<Text, seq<seq<Message>>>

    ghost function Chain(run: Text): seq<Checkpoint>
      reads this
    {
      if run in chains then chains[run] else []
    }

    ghost function Blocks(run: Text): seq<seq<Message>>
      reads this
    {
      if run in blocks then blocks[run] else []
    }

    function Row(run: Text): Option<HeadRow>
      reads this
    {
      if run in heads then Some(heads[run]) else None
    }

    /** The whole-checkpoint store the rows of a run stand for. */
    ghost function View(run: Text): RunStore
      reads this
    {
      RunStore(Head(Chain(run)), LedgerOf(ledger, run))
    }

    ghost predicate Fits(run: Text)
      reads this
    {
      RunFits(Row(run), ledger, chunks, run, Chain(run), Blocks(run))
    }

    ghost predicate Valid()
      reads this
    {
      forall run: Text :: Fits(run)
    }

    constructor ()
      ensures Valid() && forall run: Text :: Chain(run) == [] && View(run) == EMPTY_STORE
    {
      heads, ledger, chunks := map[], map[], map[];
      chains, blocks := map[], map[];
    }

    /** The head manifest of a run, checked against its ledger row, whatever the tables hold. */
    method ReadManifest(run: Text) returns (r: Result<Option<HeadRow>, ReadError>)
      ensures r.Ok? <==> Row(run).Some? ==> Vouched(run, Row(run).value)
      ensures r.Ok? ==> r == Ok(Row(run))
      ensures Fits(run) ==> r == Ok(Row(run))
    {
      if run !in heads { return Ok(None); }
      var row := heads[run];
      if Fits(run) { HeadIsInLedger(Row(run), ledger, run, Chain(run)); }
      if (row.revision == 0) != row.parent.None? { return Err(BadParent); }
      if (run, row.checkpointId) !in ledger { return Err(MissingLedger); }
      if ledger[(run, row.checkpointId)] != LedgerEntry(row.revision, row.digest) { return Err(LedgerDiffers); }
      r := Ok(Some(row));
    }

    /** A head row has a parent unless it is the first, and a ledger row of its own revision and digest. */
    predicate Vouched(run: Text, row: HeadRow)
      reads this
    {
      && (row.revision == 0 <==> row.parent.None?) && (run, row.checkpointId) in ledger
      && ledger[(run, row.checkpointId)] == LedgerEntry(row.revision, row.digest)
    }

    /** The inserts of a commit: refused if a key exists. */
    method InsertChunks(run: Text, generation: int, first: int, added: seq<seq<Message>>)
      returns (r: Option<ChunkTable>)
      ensures r.Some? <==> forall i :: 0 <= i < |added| ==> FreeKey(chunks, run, generation, first, i)
      ensures r.Some? ==> r.value == Inserted(chunks, run, generation, first, added)
    {
      var table := chunks;
      assert added[0..] == added;
      for i := 0 to |added|
        invariant Inserted(table, run, generation, first + i, added[i..])
          == Inserted(chunks, run, generation, first, added)
        invariant forall k :: 0 <= k < i ==> FreeKey(chunks, run, generation, first, k)
        invariant forall k :: i <= k ==>
          (FreeKey(table, run, generation, first, k) <==> FreeKey(chunks, run, generation, first, k))
      {
        assert added[i..][1..] == added[i + 1..];
        if !FreeKey(table, run, generation, first, i) { return None; }
        table := table[(run, generation, first + i) := ChunkRow(|added[i]|, added[i])];
      }
      r := Some(table);
    }

    /** The checks of a transaction: what it would answer, changing nothing. */
    method Ask(c: DurableCommit) returns (r: Response)
      requires Valid() && ValidCommit(c)
      ensures r == Respond(View(RunOf(c.checkpoint)), c)
    {
      hide RunFits, Respond, ValidCheckpoint;
      var run, id := RunOf(c.checkpoint), c.checkpoint.id;
      assert Fits(run);
      var head := ReadManifest(run);
      RowsAnswer(Row(run), ledger, chunks, run, Chain(run), Blocks(run), c);
      var existing := if (run, id) in ledger then Some(ledger[(run, id)]) else None;
      r := RowResponse(head.value, existing, c);
    }

    /**
     * _commit_sync of SQLite and _commit_once of MySQL: one transaction. It
     * answers and moves as the abstract repository that keeps whole
     * checkpoints, and no other run is touched.
     */
    method CommitOnce(c: DurableCommit) returns (r: Response)
      requires Valid() && ValidCommit(c)
      modifies this
      ensures Valid() && r == Respond(old(View(RunOf(c.checkpoint))), c)
      ensures View(RunOf(c.checkpoint)) == After(old(View(RunOf(c.checkpoint))), c)
      ensures Chain(RunOf(c.checkpoint)) == old(Chain(RunOf(c.checkpoint)))
        + (if r == Stored then [c.checkpoint] else [])
      ensures forall run: Text :: run != RunOf(c.checkpoint) ==>
        View(run) == old(View(run)) && Chain(run) == old(Chain(run))
    {
      hide Fits, Respond, ValidCheckpoint;
      r := Ask(c);
      if r != Stored {
        assert Chain(RunOf(c.checkpoint)) + [] == Chain(RunOf(c.checkpoint));
        return;
      }
      Write(c, Row(RunOf(c.checkpoint)));
    }

    /** Rows of other runs fit their chains whatever is written for this one. */
    lemma OthersKeep(head: Option<HeadRow>, c: DurableCommit, entry: LedgerEntry)
      requires Valid()
      ensures forall other: Text :: other != RunOf(c.checkpoint) ==>
        RunFits(Row(other), ledger[(RunOf(c.checkpoint), c.checkpoint.id) := entry], NextChunks(chunks, head, c), other,
                Chain(other), Blocks(other))
    {
      hide RunFits;
      var run, id, added := RunOf(c.checkpoint), c.checkpoint.id, EncodedChange(c.change);
      var m := NextManifest(head, c, |added|);
      forall other: Text | other != run
        ensures RunFits(Row(other), ledger[(run, id) := entry], NextChunks(chunks, head, c), other, Chain(other),
          Blocks(other))
      {
        assert Fits(other);
        OthersStand(Row(other), ledger, chunks, other, Chain(other), Blocks(other), run, id, entry, m.generation,
                    m.firstIndex, added);
      }
    }

    /** The chunk rows of a transaction that passed its checks: every insert finds its key free. */
    method WriteChunks(c: DurableCommit, head: Option<HeadRow>) returns (table: ChunkTable)
      requires Fits(RunOf(c.checkpoint)) && ValidCommit(c) && head == Row(RunOf(c.checkpoint))
      requires Respond(View(RunOf(c.checkpoint)), c) == Stored
      ensures table == NextChunks(chunks, head, c)
    {
      hide Inserted, Respond, ValidCheckpoint;
      var run := RunOf(c.checkpoint);
      var added := EncodeHistoryChange(c.change);
      var m := NextManifest(head, c, |added|);
      LedgerAdvances(ledger, run, Chain(run), c);
      InsertsAreFree(head, ledger, chunks, run, Chain(run), Blocks(run), c);
      EncodedAlwaysFits(head, Chain(run), c);
      var inserted := InsertChunks(run, m.generation, m.firstIndex, added);
      table := inserted.value;
    }

    /** The writes of a transaction that passed its checks. */
    method Write(c: DurableCommit, head: Option<HeadRow>)
      requires Valid() && ValidCommit(c) && head == Row(RunOf(c.checkpoint))
      requires Respond(View(RunOf(c.checkpoint)), c) == Stored
      modifies this
      ensures Valid() && View(RunOf(c.checkpoint)) == After(old(View(RunOf(c.checkpoint))), c)
      ensures Chain(RunOf(c.checkpoint)) == old(Chain(RunOf(c.checkpoint))) + [c.checkpoint]
      ensures forall run: Text :: run != RunOf(c.checkpoint) ==>
        View(run) == old(View(run)) && Chain(run) == old(Chain(run))
    {
      hide RunFits, NextChunks, NextRow, ValidCheckpoint, LedgerOf, Respond, NextBlocks;
      var run, id := RunOf(c.checkpoint), c.checkpoint.id;
      assert Fits(run);
      var entry := LedgerEntry(c.checkpoint.snapshot.revision, CheckpointDigest(c.checkpoint));
      var table := WriteChunks(c, head);
      RowsAdvance(head, ledger, chunks, run, Chain(run), Blocks(run), c);
      OthersKeep(head, c, entry);
      LedgerAddAll(ledger, run, id, entry);
      label Before:
      chunks := table;
      ledger := ledger[(run, id) := entry];
      heads := heads[run := NextRow(head, c)];
      blocks := blocks[run := NextBlocks(Blocks(run), c.change)];
      chains := chains[run := Chain(run) + [c.checkpoint]];
      forall other: Text ensures Fits(other) {
        if other == run {
          assert Row(run) == Some(NextRow(head, c));
        } else {
          assert Row(other) == old@Before(Row(other)) && Chain(other) == old@Before(Chain(other));
          assert Blocks(other) == old@Before(Blocks(other));
        }
      }
    }

    lemma BlocksOfRun(run: Text)
      requires Fits(run) && Row(run).Some?
      ensures HoldsBlocks(chunks, run, Row(run).value, Blocks(run))
        && |Join(Blocks(run))| == Row(run).value.messageCount
      ensures Join([]) == []
    {
      StoredBlocks(Row(run), chunks, run, Chain(run), Blocks(run));
    }

    /** A chunk row is there, within the size of a chunk, and holds as many messages as it says. */
    predicate SoundChunk(run: Text, generation: int, i: int)
      reads this
    {
      && (run, generation, i) in chunks
      && 1 <= chunks[(run, generation, i)].count == |chunks[(run, generation, i)].messages| <= CHUNK
    }

    /** The messages of the first rows of a generation. */
    function StoredAt(run: Text, generation: int, n: nat): (found: seq<seq<Message>>)
      reads this
      ensures |found| == n
    {
      if n == 0 then []
      else
        StoredAt(run, generation, n - 1)
        + [if (run, generation, n - 1) in chunks then chunks[(run, generation, n - 1)].messages else []]
    }

    /** The rows of a head's generation are all there and sound, and hold as many messages as it says. */
    predicate Complete(run: Text, row: HeadRow)
      reads this
    {
      && row.chunkCount >= 0 && (forall i :: 0 <= i < row.chunkCount ==> SoundChunk(run, row.generation, i))
      && |Join(StoredAt(run, row.generation, row.chunkCount))| == row.messageCount
    }

    /** The rows of a run that clients wrote are complete, and hold its blocks. */
    lemma RunIsComplete(run: Text)
      requires Fits(run) && Row(run).Some?
      ensures Complete(run, Row(run).value)
      ensures StoredAt(run, Row(run).value.generation, Row(run).value.chunkCount) == Blocks(run)
    {
      hide Fits, Join, HasChunk;
      var row, stored := Row(run).value, Blocks(run);
      BlocksOfRun(run);
      forall i | 0 <= i < |stored| ensures SoundChunk(run, row.generation, i) {
        GatherOne(chunks, run, row, stored, i);
      }
      BlocksAreStored(run, row, stored, |stored|);
      assert stored[..|stored|] == stored;
    }

    lemma {:induction false} BlocksAreStored(run: Text, row: HeadRow, stored: seq<seq<Message>>, n: nat)
      requires HoldsBlocks(chunks, run, row, stored) && n <= |stored|
      ensures StoredAt(run, row.generation, n) == stored[..n]
    {
      if n > 0 {
        BlocksAreStored(run, row, stored, n - 1);
        GatherOne(chunks, run, row, stored, n - 1);
      }
    }

    /**
     * The chunk rows of the current generation, in order, whatever the tables
     * hold: read exactly when they are complete.
     */
    method ReadChunks(run: Text, row: HeadRow) returns (r: Result<seq<seq<Message>>, ReadError>)
      ensures r.Ok? <==> Complete(run, row)
      ensures r.Ok? ==> r.value == StoredAt(run, row.generation, row.chunkCount)
      ensures Fits(run) && Row(run) == Some(row) ==> r == Ok(Blocks(run))
    {
      hide Fits, HasChunk;
      if Fits(run) && Row(run) == Some(row) { RunIsComplete(run); }
      hide Join;
      var found: seq<seq<Message>>, total := [], 0;
      if row.chunkCount < 0 { return Err(BadCount); }
      NothingJoined();
      while |found| < row.chunkCount
        invariant |found| <= row.chunkCount && found == StoredAt(run, row.generation, |found|)
        invariant forall i :: 0 <= i < |found| ==> SoundChunk(run, row.generation, i)
        invariant total == |Join(found)|
        decreases row.chunkCount - |found|
      {
        var i := |found|;
        ghost var sound := SoundChunk(run, row.generation, i);
        if (run, row.generation, i) !in chunks { return Err(MissingChunk); }
        var chunk := chunks[(run, row.generation, i)];
        if chunk.count < 1 || chunk.count > CHUNK || chunk.count != |chunk.messages| { return Err(BadCount); }
        JoinOne(found, chunk.messages);
        total := total + chunk.count;
        found := found + [chunk.messages];
      }
      if total != row.messageCount { return Err(BadCount); }
      r := Ok(found);
    }

    /** What a checkpoint read for a run has to do with its rows. */
    predicate ReadFrom(run: Text, c: Checkpoint)
      reads this
    {
      && Row(run).Some? && Vouched(run, Row(run).value) && Complete(run, Row(run).value)
      && var row := Row(run).value;
        && c.id == row.checkpointId && RunOf(c) == run && c.snapshot.revision == row.revision
        && c.snapshot.history == Join(StoredAt(run, row.generation, row.chunkCount))
        && CheckpointDigest(c) == row.digest && ValidCheckpoint(c)
        && c.snapshot.context == row.core.context && c.snapshot.metrics == row.core.metrics && c.fact == row.core.fact
        && |c.snapshot.history| == row.messageCount && row.core.parent == row.parent
        && row.core.historyDigest == row.historyDigest
    }

    /**
     * get_head, whatever the tables hold: a checkpoint it reads has the id,
     * revision and digest of the head row and of its ledger row, and the messages
     * of the run's own chunks. Whatever clients committed in whatever order, a run
     * is read back as its last checkpoint is reconstructed from its core and its
     * history; no other check on the stored rows can fail.
     */
    method GetHead(run: Text) returns (r: Result<Option<Checkpoint>, ReadError>)
      ensures r == Ok(None) <==> Row(run).None?
      ensures r.Ok? && r.value.Some? ==> ReadFrom(run, r.value.value)
      ensures Valid() && Chain(run) == [] ==> r == Ok(None)
      ensures Valid() && Chain(run) != [] ==>
        Row(run).Some? && ReadsAs(r, Chain(run)[|Chain(run)| - 1], Row(run).value.parent)
    {
      hide Reconstructed, ValidCheckpoint, RunFits, EncodeCore, Complete, Join;
      assert Valid() ==> Fits(run);
      if Fits(run) { HeadOfRun(Row(run), ledger, chunks, run, Chain(run), Blocks(run)); }
      var manifest := ReadManifest(run);
      if manifest.Err? { return Err(manifest.error); }
      if manifest.value.None? { return Ok(None); }
      var row := manifest.value.value;
      if row.core.id != row.checkpointId || row.core.parent != row.parent || row.core.revision != row.revision
         || row.core.historyCount != row.messageCount || row.core.historyDigest != row.historyDigest {
        return Err(BadCore);
      }
      var found := ReadChunks(run, row);
      if found.Err? { return Err(found.error); }
      var rebuilt := Reconstruct(row.core, found.value, row.digest);
      if rebuilt.Err? { return Err(Unreadable(rebuilt.error)); }
      ReconstructedFields(row.core, Join(found.value), row.digest);
      var c := rebuilt.value;
      if c.id != row.checkpointId || RunOf(c) != run || c.snapshot.revision != row.revision { return Err(HeadDiffers); }
      r := Ok(Some(c));
    }
  }

  lemma NothingJoined()
    ensures Join([]) == []
  {
  }

  lemma JoinOne(found: seq<seq<Message>>, messages: seq<Message>)
    ensures Join(found + [messages]) == Join(found) + messages
  {
    JoinConcat(found, [messages]);
    assert [messages][1..] == [];
  }

  /** What the row of a run's head says of its last checkpoint. */
  lemma HeadOfRun(head: Option<HeadRow>, ledger: LedgerTable, chunks: ChunkTable, run: Text, chain: seq<Checkpoint>,
                  blocks: seq<seq<Message>>)
    requires RunFits(head, ledger, chunks, run, chain, blocks)
    ensures chain == [] <==> head.None?
    ensures head.Some? ==> var last, row := chain[|chain| - 1], head.value;
      && RunOf(last) == run && Join(blocks) == last.snapshot.history && row.digest == CheckpointDigest(last)
      && row.core == EncodeCore(last, row.parent) && row.core.id == row.checkpointId && row.core.parent == row.parent
      && row.core.revision == row.revision && row.core.historyCount == row.messageCount
      && row.core.historyDigest == row.historyDigest && row.core.context == last.snapshot.context
  {
    hide Holds, CheckpointDigest;
  }

  /** The blocks a run's rows hold. */
  ghost predicate HoldsBlocks(chunks: ChunkTable, run: Text, row: HeadRow, blocks: seq<seq<Message>>) {
    row.chunkCount == |blocks| && forall i :: 0 <= i < |blocks| ==> HasChunk(chunks, run, row.generation, i, blocks[i])
  }

  lemma StoredBlocks(head: Option<HeadRow>, chunks: ChunkTable, run: Text, chain: seq<Checkpoint>,
                     blocks: seq<seq<Message>>)
    requires HeadFits(head, chain) && ChunksFit(chunks, run, head, blocks, HistoryOf(chain)) && head.Some?
    ensures HoldsBlocks(chunks, run, head.value, blocks) && |Join(blocks)| == head.value.messageCount
  {
  }

  lemma GatherOne(chunks: ChunkTable, run: Text, row: HeadRow, stored: seq<seq<Message>>, i: nat)
    requires HoldsBlocks(chunks, run, row, stored) && i < |stored|
    ensures var key := (run, row.generation, i as int);
      key in chunks && chunks[key] == ChunkRow(|stored[i]|, stored[i]) && 1 <= |stored[i]| <= CHUNK
    ensures stored[..i + 1] == stored[..i] + [stored[i]]
    ensures |Join(stored[..i] + [stored[i]])| == |Join(stored[..i])| + |stored[i]|
  {
    assert HasChunk(chunks, run, row.generation, i, stored[i]);
    JoinConcat(stored[..i], [stored[i]]);
    assert [stored[i]][1..] == [];
  }

  /** Every key a stored commit inserts is new. */
  lemma InsertsAreFree(head: Option<HeadRow>, ledger: LedgerTable, chunks: ChunkTable, run: Text,
                       chain: seq<Checkpoint>,
                       blocks: seq<seq<Message>>, c: DurableCommit)
    requires RunFits(head, ledger, chunks, run, chain, blocks) && ValidCommit(c)
    requires Follows(Head(chain), c)
    ensures HeadFits(head, chain)
    ensures var m := NextManifest(head, c, |EncodedChange(c.change)|);
      forall i :: 0 <= i < |EncodedChange(c.change)| ==> FreeKey(chunks, run, m.generation, m.firstIndex, i)
  {
    var added := |EncodedChange(c.change)|;
    forall i | 0 <= i < added
      ensures FreeKey(chunks, run, NextManifest(head, c, added).generation, NextManifest(head, c, added).firstIndex, i)
    {
      KeysAreNew(chunks, run, head, c, added, i, blocks, HistoryOf(chain));
    }
  }

  /** The head's own ledger row is there. */
  lemma HeadIsInLedger(head: Option<HeadRow>, ledger: LedgerTable, run: Text, chain: seq<Checkpoint>)
    requires HeadFits(head, chain) && Holds(RunStore(Head(chain), LedgerOf(ledger, run)), chain) && head.Some?
    ensures (run, head.value.checkpointId) in ledger
    ensures ledger[(run, head.value.checkpointId)] == LedgerEntry(head.value.revision, head.value.digest)
  {
    var last := chain[|chain| - 1];
    assert InLedger(LedgerOf(ledger, run), last);
    LedgerAt(ledger, run, last.id);
  }

  lemma RowsAnswer(head: Option<HeadRow>, ledger: LedgerTable, chunks: ChunkTable, run: Text, chain: seq<Checkpoint>,
                   blocks: seq<seq<Message>>, c: DurableCommit)
    requires RunFits(head, ledger, chunks, run, chain, blocks)
    ensures var existing := if (run, c.checkpoint.id) in ledger then Some(ledger[(run, c.checkpoint.id)]) else None;
      RowResponse(head, existing, c) == Respond(RunStore(Head(chain), LedgerOf(ledger, run)), c)
  {
    RowsRespond(head, ledger, run, chain, c);
  }
}
