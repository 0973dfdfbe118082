/**
 * The Redis repository of one run (jharness-repository, redis.py): three
 * hashes changed by one script, with every count a decimal text and a hash
 * chain over the chunks, and the loop that settles lost responses.
 */
module RedisStore {
  import opened Wrappers
  import opened Messages
  import opened Digests
  import opened Decimal
  import opened Checkpoints
  import opened Durable
  import opened Codec
  import opened Repository

  /** The SHA-1 chain over chunks, as a term. */
  datatype Link = EmptyChain | ChainStep(previous: Link, count: Text, payload: seq<Message>)

  datatype RedisHead = RedisHead(
    runId: Text, revision: Text, checkpointId: Text, parent: Text, digest: Fingerprint, core: Core, generation: Text,
    chunkCount: Text, messageCount: Text, historyDigest: Digest, chain: Link)

  datatype RedisEntry = RedisEntry(checkpointId: Text, revision: Text, digest: Fingerprint)

  /** The two fields of one stored chunk. */
  datatype ChunkFields = ChunkFields(payload: seq<Message>, count: Text)

  /** Chunks by the texts of their generation and index. */
  type ChunkHash = map<(Text, Text), ChunkFields>

  // ------------------------------------------------------ names and texts

  /** _history_chunk_prefix */
  function ChunkPrefix(generation: Text, index: Text): Text { "g:" + generation + ":c:" + index + ":" }

  lemma {:induction false} DigitsEnd(a: Text, b: Text, x: Text, y: Text)
    requires AllDigits(a) && AllDigits(b) && a + [':'] + x == b + [':'] + y
    ensures a == b && x == y
    decreases |a|
  {
    var left, right := a + [':'] + x, b + [':'] + y;
    assert left[0] == (if a == [] then ':' else a[0]) && right[0] == (if b == [] then ':' else b[0]);
    if a == [] && b == [] {
      assert left[1..] == x && right[1..] == y;
    } else if a != [] && b != [] {
      assert left[0] == a[0] && right[0] == b[0];
      assert left[1..] == a[1..] + [':'] + x && right[1..] == b[1..] + [':'] + y;
      DigitsEnd(a[1..], b[1..], x, y);
    }
  }

  /** Chunk field names never collide. */
  lemma PrefixIsInjective(g: Text, i: Text, h: Text, j: Text)
    requires AllDigits(g) && AllDigits(i) && AllDigits(h) && AllDigits(j) && ChunkPrefix(g, i) == ChunkPrefix(h, j)
    ensures g == h && i == j
  {
    assert ChunkPrefix(g, i)[2..] == g + [':'] + ("c:" + i + ":")
      && ChunkPrefix(h, j)[2..] == h + [':'] + ("c:" + j + ":");
    DigitsEnd(g, h, "c:" + i + ":", "c:" + j + ":");
    assert ("c:" + i + ":")[2..] == i + [':'] + [] && ("c:" + j + ":")[2..] == j + [':'] + [];
    DigitsEnd(i, j, [], []);
  }

  /** decimal_add, on texts of known numbers. */
  method AddTexts(left: Text, right: Text, ghost a: nat, ghost b: nat) returns (sum: Text)
    requires left == DecimalText(a) && right == DecimalText(b)
    ensures sum == DecimalText(a + b)
  {
    DecimalDenotes(a);
    DecimalDenotes(b);
    sum := DecimalAdd(left, right);
    CanonicalIsDecimal(sum);
  }

  /** The number of a text the ledger holds. */
  function NumberOf(text: Text): int { if AllDigits(text) then Value(text) else -1 }

  // ------------------------------------------------------- what a run holds

  /** _history_chain_step over some chunks. */
  function Fold(link: Link, blocks: seq<seq<Message>>): Link
    decreases |blocks|
  {
    if blocks == [] then link else Fold(ChainStep(link, DecimalText(|blocks[0]|), blocks[0]), blocks[1..])
  }

  lemma {:induction false} FoldConcat(link: Link, a: seq<seq<Message>>, b: seq<seq<Message>>)
    ensures Fold(link, a + b) == Fold(Fold(link, a), b)
    decreases |a|
  {
    if a == [] {
      assert a + b == b;
    } else {
      assert (a + b)[1..] == a[1..] + b;
      FoldConcat(ChainStep(link, DecimalText(|a[0]|), a[0]), a[1..], b);
    }
  }

  function ParentText(parent: Option<Text>): Text { if parent.None? then "" else parent.value }

  /** The head fields of a checkpoint kept in some blocks of a generation. */
  function HeadFields(c: Checkpoint, parent: Option<Text>, generation: nat, blocks: seq<seq<Message>>): RedisHead
    requires c.snapshot.revision >= 0
  {
    RedisHead(RunOf(c), DecimalText(c.snapshot.revision), c.id, ParentText(parent), CheckpointDigest(c),
              EncodeCore(c, parent), DecimalText(generation), DecimalText(|blocks|),
              DecimalText(|c.snapshot.history|), HistoryDigest(c.snapshot.history),
              Fold(EmptyChain, blocks))
  }

  predicate HasFields(chunks: ChunkHash, generation: nat, i: nat, block: seq<Message>) {
    (DecimalText(generation), DecimalText(i)) in chunks
    && chunks[(DecimalText(generation), DecimalText(i))] == ChunkFields(block, DecimalText(|block|))
    && 1 <= |block| <= CHUNK
  }

  /** A stored key is of no later generation than the revision, and within its generation's count. */
  predicate SettledKey(key: (Text, Text), revision: int, generation: nat, count: nat) {
    && Canonical(key.0) && Canonical(key.1) && Value(key.0) <= revision
    && (Value(key.0) == generation ==> Value(key.1) < count)
  }

  ghost predicate FieldsFit(chunks: ChunkHash, revision: int, generation: nat, blocks: seq<seq<Message>>) {
    && (forall i :: 0 <= i < |blocks| ==> HasFields(chunks, generation, i, blocks[i]))
    && (forall key <- chunks.Keys :: SettledKey(key, revision, generation, |blocks|))
  }

  /** The ledger entries behind their texts. */
  function EntriesOf(ledger: map<Text, RedisEntry>): map<Text, LedgerEntry> {
    map id | id in ledger :: LedgerEntry(NumberOf(ledger[id].revision), ledger[id].digest)
  }

  ghost predicate EntriesFit(ledger: map<Text, RedisEntry>) {
    forall id <- ledger.Keys :: ledger[id].checkpointId == id && id != "" && Canonical(ledger[id].revision)
  }

  function Last(chain: seq<Checkpoint>): Option<Checkpoint> {
    if chain == [] then None else Some(chain[|chain| - 1])
  }

  /** Ghost knowledge of a run: its chain, and how the head's history is kept. */
  datatype Knowledge = Knowledge(chain: seq<Checkpoint>, parent: Option<Text>, generation: nat,
                                 blocks: seq<seq<Message>>)

  /** The chunk hash holds the blocks of the last checkpoint, and no key past its revision. */
  ghost predicate ChunksKept(chunks: ChunkHash, k: Knowledge) {
    if k.chain == [] then chunks == map[]
    else
      var revision := k.chain[|k.chain| - 1].snapshot.revision;
      k.generation <= revision && FieldsFit(chunks, revision, k.generation, k.blocks)
  }

  ghost predicate HeadKept(head: Option<RedisHead>, chunks: ChunkHash, k: Knowledge) {
    && ChunksKept(chunks, k)
    && if k.chain == [] then head.None?
       else
         var c := k.chain[|k.chain| - 1];
         && ValidCheckpoint(c) && (c.snapshot.revision == 0 <==> k.parent.None?) && k.parent != Some("")
         && k.blocks != [] && Join(k.blocks) == c.snapshot.history
         && head == Some(HeadFields(c, k.parent, k.generation, k.blocks))
  }

  /** The three hashes hold what the chain left. */
  ghost predicate Kept(head: Option<RedisHead>, ledger: map<Text, RedisEntry>, chunks: ChunkHash, run: Text,
                       k: Knowledge) {
    && HeadKept(head, chunks, k) && EntriesFit(ledger) && run != ""
    && Holds(RunStore(Last(k.chain), EntriesOf(ledger)), k.chain)
    && (forall i :: 0 <= i < |k.chain| ==> RunOf(k.chain[i]) == run)
    && (k.chain != [] ==> k.chain[0].snapshot.revision == 0)
  }

  // ------------------------------------------------------------- new chunks

  /** The chunk hash with some blocks added from an index on. */
  function WithBlocks(chunks: ChunkHash, generation: nat, first: nat, added: seq<seq<Message>>): ChunkHash
    decreases |added|
  {
    if added == [] then chunks
    else
      var key := (DecimalText(generation), DecimalText(first));
      WithBlocks(chunks[key := ChunkFields(added[0], DecimalText(|added[0]|))], generation, first + 1, added[1..])
  }

  /** A key of the blocks added from an index on. */
  predicate Added(key: (Text, Text), generation: nat, first: nat, count: nat) {
    Canonical(key.0) && Canonical(key.1) && Value(key.0) == generation && first <= Value(key.1) < first + count
  }

  lemma KeyOf(generation: nat, i: nat, key: (Text, Text))
    ensures key == (DecimalText(generation), DecimalText(i)) <==>
      Canonical(key.0) && Canonical(key.1) && Value(key.0) == generation && Value(key.1) == i
  {
    DecimalDenotes(generation);
    DecimalDenotes(i);
    if Canonical(key.0) { CanonicalIsDecimal(key.0); }
    if Canonical(key.1) { CanonicalIsDecimal(key.1); }
  }

  lemma {:induction false} WithBlocksAt(chunks: ChunkHash, generation: nat, first: nat, added: seq<seq<Message>>,
                                        key: (Text, Text))
    ensures var more := WithBlocks(chunks, generation, first, added);
      && (key in more <==> Added(key, generation, first, |added|) || key in chunks)
      && (!Added(key, generation, first, |added|) && key in chunks ==> more[key] == chunks[key])
      && (Added(key, generation, first, |added|) ==>
            more[key] == ChunkFields(added[Value(key.1) - first], DecimalText(|added[Value(key.1) - first]|)))
    decreases |added|
  {
    if added != [] {
      var here := (DecimalText(generation), DecimalText(first));
      WithBlocksAt(chunks[here := ChunkFields(added[0], DecimalText(|added[0]|))], generation, first + 1, added[1..],
                   key);
      KeyOf(generation, first, key);
    }
  }

  /** Where a commit's chunks go. */
  function NextGeneration(k: Knowledge, c: DurableCommit): nat
    requires c.checkpoint.snapshot.revision >= 0
  {
    if k.chain == [] || c.change.HistoryReplace? then c.checkpoint.snapshot.revision else k.generation
  }

  function FirstIndex(k: Knowledge, c: DurableCommit): nat {
    if k.chain == [] || c.change.HistoryReplace? then 0 else |k.blocks|
  }

  function NextKnowledge(k: Knowledge, c: DurableCommit): Knowledge
    requires c.checkpoint.snapshot.revision >= 0
  {
    Knowledge(k.chain + [c.checkpoint], c.parent, NextGeneration(k, c), NextBlocks(k.blocks, c.change))
  }

  function NextChunks(chunks: ChunkHash, k: Knowledge, c: DurableCommit): ChunkHash
    requires c.checkpoint.snapshot.revision >= 0
  {
    WithBlocks(chunks, NextGeneration(k, c), FirstIndex(k, c), EncodedChange(c.change))
  }

  /** A commit that may follow: the first of a run, or one on its last checkpoint. */
  ghost predicate MayFollow(k: Knowledge, c: DurableCommit) { ValidCommit(c) && Follows(Last(k.chain), c) }

  /** A change of a later revision, which starts a history only in an empty run. */
  predicate Later(k: Knowledge, c: DurableCommit) {
    && c.checkpoint.snapshot.revision >= 0 && (k.chain == [] <==> c.change.InitialHistory?)
    && (k.chain != [] ==> k.chain[|k.chain| - 1].snapshot.revision < c.checkpoint.snapshot.revision)
  }

  /** The field names a commit writes are new. */
  lemma FieldsAreFree(chunks: ChunkHash, k: Knowledge, c: DurableCommit, key: (Text, Text))
    requires ChunksKept(chunks, k) && Later(k, c)
    requires Added(key, NextGeneration(k, c), FirstIndex(k, c), |EncodedChange(c.change)|)
    ensures key !in chunks
  {
    if k.chain != [] {
      assert key in chunks.Keys ==> SettledKey(key, k.chain[|k.chain| - 1].snapshot.revision, k.generation, |k.blocks|);
    }
  }

  lemma OldFieldStays(chunks: ChunkHash, generation: nat, first: nat, added: seq<seq<Message>>, i: nat,
                      block: seq<Message>)
    requires HasFields(chunks, generation, i, block) && i < first
    ensures HasFields(WithBlocks(chunks, generation, first, added), generation, i, block)
  {
    var key := (DecimalText(generation), DecimalText(i));
    WithBlocksAt(chunks, generation, first, added, key);
    KeyOf(generation, i, key);
  }

  lemma NewFieldIsThere(chunks: ChunkHash, generation: nat, first: nat, added: seq<seq<Message>>, i: nat)
    requires i < |added| && 1 <= |added[i]| <= CHUNK
    ensures HasFields(WithBlocks(chunks, generation, first, added), generation, first + i, added[i])
  {
    var key := (DecimalText(generation), DecimalText(first + i));
    WithBlocksAt(chunks, generation, first, added, key);
    KeyOf(generation, first + i, key);
  }

  lemma KeysStaySettled(chunks: ChunkHash, k: Knowledge, c: DurableCommit, key: (Text, Text))
    requires ChunksKept(chunks, k) && Later(k, c) && key in NextChunks(chunks, k, c)
    ensures SettledKey(key, c.checkpoint.snapshot.revision, NextGeneration(k, c), |NextBlocks(k.blocks, c.change)|)
  {
    WithBlocksAt(chunks, NextGeneration(k, c), FirstIndex(k, c), EncodedChange(c.change), key);
    if k.chain != [] {
      assert key in chunks.Keys ==> SettledKey(key, k.chain[|k.chain| - 1].snapshot.revision, k.generation, |k.blocks|);
    }
  }

  lemma FieldsAdvance(chunks: ChunkHash, k: Knowledge, c: DurableCommit)
    requires ChunksKept(chunks, k) && Later(k, c)
    ensures FieldsFit(NextChunks(chunks, k, c), c.checkpoint.snapshot.revision, NextGeneration(k, c),
      NextBlocks(k.blocks, c.change))
  {
    hide WithBlocks;
    var added, next := EncodedChange(c.change), NextBlocks(k.blocks, c.change);
    var generation, first := NextGeneration(k, c), FirstIndex(k, c);
    forall i | 0 <= i < |next| ensures HasFields(NextChunks(chunks, k, c), generation, i, next[i]) {
      if i < first { OldFieldStays(chunks, generation, first, added, i, next[i]); }
      else { NewFieldIsThere(chunks, generation, first, added, i - first); }
    }
    forall key | key in NextChunks(chunks, k, c).Keys
      ensures SettledKey(key, c.checkpoint.snapshot.revision, generation, |next|)
    {
      KeysStaySettled(chunks, k, c, key);
    }
  }

  lemma NextBlocksFit(k: Knowledge, c: DurableCommit)
    requires MayFollow(k, c) && (k.chain == [] ==> c.change.InitialHistory?)
    requires k.chain != [] ==> k.blocks != [] && Join(k.blocks) == k.chain[|k.chain| - 1].snapshot.history
    ensures NextBlocks(k.blocks, c.change) != []
    ensures Join(NextBlocks(k.blocks, c.change)) == c.checkpoint.snapshot.history
  {
    var base := if k.chain == [] then [] else k.chain[|k.chain| - 1].snapshot.history;
    NextBlocksJoin(k.blocks, base, c.change);
    ChangeProduces(c.checkpoint.snapshot.history, c.change, base);
  }

  lemma HeadAdvances(head: Option<RedisHead>, chunks: ChunkHash, k: Knowledge, c: DurableCommit)
    requires HeadKept(head, chunks, k) && MayFollow(k, c)
    ensures var next := NextKnowledge(k, c);
      HeadKept(Some(HeadFields(c.checkpoint, c.parent, next.generation, next.blocks)), NextChunks(chunks, k, c), next)
  {
    hide HeadFields, NextBlocks, NextChunks, ChunksKept, MayFollow, ValidCommit, ValidCheckpoint, Join;
    FollowsLater(head, chunks, k, c);
    ChunksStayKept(chunks, k, c);
    NextBlocksFit(k, c);
  }

  /** A commit that may follow a kept head is of a later revision, on a checkpoint of its own. */
  lemma FollowsLater(head: Option<RedisHead>, chunks: ChunkHash, k: Knowledge, c: DurableCommit)
    requires HeadKept(head, chunks, k) && MayFollow(k, c)
    ensures Later(k, c) && ChunksKept(chunks, k) && ValidCheckpoint(c.checkpoint)
    ensures (c.checkpoint.snapshot.revision == 0 <==> c.parent.None?) && c.parent != Some("")
    ensures k.chain != [] ==> k.blocks != [] && Join(k.blocks) == k.chain[|k.chain| - 1].snapshot.history
  {
    hide HeadFields, FieldsFit, ChunksKept, BoundaryOk, ValidFact, ChangeFits;
  }

  lemma ChunksStayKept(chunks: ChunkHash, k: Knowledge, c: DurableCommit)
    requires ChunksKept(chunks, k) && Later(k, c)
    ensures ChunksKept(NextChunks(chunks, k, c), NextKnowledge(k, c))
  {
    FieldsAdvance(chunks, k, c);
    hide FieldsFit, NextChunks, NextBlocks;
    assert (k.chain + [c.checkpoint])[|k.chain|] == c.checkpoint;
  }

  function EntryOf(c: Checkpoint): RedisEntry
    requires c.snapshot.revision >= 0
  {
    RedisEntry(c.id, DecimalText(c.snapshot.revision), CheckpointDigest(c))
  }

  lemma EntriesAdvance(ledger: map<Text, RedisEntry>, c: Checkpoint)
    requires EntriesFit(ledger) && c.snapshot.revision >= 0 && c.id != ""
    ensures EntriesFit(ledger[c.id := EntryOf(c)])
    ensures EntriesOf(ledger[c.id := EntryOf(c)])
         == EntriesOf(ledger)[c.id := LedgerEntry(c.snapshot.revision, CheckpointDigest(c))]
  {
    DecimalDenotes(c.snapshot.revision);
    hide CheckpointDigest, AllDigits, Value, DecimalText;
  }

  /** A stored commit leaves the hashes of the longer chain. */
  lemma KeptAdvances(head: Option<RedisHead>, ledger: map<Text, RedisEntry>, chunks: ChunkHash, run: Text, k: Knowledge,
                     c: DurableCommit)
    requires Kept(head, ledger, chunks, run, k) && ValidCommit(c) && RunOf(c.checkpoint) == run
    requires Respond(RunStore(Last(k.chain), EntriesOf(ledger)), c) == Stored
    ensures MayFollow(k, c)
    ensures var next := NextKnowledge(k, c);
      Kept(Some(HeadFields(c.checkpoint, c.parent, next.generation, next.blocks)),
           ledger[c.checkpoint.id := EntryOf(c.checkpoint)],
           NextChunks(chunks, k, c), run, next)
  {
    hide HeadKept, HeadFields, EncodeCore, NextBlocks, NextChunks, EntriesOf, EntriesFit, Holds, Respond;
    StoredExtends(RunStore(Last(k.chain), EntriesOf(ledger)), k.chain, c);
    HeadAdvances(head, chunks, k, c);
    EntriesAdvance(ledger, c.checkpoint);
  }

  // ----------------------------------------------------------- reading texts

  /** What the texts of a kept head denote. */
  lemma HeadTexts(head: Option<RedisHead>, chunks: ChunkHash, k: Knowledge)
    requires HeadKept(head, chunks, k) && head.Some?
    ensures k.chain != [] && var c := k.chain[|k.chain| - 1];
      && head.value == HeadFields(c, k.parent, k.generation, k.blocks)
      && Canonical(head.value.revision) && Value(head.value.revision) == c.snapshot.revision
      && (head.value.revision == "0" <==> c.snapshot.revision == 0)
      && Canonical(head.value.generation) && Value(head.value.generation) == k.generation
      && CanonicalPositive(head.value.chunkCount) && CanonicalPositive(head.value.messageCount)
      && (head.value.parent == "" <==> k.parent.None?)
  {
    var c := k.chain[|k.chain| - 1];
    DecimalDenotes(c.snapshot.revision);
    DecimalDenotes(k.generation);
    DecimalDenotes(|k.blocks|);
    DecimalDenotes(|c.snapshot.history|);
    ZeroText();
  }

  lemma ZeroText()
    ensures Canonical("0") && Value("0") == 0 && DecimalText(0) == "0" && Canonical("1") && DecimalText(1) == "1"
  {
    assert "0"[..0] == "" && "1"[..0] == "";
  }

  /** A chunk's count is a positive text below 65. */
  lemma BlockCountText(n: nat)
    requires 1 <= n <= CHUNK
    ensures CanonicalPositive(DecimalText(n)) && Canonical("65") && !DecimalGe(DecimalText(n), "65")
  {
    DecimalDenotes(n);
    ZeroText();
    assert "65"[..1] == "6" && "6"[..0] == "";
    assert Value("6") == 6 && Value("65") == 65;
    DecimalGeIsNumeric(DecimalText(n), "65");
  }

  /** decimal_gte on texts of known numbers. */
  lemma TextGe(a: nat, b: nat)
    ensures DecimalGe(DecimalText(a), DecimalText(b)) <==> a >= b
  {
    DecimalDenotes(a);
    DecimalDenotes(b);
    DecimalGeIsNumeric(DecimalText(a), DecimalText(b));
  }

  /** The first loop of the script: no field exists, and counts and chain go on. */
  method Scan(chunks: ChunkHash, generation: Text, ghost g: nat, first: Text, ghost f: nat, added: seq<seq<Message>>,
              count: Text, ghost n: nat, link: Link)
    returns (free: bool, total: Text, chain: Link)
    requires generation == DecimalText(g) && first == DecimalText(f) && count == DecimalText(n)
    ensures free ==> total == DecimalText(n + |Join(added)|) && chain == Fold(link, added)
    ensures (forall key | Added(key, g, f, |added|) :: key !in chunks) ==> free
  {
    hide DecimalText, Canonical, Value;
    var index := first;
    total, chain := count, link;
    assert added[..0] == [] && added[..|added|] == added;
    for i := 0 to |added|
      invariant index == DecimalText(f + i) && total == DecimalText(n + |Join(added[..i])|)
        && chain == Fold(link, added[..i])
    {
      KeyOf(g, f + i, (generation, index));
      if (generation, index) in chunks { return false, total, chain; }
      ScanOne(added, i, link);
      total := AddTexts(total, DecimalText(|added[i]|), n + |Join(added[..i])|, |added[i]|);
      chain := ChainStep(chain, DecimalText(|added[i]|), added[i]);
      ZeroText();
      index := AddTexts(index, "1", f + i, 1);
    }
    free := true;
  }

  lemma ScanOne(added: seq<seq<Message>>, i: nat, link: Link)
    requires i < |added|
    ensures |Join(added[..i + 1])| == |Join(added[..i])| + |added[i]|
    ensures Fold(link, added[..i + 1]) == ChainStep(Fold(link, added[..i]), DecimalText(|added[i]|), added[i])
  {
    assert added[..i + 1] == added[..i] + [added[i]] && [added[i]][1..] == [];
    JoinConcat(added[..i], [added[i]]);
    FoldConcat(link, added[..i], [added[i]]);
  }

  /** The second loop: the fields are set. */
  method Store(chunks: ChunkHash, generation: Text, ghost g: nat, first: Text, ghost f: nat, added: seq<seq<Message>>)
    returns (stored: ChunkHash)
    requires generation == DecimalText(g) && first == DecimalText(f)
    ensures stored == WithBlocks(chunks, g, f, added)
  {
    stored := chunks;
    var index := first;
    assert added[0..] == added;
    for i := 0 to |added|
      invariant index == DecimalText(f + i)
      invariant WithBlocks(stored, g, f + i, added[i..]) == WithBlocks(chunks, g, f, added)
    {
      assert added[i..][1..] == added[i + 1..];
      stored := stored[(generation, index) := ChunkFields(added[i], DecimalText(|added[i]|))];
      ZeroText();
      index := AddTexts(index, "1", f + i, 1);
    }
  }

  // -------------------------------------------------------------- the scripts

  /** The arguments of the commit script its opening checks look at; a block comes as its count and its payload. */
  datatype Arguments = Arguments(
    runId: Text, checkpointId: Text, revision: Text, expected: Text, kind: Text, baseCount: Text,
    baseDigest: Option<Digest>, historyCount: Text, chunkCount: Text, blocks: seq<(Text, seq<Message>)>)

  function KindText(change: HistoryChange): Text {
    match change
    case InitialHistory(_) => "initial"
    case HistoryAppend(_, _, _) => "append"
    case HistoryReplace(_, _, _) => "replace"
    case HistoryUnchanged(_, _) => "unchanged"
  }

  /** _eval_commit: the arguments of a commit, with its encoded blocks. */
  method EvalArguments(c: DurableCommit, added: seq<seq<Message>>) returns (a: Arguments)
    requires ValidCommit(c)
    ensures a == ArgumentsOf(c, added)
  {
    var blocks: seq<(Text, seq<Message>)> := [];
    for i := 0 to |added|
      invariant |blocks| == i && forall k :: 0 <= k < i ==> blocks[k] == (DecimalText(|added[k]|), added[k])
    {
      blocks := blocks + [(DecimalText(|added[i]|), added[i])];
    }
    assert blocks == BlocksOf(added);
    hide ValidCommit;
    var based := !c.change.InitialHistory?;
    a := Arguments(RunOf(c.checkpoint), c.checkpoint.id, DecimalText(c.checkpoint.snapshot.revision), ExpectedText(c),
                   KindText(c.change), if based then IntText(c.change.baseCount) else "-1",
                   if based then Some(c.change.baseDigest) else None, DecimalText(|c.checkpoint.snapshot.history|),
                   DecimalText(|added|), blocks);
  }

  /** Blocks with their counts. */
  function BlocksOf(added: seq<seq<Message>>): (blocks: seq<(Text, seq<Message>)>)
    ensures |blocks| == |added|
    ensures forall k :: 0 <= k < |added| ==> blocks[k] == (DecimalText(|added[k]|), added[k])
  {
    seq(|added|, k requires 0 <= k < |added| => (DecimalText(|added[k]|), added[k]))
  }

  function ArgumentsOf(c: DurableCommit, added: seq<seq<Message>>): Arguments
    requires ValidCommit(c)
  {
    var based := !c.change.InitialHistory?;
    Arguments(RunOf(c.checkpoint), c.checkpoint.id, DecimalText(c.checkpoint.snapshot.revision), ExpectedText(c),
              KindText(c.change), if based then IntText(c.change.baseCount) else "-1",
              if based then Some(c.change.baseDigest) else None, DecimalText(|c.checkpoint.snapshot.history|),
              DecimalText(|added|), BlocksOf(added))
  }

  /** A block of 1 to 64 messages, by the count it comes with. */
  predicate GoodBlock(block: (Text, seq<Message>)) {
    CanonicalPositive(block.0) && Value(block.0) <= CHUNK && block.1 != []
  }

  predicate GoodBase(a: Arguments) {
    if a.baseCount == "-1" then a.baseDigest.None? else Canonical(a.baseCount) && a.baseDigest.Some?
  }

  /** What the opening checks demand: canonical counts, as many blocks as announced, none of them empty or over-long. */
  predicate GoodArguments(a: Arguments) {
    && a.runId != "" && a.checkpointId != "" && Canonical(a.revision) && (a.expected == "-1" || Canonical(a.expected))
    && CanonicalPositive(a.historyCount) && Canonical(a.chunkCount)
    && (a.kind == "initial" || a.kind == "append" || a.kind == "replace" || a.kind == "unchanged")
    && GoodBase(a) && Value(a.chunkCount) == |a.blocks| && (a.kind == "unchanged" <==> a.blocks == [])
    && (forall i :: 0 <= i < |a.blocks| ==> GoodBlock(a.blocks[i]))
  }

  lemma BlockTextFits(text: Text)
    requires Canonical(text)
    ensures Canonical("65") && (DecimalGe(text, "65") <==> Value(text) > CHUNK)
  {
    BlockCountText(1);
    assert "65"[..1] == "6" && "6"[..0] == "";
    assert Value("6") == 6 && Value("65") == 65;
    DecimalGeIsNumeric(text, "65");
  }

  /** The opening checks of the commit script: whether they accept, and the status they refuse with. */
  method CheckArguments(a: Arguments) returns (good: bool, status: Text)
    ensures good <==> GoodArguments(a)
  {
    if a.runId == "" || a.checkpointId == "" || !Canonical(a.revision) || (a.expected != "-1" && !Canonical(a.expected))
       || !CanonicalPositive(a.historyCount) || !Canonical(a.chunkCount)
       || (a.kind != "initial" && a.kind != "append" && a.kind != "replace" && a.kind != "unchanged") {
      return false, "invalid_arguments";
    }
    if a.baseCount == "-1" {
      if a.baseDigest.Some? { return false, "invalid_arguments"; }
    } else if !Canonical(a.baseCount) || a.baseDigest.None? {
      return false, "invalid_arguments";
    }
    if NumberOf(a.chunkCount) != |a.blocks| { return false, "invalid_arguments"; }
    if (a.kind == "unchanged") != (a.blocks == []) { return false, "invalid_history_change"; }
    for i := 0 to |a.blocks|
      invariant forall k :: 0 <= k < i ==> GoodBlock(a.blocks[k])
    {
      var count, payload := a.blocks[i].0, a.blocks[i].1;
      if Canonical(count) { BlockTextFits(count); }
      if !CanonicalPositive(count) || DecimalGe(count, "65") || payload == [] { return false, "invalid_arguments"; }
    }
    good, status := true, "";
  }

  /** The checks accept whatever the encoder hands over. */
  lemma EncodedIsGood(c: DurableCommit)
    requires ValidCommit(c)
    ensures GoodArguments(ArgumentsOf(c, EncodedChange(c.change)))
  {
    var added := EncodedChange(c.change);
    var a := ArgumentsOf(c, added);
    DecimalDenotes(c.checkpoint.snapshot.revision);
    DecimalDenotes(|c.checkpoint.snapshot.history|);
    DecimalDenotes(|added|);
    ZeroText();
    if c.checkpoint.snapshot.revision > 0 {
      DecimalDenotes(c.checkpoint.snapshot.revision - 1);
      DecimalDenotes(c.change.baseCount);
      assert Canonical(a.baseCount) && a.baseCount[0] != '-';
    }
    forall i | 0 <= i < |a.blocks| ensures GoodBlock(a.blocks[i]) { DecimalDenotes(|added[i]|); }
  }

  /** A script's status: an answer, nothing known of the commit, or data that does not fit together. */
  datatype Script = Says(response: Response) | IsNew | Corrupt(status: Text)

  class RedisRun {
    const run: Text
    var head: Option<RedisHead>
    var ledger: map<Text, RedisEntry>
    var chunks: ChunkHash
    ghost var known: Knowledge

    ghost predicate Valid()
      reads this
    {
      Kept(head, ledger, chunks, run, known)
    }

    /** The whole-checkpoint store the three hashes stand for. */
    ghost function View(): RunStore
      reads this
    {
      RunStore(Last(known.chain), EntriesOf(ledger))
    }

    constructor (r: Text)
      requires r != ""
      ensures Valid() && run == r && known.chain == [] && View() == EMPTY_STORE
    {
      run := r;
      head, ledger, chunks := None, map[], map[];
      known := Knowledge([], None, 0, []);
    }

    /** read_head: its checks never fail. */
    method ReadHead() returns (ok: bool)
      requires Valid()
      ensures ok
    {
      if head.None? { return true; }
      var h := head.value;
      HeadTexts(head, chunks, known);
      HeadLinked(head, ledger, chunks, run, known);
      if h.runId == "" || h.checkpointId == "" || !Canonical(h.revision) || !Canonical(h.generation)
         || !CanonicalPositive(h.chunkCount) || !CanonicalPositive(h.messageCount)
         || (h.revision == "0" && h.parent != "") || (h.revision != "0" && h.parent == "") {
        return false;
      }
      if h.checkpointId !in ledger || ledger[h.checkpointId] != RedisEntry(h.checkpointId, h.revision, h.digest) {
        return false;
      }
      ok := true;
    }

    /** The probe script, with which the commit script also begins. */
    method Probe(c: DurableCommit) returns (s: Script)
      requires Valid() && ValidCommit(c) && RunOf(c.checkpoint) == run
      ensures s == ProbeAnswer(View(), c)
    {
      hide ValidCommit, Kept, HeadKept, HeadFields;
      var ok := ReadHead();
      if !ok { return Corrupt("head_corrupt"); }
      ProbeFacts(head, ledger, chunks, run, known, c);
      if head.None? && (ledger != map[] || chunks != map[]) { return Corrupt("state_corrupt"); }
      if head.Some? && head.value.runId != run { return Corrupt("run_hash_collision"); }
      var id, digest := c.checkpoint.id, CheckpointDigest(c.checkpoint);
      var revision := DecimalText(c.checkpoint.snapshot.revision);
      if id in ledger {
        var stored := ledger[id];
        if stored.checkpointId == "" || !Canonical(stored.revision) { return Corrupt("ledger_corrupt"); }
        if stored.checkpointId != id { return Corrupt("id_hash_collision"); }
        if stored.revision != revision || stored.digest != digest { return Says(Refused(ReusedId)); }
        if head.None? || !DecimalGe(head.value.revision, stored.revision) { return Corrupt("ledger_corrupt"); }
        if head.value.revision == stored.revision
           && (head.value.checkpointId != stored.checkpointId || head.value.digest != stored.digest) {
          return Corrupt("ledger_corrupt");
        }
        return Says(Known);
      }
      var actual := if head.None? then "-1" else head.value.revision;
      if actual != ExpectedText(c) { return Says(Conflict(ExpectedRevision(c), ActualOf(head))); }
      s := IsNew;
    }

    /** The commit script on a commit nothing is known of: its base, and the first chunk of what is kept. */
    method CheckBase(c: DurableCommit) returns (s: Script)
      requires Valid() && ValidCommit(c) && RunOf(c.checkpoint) == run && ProbeAnswer(View(), c) == IsNew
      ensures s == Says(Respond(View(), c))
    {
      hide ValidCommit, Kept, HeadKept, HeadFields, BasedOn;
      KeptHead(head, ledger, chunks, run, known);
      RevisionIsNatural(c);
      if head.None? {
        FirstFacts(head, chunks, known, c);
        if c.checkpoint.snapshot.revision != 0 || !c.change.InitialHistory? || c.parent.Some? {
          return Says(Refused(BadFirstBase));
        }
        return Says(Stored);
      }
      var h := head.value;
      BaseFacts(head, chunks, known, c);
      ZeroText();
      var next := AddTexts(h.revision, "1", c.checkpoint.snapshot.revision - 1, 1);
      if DecimalText(c.checkpoint.snapshot.revision) != next { return Corrupt("invalid_arguments"); }
      if ParentText(c.parent) != h.checkpointId { return Says(Refused(WrongParent)); }
      if !BaseMatches(h, c.change) { return Says(Refused(WrongBase)); }
      var anchor := (h.generation, "0");
      if anchor !in chunks || !CanonicalPositive(chunks[anchor].count) || DecimalGe(chunks[anchor].count, "65")
         || !DecimalGe(h.messageCount, chunks[anchor].count) {
        return Corrupt("state_corrupt");
      }
      if c.change.HistoryUnchanged? && !UnchangedMatches(h, c.checkpoint) { return Corrupt("invalid_history_change"); }
      s := Says(Stored);
    }

    /** The loops of the commit script: the chunks are counted, chained and written, beside the next head. */
    method Extend(c: DurableCommit) returns (s: Script, next: RedisHead, stored: ChunkHash)
      requires Valid() && ValidCommit(c) && RunOf(c.checkpoint) == run && MayFollow(known, c)
      requires known.chain == [] ==> c.change.InitialHistory?
      ensures s == Says(Stored) && stored == NextChunks(chunks, known, c)
      ensures next == HeadFields(c.checkpoint, c.parent, NextGeneration(known, c), NextBlocks(known.blocks, c.change))
    {
      hide ValidCommit, Kept, HeadKept, ChunksKept, Later, MayFollow, Respond, EncodedChange, WithBlocks, NextBlocks;
      hide EncodeCore, CheckpointDigest, NextGeneration, FirstIndex, CountBefore;
      var added := EncodeHistoryChange(c.change);
      WriteFacts(head, ledger, chunks, run, known, c);
      ghost var g, f, n := NextGeneration(known, c), FirstIndex(known, c), CountBefore(known, c);
      NextBlocksFit(known, c);
      LoopFacts(known, c);
      FieldsFree(chunks, known, c);
      var generation, first, count, link := StartOf(c, g, f, n);
      var total := AddTexts(first, DecimalText(|added|), f, |added|);
      var free, messages, chain := Scan(chunks, generation, g, first, f, added, count, n, link);
      stored := Store(chunks, generation, g, first, f, added);
      var revision, history := DecimalText(c.checkpoint.snapshot.revision), c.checkpoint.snapshot.history;
      next := RedisHead(run, revision, c.checkpoint.id, ParentText(c.parent), CheckpointDigest(c.checkpoint),
                        EncodeCore(c.checkpoint, c.parent), generation, total, messages, HistoryDigest(history), chain);
      s := if !free then Corrupt("state_corrupt")
           else if messages != DecimalText(|history|) then Corrupt("invalid_history_change")
           else Says(Stored);
    }

    /** Where the loops start: after the kept chunks, or from nothing. */
    method StartOf(c: DurableCommit, ghost g: nat, ghost f: nat, ghost n: nat)
      returns (generation: Text, first: Text, count: Text, link: Link)
      requires Valid() && c.checkpoint.snapshot.revision >= 0
      requires g == NextGeneration(known, c) && f == FirstIndex(known, c) && n == CountBefore(known, c)
      ensures generation == DecimalText(g) && first == DecimalText(f) && count == DecimalText(n)
      ensures link == if known.chain == [] || c.change.HistoryReplace? then EmptyChain
        else Fold(EmptyChain, known.blocks)
    {
      hide Holds, EntriesOf, EntriesFit, HeadFields, ValidCheckpoint;
      if head.None? || c.change.HistoryReplace? {
        ZeroText();
        return DecimalText(c.checkpoint.snapshot.revision), "0", "0", EmptyChain;
      }
      LastFields(head, chunks, known);
      return head.value.generation, head.value.chunkCount, head.value.messageCount, head.value.chain;
    }

    /** The writes of the commit script. */
    method Write(c: DurableCommit) returns (s: Script)
      requires Valid() && ValidCommit(c) && RunOf(c.checkpoint) == run && Respond(View(), c) == Stored
      modifies this
      ensures Valid() && s == Says(Stored) && View() == After(old(View()), c)
      ensures known.chain == old(known.chain) + [c.checkpoint]
    {
      hide ValidCommit, Kept, HeadFields, Respond, EntriesOf, NextChunks, MayFollow, NextBlocks;
      WriteFacts(head, ledger, chunks, run, known, c);
      KeptAdvances(head, ledger, chunks, run, known, c);
      EntriesAfter(ledger, c.checkpoint, run, head, chunks, known);
      var next: RedisHead, stored: ChunkHash;
      s, next, stored := Extend(c);
      chunks := stored;
      ledger := ledger[c.checkpoint.id := EntryOf(c.checkpoint)];
      head := Some(next);
      known := NextKnowledge(known, c);
    }

    /**
     * The commit script: it answers and moves as the abstract repository that
     * keeps whole checkpoints, and no corruption status is reachable.
     */
    method CommitScript(c: DurableCommit) returns (s: Script)
      requires Valid() && ValidCommit(c) && RunOf(c.checkpoint) == run
      modifies this
      ensures Valid() && s == Says(Respond(old(View()), c)) && View() == After(old(View()), c)
      ensures known.chain == old(known.chain) + (if Respond(old(View()), c) == Stored then [c.checkpoint] else [])
    {
      hide ValidCommit, Kept, EntriesOf, GoodArguments, ArgumentsOf;
      assert known.chain + [] == known.chain;
      var added := EncodeHistoryChange(c.change);
      var arguments := EvalArguments(c, added);
      EncodedIsGood(c);
      var good, status := CheckArguments(arguments);
      if !good { return Corrupt(status); }
      s := Probe(c);
      if s != IsNew { return; }
      s := CheckBase(c);
      if s == Says(Stored) { s := Write(c); }
    }

    /** A chunk's fields are there, and its count is within the size of a chunk and that of its payload. */
    predicate SoundFields(generation: Text, i: nat)
      reads this
    {
      var key := (generation, DecimalText(i));
      key in chunks && 1 <= NumberOf(chunks[key].count) == |chunks[key].payload| <= CHUNK
    }

    /** The payloads of the first chunks of a generation. */
    function StoredAt(generation: Text, n: nat): (found: seq<seq<Message>>)
      reads this
      ensures |found| == n
    {
      if n == 0 then []
      else
        var key := (generation, DecimalText(n - 1));
        StoredAt(generation, n - 1) + [if key in chunks then chunks[key].payload else []]
    }

    /** How many chunks a head counts. */
    function Counted(h: RedisHead): nat { if NumberOf(h.chunkCount) < 0 then 0 else NumberOf(h.chunkCount) }

    predicate Complete(h: RedisHead)
      reads this
    {
      forall i: nat :: i < Counted(h) ==> SoundFields(h.generation, i)
    }

    /** What clients left is complete, and holds the blocks of the head's history. */
    lemma RunIsComplete()
      requires Valid() && head.Some?
      ensures Complete(head.value) && StoredAt(head.value.generation, Counted(head.value)) == known.blocks
      ensures head.value.chain == Fold(EmptyChain, known.blocks)
    {
      hide Kept, HeadKept, HeadFields, ValidCheckpoint, Fold;
      KeptHead(head, ledger, chunks, run, known);
      StoredFields(head, chunks, known);
      forall i: nat | i < |known.blocks| ensures SoundFields(head.value.generation, i) {
        assert HasFields(chunks, known.generation, i, known.blocks[i]);
        DecimalDenotes(|known.blocks[i]|);
      }
      BlocksAreStored(|known.blocks|);
      assert known.blocks[..|known.blocks|] == known.blocks;
    }

    lemma {:induction false} BlocksAreStored(n: nat)
      requires n <= |known.blocks|
      requires forall i :: 0 <= i < |known.blocks| ==> HasFields(chunks, known.generation, i, known.blocks[i])
      ensures StoredAt(DecimalText(known.generation), n) == known.blocks[..n]
    {
      hide DecimalText;
      if n > 0 {
        BlocksAreStored(n - 1);
        assert HasFields(chunks, known.generation, n - 1, known.blocks[n - 1]);
        assert known.blocks[..n] == known.blocks[..n - 1] + [known.blocks[n - 1]];
      }
    }

    /**
     * _read_redis_history, whatever the hashes hold: batches of 128 chunks, with
     * their counts and their chain, read exactly when they are complete.
     */
    method ReadHistory(h: RedisHead) returns (r: Result<(seq<seq<Message>>, int, Link), ReadError>)
      ensures r.Ok? <==> Complete(h)
      ensures r.Ok? ==> var found := StoredAt(h.generation, Counted(h));
        r == Ok((found, |Join(found)|, Fold(EmptyChain, found)))
      ensures Valid() && head == Some(h) ==> r == Ok((known.blocks, |Join(known.blocks)|, h.chain))
    {
      hide Kept, HeadKept, HeadFields, ValidCheckpoint, Fold, Join, DecimalText, NumberOf;
      if Valid() && head == Some(h) { RunIsComplete(); }
      var found: seq<seq<Message>>, total: int, link: Link := [], 0, EmptyChain;
      var count, start := NumberOf(h.chunkCount), 0;
      NothingGathered();
      while start < count
        invariant start == |found| <= Counted(h) && found == StoredAt(h.generation, |found|)
        invariant forall i: nat :: i < |found| ==> SoundFields(h.generation, i)
        invariant total == |Join(found)| && link == Fold(EmptyChain, found)
        decreases count - start
      {
        var stop := if count < start + 128 then count else start + 128;
        while |found| < stop
          invariant start <= |found| <= stop && found == StoredAt(h.generation, |found|)
          invariant forall i: nat :: i < |found| ==> SoundFields(h.generation, i)
          invariant total == |Join(found)| && link == Fold(EmptyChain, found)
          decreases stop - |found|
        {
          ghost var sound := SoundFields(h.generation, |found|);
          var key := (h.generation, DecimalText(|found|));
          if key !in chunks { return Err(MissingChunk); }
          var size := NumberOf(chunks[key].count);
          if size <= 0 || size > CHUNK || size != |chunks[key].payload| { return Err(BadCount); }
          GatherOne(found, chunks[key].payload);
          total := total + size;
          link := ChainStep(link, DecimalText(size), chunks[key].payload);
          found := found + [chunks[key].payload];
        }
        start := stop;
      }
      r := Ok((found, total, link));
    }

    /** What a checkpoint that is read has to do with the hashes. */
    predicate ReadFrom(c: Checkpoint)
      reads this
    {
      && head.Some? && Complete(head.value)
      && var h, found := head.value, StoredAt(head.value.generation, Counted(head.value));
        && h.runId == run && RunOf(c) == run && c.id == h.checkpointId
        && h.checkpointId in ledger && ledger[h.checkpointId] == RedisEntry(h.checkpointId, h.revision, h.digest)
        && CheckpointDigest(c) == h.digest && ValidCheckpoint(c) && IntText(c.snapshot.revision) == h.revision
        && c.snapshot.history == Join(found) && IntText(|Join(found)|) == h.messageCount
        && Fold(EmptyChain, found) == h.chain && c.snapshot.context == h.core.context
        && c.snapshot.metrics == h.core.metrics && c.fact == h.core.fact && h.core.historyDigest == h.historyDigest
    }

    /**
     * get_head, whatever the hashes hold: a checkpoint it reads has the id,
     * revision and digest of the head and of its ledger entry, and the messages
     * of the run's own chunks, whose counts and chain are those of the head. What
     * clients committed is read back as the last checkpoint is reconstructed from
     * its core and its history; the counts and the chain the script kept
     * incrementally are what the reader folds from empty.
     */
    method GetHead() returns (r: Result<Option<Checkpoint>, ReadError>)
      ensures r == Ok(None) <==> head.None?
      ensures r.Ok? && r.value.Some? ==> ReadFrom(r.value.value)
      ensures Valid() && known.chain == [] ==> r == Ok(None)
      ensures Valid() && known.chain != [] ==> ReadsAs(r, known.chain[|known.chain| - 1], known.parent)
    {
      hide Reconstructed, ValidCheckpoint, Kept, Fold, Join;
      if Valid() { KeptHead(head, ledger, chunks, run, known); }
      if head.None? { return Ok(None); }
      var h := head.value;
      if Valid() { HeadLinked(head, ledger, chunks, run, known); }
      if h.runId != run || h.core.id != h.checkpointId || ParentText(h.core.parent) != h.parent
         || IntText(h.core.revision) != h.revision || IntText(h.core.historyCount) != h.messageCount
         || h.core.historyDigest != h.historyDigest {
        return Err(BadCore);
      }
      if h.checkpointId !in ledger || ledger[h.checkpointId] != RedisEntry(h.checkpointId, h.revision, h.digest) {
        return Err(LedgerDiffers);
      }
      var read := ReadHistory(h);
      if read.Err? { return Err(read.error); }
      var (found, total, chain) := read.value;
      if IntText(total) != h.messageCount || chain != h.chain { return Err(BadCount); }
      var rebuilt := Reconstruct(h.core, found, h.digest);
      if rebuilt.Err? { return Err(Unreadable(rebuilt.error)); }
      ReconstructedFields(h.core, Join(found), h.digest);
      var c := rebuilt.value;
      if c.id != h.checkpointId || RunOf(c) != run { return Err(HeadDiffers); }
      r := Ok(Some(c));
    }
  }

  /** The head's own ledger entry is there, text for text. */
  lemma HeadLinked(head: Option<RedisHead>, ledger: map<Text, RedisEntry>, chunks: ChunkHash, run: Text, k: Knowledge)
    requires Kept(head, ledger, chunks, run, k) && head.Some?
    ensures head.value.checkpointId in ledger && head.value.runId == run
    ensures ledger[head.value.checkpointId]
      == RedisEntry(head.value.checkpointId, head.value.revision, head.value.digest)
  {
    var c := k.chain[|k.chain| - 1];
    assert InLedger(EntriesOf(ledger), c);
    CanonicalIsDecimal(ledger[c.id].revision);
  }

  /** What the probe should say: everything but whether a new commit fits its parent and base. */
  function ProbeAnswer(store: RunStore, c: DurableCommit): Script {
    if c.checkpoint.id in store.ledger || ActualRevision(store.head) != ExpectedRevision(c) then Says(Respond(store, c))
    else IsNew
  }

  /** _revision_text of the expected revision. */
  function ExpectedText(c: DurableCommit): Text
    requires c.checkpoint.snapshot.revision >= 0
  {
    if c.checkpoint.snapshot.revision == 0 then "-1" else DecimalText(c.checkpoint.snapshot.revision - 1)
  }

  /** The actual revision a conflict reports. */
  function ActualOf(head: Option<RedisHead>): Option<int> {
    if head.None? then None else Some(NumberOf(head.value.revision))
  }

  /** Decimal texts compare as the numbers do, and never equal the text for none. */
  lemma RevisionTexts(a: nat, b: nat)
    ensures DecimalText(a) == DecimalText(b) <==> a == b
    ensures DecimalText(a) != "-1" && NumberOf(DecimalText(a)) == a
  {
    DecimalDenotes(a);
    DecimalDenotes(b);
    assert "-1"[0] == '-' && !IsDigit("-1"[0]);
  }

  /** The revision texts compare as the abstract revisions do. */
  lemma RevisionFacts(head: Option<RedisHead>, chunks: ChunkHash, k: Knowledge, c: DurableCommit)
    requires HeadKept(head, chunks, k) && c.checkpoint.snapshot.revision >= 0
    ensures head.None? <==> k.chain == []
    ensures ActualOf(head) == ActualRevision(Last(k.chain))
    ensures (if head.None? then "-1" else head.value.revision) == ExpectedText(c)
      <==> ActualRevision(Last(k.chain)) == ExpectedRevision(c)
  {
    hide HeadKept, DecimalText, IsDigit, NumberOf;
    HeadRevision(head, chunks, k);
    var wanted := c.checkpoint.snapshot.revision;
    if head.Some? { RevisionTexts(k.chain[|k.chain| - 1].snapshot.revision, wanted); }
    if wanted > 0 { RevisionTexts(wanted - 1, if head.Some? then k.chain[|k.chain| - 1].snapshot.revision else 0); }
  }

  lemma HeadRevision(head: Option<RedisHead>, chunks: ChunkHash, k: Knowledge)
    requires HeadKept(head, chunks, k)
    ensures head.None? <==> k.chain == []
    ensures k.chain != [] ==> k.chain[|k.chain| - 1].snapshot.revision >= 0
    ensures k.chain != [] ==> head.value.revision == DecimalText(k.chain[|k.chain| - 1].snapshot.revision)
  {
    hide ChunksKept, EncodeCore, CheckpointDigest, DecimalText, BoundaryOk, ValidFact, Fold, Join;
  }

  /** The facts the probe's comparisons rest on. */
  lemma ProbeFacts(head: Option<RedisHead>, ledger: map<Text, RedisEntry>, chunks: ChunkHash, run: Text, k: Knowledge,
                   c: DurableCommit)
    requires Kept(head, ledger, chunks, run, k) && ValidCommit(c)
    ensures c.checkpoint.snapshot.revision >= 0 && c.checkpoint.id != ""
    ensures head.None? ==> ledger == map[] && chunks == map[]
    ensures head.Some? ==> head.value.runId == run
    ensures ActualOf(head) == ActualRevision(Last(k.chain))
    ensures (if head.None? then "-1" else head.value.revision) == ExpectedText(c)
      <==> ActualRevision(Last(k.chain)) == ExpectedRevision(c)
    ensures c.checkpoint.id in ledger ==>
      StoredFacts(head, ledger[c.checkpoint.id], RunStore(Last(k.chain), EntriesOf(ledger)), c)
  {
    hide HeadKept, HeadFields, Holds, StoredFacts, Respond, EntriesFit, EntriesOf, ChangeFits, ActualRevision,
      ExpectedText;
    if head.None? { EmptyHashes(head, ledger, chunks, run, k); } else { HeadLinked(head, ledger, chunks, run, k); }
    RevisionFacts(head, chunks, k, c);
    if c.checkpoint.id in ledger { StoredEntryFacts(head, ledger, chunks, run, k, c); }
  }

  lemma EmptyHashes(head: Option<RedisHead>, ledger: map<Text, RedisEntry>, chunks: ChunkHash, run: Text, k: Knowledge)
    requires Kept(head, ledger, chunks, run, k) && head.None?
    ensures ledger == map[] && chunks == map[] && k.chain == []
  {
    forall id ensures id !in ledger { assert id in EntriesOf(ledger).Keys ==> Passed(k.chain, id); }
  }

  lemma StoredEntryFacts(head: Option<RedisHead>, ledger: map<Text, RedisEntry>, chunks: ChunkHash, run: Text,
                         k: Knowledge,
                         c: DurableCommit)
    requires Kept(head, ledger, chunks, run, k) && ValidCommit(c) && c.checkpoint.id in ledger
    ensures StoredFacts(head, ledger[c.checkpoint.id], RunStore(Last(k.chain), EntriesOf(ledger)), c)
  {
    hide ValidCommit, ValidCheckpoint, ChunksKept, FieldsFit, EncodeCore, CheckpointDigest, Join, Fold, DecimalText;
    RevisionIsNatural(c);
    var store, stored := RunStore(Last(k.chain), EntriesOf(ledger)), ledger[c.checkpoint.id];
    KnownIsPassed(store, k.chain, c);
    var i :| 0 <= i < |k.chain| && k.chain[i].id == c.checkpoint.id;
    assert InLedger(store.ledger, k.chain[i]);
    var last := k.chain[|k.chain| - 1];
    HeadRevision(head, chunks, k);
    CanonicalIsDecimal(stored.revision);
    RevisionTexts(Value(stored.revision), c.checkpoint.snapshot.revision);
    RevisionTexts(last.snapshot.revision, Value(stored.revision));
    TextGe(last.snapshot.revision, Value(stored.revision));
  }

  /** What is known of a stored entry when its commit comes again. */
  predicate StoredFacts(head: Option<RedisHead>, stored: RedisEntry, store: RunStore, c: DurableCommit)
    requires c.checkpoint.snapshot.revision >= 0
  {
    var digest, text := CheckpointDigest(c.checkpoint), DecimalText(c.checkpoint.snapshot.revision);
    && stored.checkpointId == c.checkpoint.id && Canonical(stored.revision)
    && (stored.revision == text && stored.digest == digest <==> Respond(store, c) == Known)
    && (stored.revision != text || stored.digest != digest <==> Respond(store, c) == Refused(ReusedId))
    && (Respond(store, c) == Known ==>
          && head.Some? && DecimalGe(head.value.revision, stored.revision)
          && (head.value.revision == stored.revision ==>
                head.value.checkpointId == stored.checkpointId && head.value.digest == stored.digest))
  }

  // --------------------------------------------------- facts of the commit script

  lemma KeptHead(head: Option<RedisHead>, ledger: map<Text, RedisEntry>, chunks: ChunkHash, run: Text, k: Knowledge)
    requires Kept(head, ledger, chunks, run, k)
    ensures HeadKept(head, chunks, k)
  {
  }

  lemma RevisionIsNatural(c: DurableCommit)
    requires ValidCommit(c)
    ensures c.checkpoint.snapshot.revision >= 0
  {
  }

  lemma FirstFacts(head: Option<RedisHead>, chunks: ChunkHash, k: Knowledge, c: DurableCommit)
    requires HeadKept(head, chunks, k) && ValidCommit(c) && head.None? && ExpectedRevision(c).None?
    ensures k.chain == [] && ValidateNew(None, c) == Stored
    ensures c.checkpoint.snapshot.revision == 0 && c.change.InitialHistory? && c.parent.None?
  {
  }

  /** The base a change claims, by count text and digest, is the stored one. */
  predicate BaseMatches(h: RedisHead, change: HistoryChange) {
    !change.InitialHistory? && IntText(change.baseCount) == h.messageCount && change.baseDigest == h.historyDigest
  }

  predicate UnchangedMatches(h: RedisHead, c: Checkpoint) {
    DecimalText(|c.snapshot.history|) == h.messageCount && HistoryDigest(c.snapshot.history) == h.historyDigest
  }

  lemma {:induction false} FirstBlockFits(blocks: seq<seq<Message>>)
    requires blocks != []
    ensures |blocks[0]| <= |Join(blocks)|
  {
  }

  /** The anchor, the first chunk of the current generation, is there and in order. */
  lemma AnchorFacts(head: Option<RedisHead>, chunks: ChunkHash, k: Knowledge)
    requires HeadKept(head, chunks, k) && head.Some?
    ensures var anchor := (head.value.generation, "0");
      && anchor in chunks && CanonicalPositive(chunks[anchor].count) && !DecimalGe(chunks[anchor].count, "65")
      && DecimalGe(head.value.messageCount, chunks[anchor].count)
  {
    ZeroText();
    assert HasFields(chunks, k.generation, 0, k.blocks[0]);
    FirstBlockFits(k.blocks);
    BlockCountText(|k.blocks[0]|);
    TextGe(|k.chain[|k.chain| - 1].snapshot.history|, |k.blocks[0]|);
  }

  lemma ParentTexts(head: RedisHead, last: Checkpoint, c: DurableCommit)
    requires ValidCommit(c) && c.checkpoint.snapshot.revision > 0 && head.checkpointId == last.id && last.id != ""
    ensures ParentText(c.parent) == head.checkpointId <==> c.parent == Some(last.id)
  {
  }

  lemma BaseTexts(head: RedisHead, last: Checkpoint, c: DurableCommit)
    requires ValidCommit(c) && head.messageCount == DecimalText(|last.snapshot.history|)
    requires head.historyDigest == HistoryDigest(last.snapshot.history)
    ensures BaseMatches(head, c.change) <==> BasedOn(c.change, last.snapshot.history)
    ensures BasedOn(c.change, last.snapshot.history) && c.change.HistoryUnchanged?
      ==> UnchangedMatches(head, c.checkpoint)
  {
    if !c.change.InitialHistory? && IntText(c.change.baseCount) == IntText(|last.snapshot.history|) {
      IntTextInjective(c.change.baseCount, |last.snapshot.history|);
    }
  }

  lemma LastFields(head: Option<RedisHead>, chunks: ChunkHash, k: Knowledge)
    requires HeadKept(head, chunks, k) && head.Some?
    ensures k.chain != [] && var last := k.chain[|k.chain| - 1];
      && last.snapshot.revision >= 0 && last.id != "" && head.value.checkpointId == last.id
      && head.value.revision == DecimalText(last.snapshot.revision)
      && head.value.messageCount == DecimalText(|last.snapshot.history|)
      && head.value.historyDigest == HistoryDigest(last.snapshot.history)
      && head.value.generation == DecimalText(k.generation) && head.value.chunkCount == DecimalText(|k.blocks|)
      && head.value.chain == Fold(EmptyChain, k.blocks) && Join(k.blocks) == last.snapshot.history
  {
  }

  lemma BaseFacts(head: Option<RedisHead>, chunks: ChunkHash, k: Knowledge, c: DurableCommit)
    requires HeadKept(head, chunks, k) && ValidCommit(c) && head.Some?
    requires ActualRevision(Last(k.chain)) == ExpectedRevision(c)
    ensures k.chain != [] && c.checkpoint.snapshot.revision > 0
    ensures head.value.revision == DecimalText(c.checkpoint.snapshot.revision - 1)
    ensures var last := k.chain[|k.chain| - 1];
      && (ParentText(c.parent) == head.value.checkpointId <==> c.parent == Some(last.id))
      && (BaseMatches(head.value, c.change) <==> BasedOn(c.change, last.snapshot.history))
      && (BasedOn(c.change, last.snapshot.history) && c.change.HistoryUnchanged?
          ==> UnchangedMatches(head.value, c.checkpoint))
    ensures var anchor := (head.value.generation, "0");
      && anchor in chunks && CanonicalPositive(chunks[anchor].count) && !DecimalGe(chunks[anchor].count, "65")
      && DecimalGe(head.value.messageCount, chunks[anchor].count)
  {
    hide ValidCommit, HeadKept, HeadFields, BasedOn, BaseMatches, UnchangedMatches;
    LastFields(head, chunks, k);
    AnchorFacts(head, chunks, k);
    ParentTexts(head.value, k.chain[|k.chain| - 1], c);
    BaseTexts(head.value, k.chain[|k.chain| - 1], c);
  }

  /** How many messages the current generation has when the commit's chunks are added. */
  function CountBefore(k: Knowledge, c: DurableCommit): nat {
    if k.chain == [] || c.change.HistoryReplace? then 0 else |k.chain[|k.chain| - 1].snapshot.history|
  }

  /** The chain and the counts the first loop ends with are those of the next blocks. */
  lemma LoopFacts(k: Knowledge, c: DurableCommit)
    requires Later(k, c) && Join(NextBlocks(k.blocks, c.change)) == c.checkpoint.snapshot.history
    requires k.chain != [] ==> Join(k.blocks) == k.chain[|k.chain| - 1].snapshot.history
    ensures var added := EncodedChange(c.change);
      var link := if k.chain == [] || c.change.HistoryReplace? then EmptyChain else Fold(EmptyChain, k.blocks);
      && CountBefore(k, c) + |Join(added)| == |c.checkpoint.snapshot.history|
      && Fold(link, added) == Fold(EmptyChain, NextBlocks(k.blocks, c.change))
      && FirstIndex(k, c) + |added| == |NextBlocks(k.blocks, c.change)|
  {
    hide Chunks, Join, Fold, DecimalText;
    NothingFolds(k.blocks);
    if c.change.HistoryAppend? {
      FoldConcat(EmptyChain, k.blocks, EncodedChange(c.change));
      JoinConcat(k.blocks, EncodedChange(c.change));
    }
  }

  lemma NothingFolds(blocks: seq<seq<Message>>)
    ensures Join([]) == [] && Fold(Fold(EmptyChain, blocks), []) == Fold(EmptyChain, blocks)
  {
  }

  /** Everything the writing half of the script needs to know. */
  lemma WriteFacts(head: Option<RedisHead>, ledger: map<Text, RedisEntry>, chunks: ChunkHash, run: Text, k: Knowledge,
                   c: DurableCommit)
    requires Kept(head, ledger, chunks, run, k) && ValidCommit(c)
    ensures c.checkpoint.snapshot.revision >= 0 && HeadKept(head, chunks, k) && EntriesFit(ledger)
      && c.checkpoint.id != ""
    ensures ChunksKept(chunks, k) && (MayFollow(k, c) ==> Later(k, c))
    ensures k.chain != [] ==> k.blocks != [] && Join(k.blocks) == k.chain[|k.chain| - 1].snapshot.history
    ensures Respond(RunStore(Last(k.chain), EntriesOf(ledger)), c) == Stored && k.chain == []
      ==> c.change.InitialHistory?
  {
  }

  lemma FieldsFree(chunks: ChunkHash, k: Knowledge, c: DurableCommit)
    requires ChunksKept(chunks, k) && Later(k, c)
    ensures forall key | Added(key, NextGeneration(k, c), FirstIndex(k, c), |EncodedChange(c.change)|) :: key !in chunks
  {
    hide ChunksKept;
    forall key | Added(key, NextGeneration(k, c), FirstIndex(k, c), |EncodedChange(c.change)|) ensures key !in chunks {
      FieldsAreFree(chunks, k, c, key);
    }
  }

  lemma EntriesAfter(ledger: map<Text, RedisEntry>, c: Checkpoint, run: Text, head: Option<RedisHead>,
                     chunks: ChunkHash,
                     k: Knowledge)
    requires Kept(head, ledger, chunks, run, k) && c.snapshot.revision >= 0 && c.id != ""
    ensures EntriesOf(ledger[c.id := EntryOf(c)])
         == EntriesOf(ledger)[c.id := LedgerEntry(c.snapshot.revision, CheckpointDigest(c))]
  {
    EntriesAdvance(ledger, c);
  }

  // ---------------------------------------------------------- facts of reading

  lemma StoredFields(head: Option<RedisHead>, chunks: ChunkHash, k: Knowledge)
    requires HeadKept(head, chunks, k) && head.Some?
    ensures forall i :: 0 <= i < |k.blocks| ==> HasFields(chunks, k.generation, i, k.blocks[i])
    ensures head.value.generation == DecimalText(k.generation) && NumberOf(head.value.chunkCount) == |k.blocks|
    ensures head.value.chain == Fold(EmptyChain, k.blocks)
  {
    LastFields(head, chunks, k);
    DecimalDenotes(|k.blocks|);
  }

  lemma GatherOne(found: seq<seq<Message>>, block: seq<Message>)
    ensures |Join(found + [block])| == |Join(found)| + |block|
    ensures Fold(EmptyChain, found + [block]) == ChainStep(Fold(EmptyChain, found), DecimalText(|block|), block)
  {
    assert [block][1..] == [];
    JoinConcat(found, [block]);
    FoldConcat(EmptyChain, found, [block]);
  }

  lemma NothingGathered()
    ensures Join([]) == [] && Fold(EmptyChain, []) == EmptyChain
  {
  }
}
