/**
 * The tagged, length-prefixed stream behind every digest (kernel/_digest.py):
 * it is a prefix code, so a stream determines the JSON value, the message and
 * the whole digest term it was written from.
 */
module DigestStream {
  import opened Wrappers
  import opened Messages
  import opened Decimal
  import D = Digests

  /** A byte, or the 32 bytes of a hash, kept as what was hashed: SHA-256 as a free term. */
  datatype Token = Octet(octet: char) | Hash(of: seq<Token>)

  /** One call on the writer. */
  datatype Item =
    | Domain(text: Text)
    | Field(text: Text)
    | NoneItem
    | BoolItem(flag: bool)
    | IntItem(text: Text)
    | FloatItem(text: Text)
    | StrItem(text: Text)
    | BytesItem(hashed: seq<Token>)
    | SeqItem(text: Text)
    | MapItem(text: Text)

  /** Calls in order. */
  datatype Items = End | Then(item: Item, rest: Items)

  // ------------------------------------------------------------ the octets

  function Octets(text: Text): (tokens: seq<Token>)
    ensures |tokens| == |text|
    ensures forall i :: 0 <= i < |text| ==> tokens[i] == Octet(text[i])
  {
    seq(|text|, i requires 0 <= i < |text| => Octet(text[i]))
  }

  /** to_bytes(n, "big") of a number, most significant byte first. */
  function BigEndian(n: nat, width: nat): (text: Text)
    ensures |text| == width
  {
    if width == 0 then [] else BigEndian(n / 256, width - 1) + [(n % 256) as char]
  }

  function Power256(width: nat): nat { if width == 0 then 1 else 256 * Power256(width - 1) }

  lemma {:induction false} BigEndianInjective(a: nat, b: nat, width: nat)
    requires a < Power256(width) && b < Power256(width) && BigEndian(a, width) == BigEndian(b, width)
    ensures a == b
  {
    if width > 0 {
      var x, y := BigEndian(a, width), BigEndian(b, width);
      assert x[..width - 1] == BigEndian(a / 256, width - 1) && y[..width - 1] == BigEndian(b / 256, width - 1);
      assert x[width - 1] == (a % 256) as char && y[width - 1] == (b % 256) as char;
      assert (a % 256) as char as int == (b % 256) as char as int;
      BigEndianInjective(a / 256, b / 256, width - 1);
    }
  }

  /** A length the eight length bytes can hold. */
  predicate Small(text: Text) { |text| < Power256(8) }

  /** _chunk */
  function Chunk(tag: char, text: Text): seq<Token> { [Octet(tag)] + Octets(BigEndian(|text|, 8)) + Octets(text) }

  function Tokens(item: Item): seq<Token> {
    match item
    case Domain(text) => Chunk('d', text)
    case Field(text) => Chunk('k', text)
    case NoneItem => [Octet('n')]
    case BoolItem(flag) => [Octet('b'), Octet(if flag then '1' else '0')]
    case IntItem(text) => Chunk('i', text)
    case FloatItem(text) => Chunk('f', text)
    case StrItem(text) => Chunk('s', text)
    case BytesItem(hashed) => [Octet('x')] + Octets(BigEndian(32, 8)) + [Hash(hashed)]
    case SeqItem(text) => Chunk('q', text)
    case MapItem(text) => Chunk('m', text)
  }

  /** Every chunk's length fits its eight bytes. */
  predicate SmallItem(item: Item) {
    match item
    case NoneItem => true
    case BoolItem(_) => true
    case BytesItem(_) => true
    case _ => Small(item.text)
  }

  lemma OctetsInjective(a: Text, b: Text)
    requires Octets(a) == Octets(b)
    ensures a == b
  {
    forall i | 0 <= i < |a| ensures a[i] == b[i] { assert Octets(a)[i] == Octets(b)[i]; }
  }

  /** A chunk ends where its length says. */
  lemma ChunkIsPrefixCode(tag: char, a: Text, b: Text, x: seq<Token>, y: seq<Token>)
    requires Small(a) && Small(b) && Chunk(tag, a) + x == Chunk(tag, b) + y
    ensures a == b && x == y
  {
    var left, right := Chunk(tag, a) + x, Chunk(tag, b) + y;
    assert left[1..9] == Octets(BigEndian(|a|, 8)) && right[1..9] == Octets(BigEndian(|b|, 8));
    OctetsInjective(BigEndian(|a|, 8), BigEndian(|b|, 8));
    BigEndianInjective(|a|, |b|, 8);
    assert left[9..9 + |a|] == Octets(a) && right[9..9 + |b|] == Octets(b);
    OctetsInjective(a, b);
    assert left[9 + |a|..] == x && right[9 + |b|..] == y;
  }

  function Tag(item: Item): char {
    match item
    case Domain(_) => 'd'
    case Field(_) => 'k'
    case NoneItem => 'n'
    case BoolItem(_) => 'b'
    case IntItem(_) => 'i'
    case FloatItem(_) => 'f'
    case StrItem(_) => 's'
    case BytesItem(_) => 'x'
    case SeqItem(_) => 'q'
    case MapItem(_) => 'm'
  }

  predicate IsChunk(item: Item) { !item.NoneItem? && !item.BoolItem? && !item.BytesItem? }

  lemma TagFirst(item: Item, x: seq<Token>)
    ensures (Tokens(item) + x)[0] == Octet(Tag(item))
    ensures IsChunk(item) ==> Tokens(item) == Chunk(Tag(item), item.text)
  {
  }

  /** Calls on the writer are a prefix code. */
  lemma ItemIsPrefixCode(a: Item, b: Item, x: seq<Token>, y: seq<Token>)
    requires SmallItem(a) && SmallItem(b) && Tokens(a) + x == Tokens(b) + y
    ensures a == b && x == y
  {
    TagFirst(a, x);
    TagFirst(b, y);
    assert Tag(a) == Tag(b);
    if IsChunk(a) {
      ChunkIsPrefixCode(Tag(a), a.text, b.text, x, y);
    } else {
      var n := |Tokens(a)|;
      var left, right := Tokens(a) + x, Tokens(b) + y;
      assert left[n - 1] == right[n - 1];
      assert left[n..] == x && right[n..] == y;
    }
  }

  // ------------------------------------------------------- streams of calls

  function Flat(items: Items): seq<Token> {
    match items case End => [] case Then(item, rest) => Tokens(item) + Flat(rest)
  }

  predicate AllSmall(items: Items) {
    match items case End => true case Then(item, rest) => SmallItem(item) && AllSmall(rest)
  }

  /** A stream determines the calls it was written by. */
  lemma {:induction false} FlatInjective(a: Items, b: Items)
    requires AllSmall(a) && AllSmall(b) && Flat(a) == Flat(b)
    ensures a == b
  {
    match a
    case End => if b.Then? { TagFirst(b.item, Flat(b.rest)); }
    case Then(item, rest) =>
      TagFirst(item, Flat(rest));
      if b.Then? {
        ItemIsPrefixCode(item, b.item, Flat(rest), Flat(b.rest));
        FlatInjective(rest, b.rest);
      }
  }

  // ------------------------------------------------------------ JSON values

  /** DigestWriter.json, before the rest of the calls. */
  function JsonW(v: Json, rest: Items): Items
    decreases v, 1, 0
  {
    match v
    case Null => Then(NoneItem, rest)
    case Bool(flag) => Then(BoolItem(flag), rest)
    case Int(number) => Then(IntItem(IntText(number)), rest)
    case Float(hex) => Then(FloatItem(hex), rest)
    case Str(text) => Then(StrItem(text), rest)
    case Arr(items) => Then(SeqItem(IntText(|items|)), ArrayW(v, 0, rest))
    case Obj(entries) => Then(MapItem(IntText(|entries|)), ObjectW(v, 0, rest))
  }

  function ArrayW(v: Json, i: nat, rest: Items): Items
    requires v.Arr? && i <= |v.items|
    decreases v, 0, |v.items| - i
  {
    if i == |v.items| then rest else JsonW(v.items[i], ArrayW(v, i + 1, rest))
  }

  /** _json_mapping: the entries are in sorted-key order. */
  function ObjectW(v: Json, i: nat, rest: Items): Items
    requires v.Obj? && i <= |v.entries|
    decreases v, 0, |v.entries| - i
  {
    if i == |v.entries| then rest
    else Then(StrItem(v.entries[i].key), JsonW(v.entries[i].value, ObjectW(v, i + 1, rest)))
  }

  /** The calls of a value are a prefix code: whatever follows, they determine the value. */
  lemma {:induction false} JsonInjective(v: Json, w: Json, r: Items, s: Items)
    requires JsonW(v, r) == JsonW(w, s)
    ensures v == w && r == s
    decreases v, 1, 0
  {
    match v
    case Int(number) => IntTextInjective(number, w.number);
    case Arr(items) =>
      IntTextInjective(|items|, |w.items|);
      ArrayInjective(v, w, 0, r, s);
      assert items[0..] == items && w.items[0..] == w.items;
    case Obj(entries) =>
      IntTextInjective(|entries|, |w.entries|);
      ObjectInjective(v, w, 0, r, s);
      assert entries[0..] == entries && w.entries[0..] == w.entries;
    case _ =>
  }

  lemma {:induction false} ArrayInjective(v: Json, w: Json, i: nat, r: Items, s: Items)
    requires v.Arr? && w.Arr? && i <= |v.items| == |w.items| && ArrayW(v, i, r) == ArrayW(w, i, s)
    ensures v.items[i..] == w.items[i..] && r == s
    decreases v, 0, |v.items| - i
  {
    if i < |v.items| {
      JsonInjective(v.items[i], w.items[i], ArrayW(v, i + 1, r), ArrayW(w, i + 1, s));
      ArrayInjective(v, w, i + 1, r, s);
      assert v.items[i..] == [v.items[i]] + v.items[i + 1..] && w.items[i..] == [w.items[i]] + w.items[i + 1..];
    }
  }

  lemma {:induction false} ObjectInjective(v: Json, w: Json, i: nat, r: Items, s: Items)
    requires v.Obj? && w.Obj? && i <= |v.entries| == |w.entries| && ObjectW(v, i, r) == ObjectW(w, i, s)
    ensures v.entries[i..] == w.entries[i..] && r == s
    decreases v, 0, |v.entries| - i
  {
    if i < |v.entries| {
      JsonInjective(v.entries[i].value, w.entries[i].value, ObjectW(v, i + 1, r), ObjectW(w, i + 1, s));
      ObjectInjective(v, w, i + 1, r, s);
      assert v.entries[i] == w.entries[i];
      assert v.entries[i..] == [v.entries[i]] + v.entries[i + 1..]
        && w.entries[i..] == [w.entries[i]] + w.entries[i + 1..];
    }
  }

  // ---------------------------------------------------------- any tail at all

  /** Calls, and then others. */
  function Append(a: Items, b: Items): Items {
    match a case End => b case Then(item, rest) => Then(item, Append(rest, b))
  }

  lemma {:induction false} FlatAppend(a: Items, b: Items)
    ensures Flat(Append(a, b)) == Flat(a) + Flat(b)
  {
    match a
    case End => assert [] + Flat(b) == Flat(b);
    case Then(item, rest) =>
      FlatAppend(rest, b);
      assert Tokens(item) + (Flat(rest) + Flat(b)) == (Tokens(item) + Flat(rest)) + Flat(b);
  }

  lemma {:induction false} JsonAppend(v: Json, r: Items, s: Items)
    ensures JsonW(v, Append(r, s)) == Append(JsonW(v, r), s)
    decreases v, 1, 0
  {
    match v
    case Arr(_) => ArrayAppend(v, 0, r, s);
    case Obj(_) => ObjectAppend(v, 0, r, s);
    case _ =>
  }

  lemma {:induction false} ArrayAppend(v: Json, i: nat, r: Items, s: Items)
    requires v.Arr? && i <= |v.items|
    ensures ArrayW(v, i, Append(r, s)) == Append(ArrayW(v, i, r), s)
    decreases v, 0, |v.items| - i
  {
    if i < |v.items| {
      ArrayAppend(v, i + 1, r, s);
      JsonAppend(v.items[i], ArrayW(v, i + 1, r), s);
    }
  }

  lemma {:induction false} ObjectAppend(v: Json, i: nat, r: Items, s: Items)
    requires v.Obj? && i <= |v.entries|
    ensures ObjectW(v, i, Append(r, s)) == Append(ObjectW(v, i, r), s)
    decreases v, 0, |v.entries| - i
  {
    if i < |v.entries| {
      ObjectAppend(v, i + 1, r, s);
      JsonAppend(v.entries[i].value, ObjectW(v, i + 1, r), s);
    }
  }

  /** What follows a value follows its octets. */
  lemma FlatJson(v: Json, rest: Items)
    ensures Flat(JsonW(v, rest)) == Flat(JsonW(v, End)) + Flat(rest)
  {
    JsonAppend(v, End, rest);
    FlatAppend(JsonW(v, End), rest);
  }

  /** One consists of the calls of the other and some more, whose octets start the other's tail. */
  ghost predicate GoesOn(a: Items, b: Items, x: seq<Token>, y: seq<Token>) {
    exists c :: b == Append(a, c) && x == Flat(c) + y
  }

  lemma GoesOnThen(item: Item, a: Items, b: Items, x: seq<Token>, y: seq<Token>)
    requires GoesOn(a, b, x, y)
    ensures GoesOn(Then(item, a), Then(item, b), x, y)
  {
    hide Flat;
    var c :| b == Append(a, c) && x == Flat(c) + y;
    assert Then(item, b) == Append(Then(item, a), c);
  }

  lemma GoesOnFromEnd(b: Items, x: seq<Token>, y: seq<Token>)
    requires Flat(End) + x == Flat(b) + y
    ensures GoesOn(End, b, x, y)
  {
    assert [] + x == x;
    assert b == Append(End, b);
  }

  /** Of two streams with tails that come to the same, one goes on where the other ends. */
  lemma {:induction false} OneGoesOn(a: Items, b: Items, x: seq<Token>, y: seq<Token>)
    requires AllSmall(a) && AllSmall(b) && Flat(a) + x == Flat(b) + y
    ensures GoesOn(a, b, x, y) || GoesOn(b, a, y, x)
  {
    hide Tokens, GoesOn, SmallItem;
    if a.End? {
      GoesOnFromEnd(b, x, y);
    } else if b.End? {
      GoesOnFromEnd(a, y, x);
    } else {
      assert (Tokens(a.item) + Flat(a.rest)) + x == Tokens(a.item) + (Flat(a.rest) + x);
      assert (Tokens(b.item) + Flat(b.rest)) + y == Tokens(b.item) + (Flat(b.rest) + y);
      ItemIsPrefixCode(a.item, b.item, Flat(a.rest) + x, Flat(b.rest) + y);
      OneGoesOn(a.rest, b.rest, x, y);
      if GoesOn(a.rest, b.rest, x, y) { GoesOnThen(a.item, a.rest, b.rest, x, y); }
      else { GoesOnThen(a.item, b.rest, a.rest, y, x); }
    }
  }

  /** JSON values are a prefix code: two of them with one stream are equal, whatever bytes follow each. */
  lemma JsonStreamsDecode(v: Json, w: Json, x: seq<Token>, y: seq<Token>)
    requires AllSmall(JsonW(v, End)) && AllSmall(JsonW(w, End))
    requires Flat(JsonW(v, End)) + x == Flat(JsonW(w, End)) + y
    ensures v == w && x == y
  {
    hide JsonW;
    OneGoesOn(JsonW(v, End), JsonW(w, End), x, y);
    if GoesOn(JsonW(v, End), JsonW(w, End), x, y) {
      var c :| JsonW(w, End) == Append(JsonW(v, End), c) && x == Flat(c) + y;
      JsonAppend(v, End, c);
      JsonInjective(v, w, c, End);
    } else {
      var c :| JsonW(v, End) == Append(JsonW(w, End), c) && y == Flat(c) + x;
      JsonAppend(w, End, c);
      JsonInjective(w, v, c, End);
    }
    assert [] + x == x && [] + y == y;
  }

  // -------------------------------------------------------------- messages

  /** write_optional_string */
  function OptionalW(value: Option<Text>, rest: Items): Items {
    Then(match value case None => NoneItem case Some(text) => StrItem(text), rest)
  }

  function OptionalIntW(value: Option<int>, rest: Items): Items {
    Then(match value case None => NoneItem case Some(number) => IntItem(IntText(number)), rest)
  }

  lemma OptionalIntInjective(a: Option<int>, b: Option<int>, r: Items, s: Items)
    requires OptionalIntW(a, r) == OptionalIntW(b, s)
    ensures a == b && r == s
  {
    if a.Some? { IntTextInjective(a.value, b.value); }
  }

  /** A metadata mapping under its field name. */
  function MetadataW(name: Text, metadata: Metadata, rest: Items): Items {
    Then(Field(name), JsonW(Obj(metadata), rest))
  }

  lemma MetadataInjective(name: Text, a: Metadata, b: Metadata, r: Items, s: Items)
    requires MetadataW(name, a, r) == MetadataW(name, b, s)
    ensures a == b && r == s
  {
    JsonInjective(Obj(a), Obj(b), r, s);
  }

  /** _write_artifact */
  function ArtifactW(a: Artifact, rest: Items): Items {
    Then(Field("artifact_ref"), Then(Field("ref"), Then(StrItem(a.ref), Then(Field("media_type"), OptionalW(a.mediaType,
    Then(Field("name"), OptionalW(a.name,
    Then(Field("size_bytes"), OptionalIntW(a.sizeBytes, ArtifactTail(a, rest))))))))))
  }

  function ArtifactTail(a: Artifact, rest: Items): Items {
    Then(Field("sha256"), OptionalW(a.sha256, MetadataW("metadata", a.metadata, rest)))
  }

  lemma ArtifactInjective(a: Artifact, b: Artifact, r: Items, s: Items)
    requires ArtifactW(a, r) == ArtifactW(b, s)
    ensures a == b && r == s
  {
    OptionalIntInjective(a.sizeBytes, b.sizeBytes, ArtifactTail(a, r), ArtifactTail(b, s));
    MetadataInjective("metadata", a.metadata, b.metadata, r, s);
  }

  function OptionalArtifactW(a: Option<Artifact>, rest: Items): Items {
    match a case None => Then(NoneItem, rest) case Some(artifact) => ArtifactW(artifact, rest)
  }

  /** _write_content_part */
  function PartW(p: ContentPart, rest: Items): Items {
    Then(Field("content_part"), Then(Field("type"), Then(StrItem(p.kind), Then(Field("text"), OptionalW(p.text,
    Then(Field("uri"), OptionalW(p.uri, Then(Field("artifact"), OptionalArtifactW(p.artifact, PartTail(p, rest))))))))))
  }

  function PartTail(p: ContentPart, rest: Items): Items {
    Then(Field("media_type"), OptionalW(p.mediaType, Then(Field("name"), OptionalW(p.name,
    MetadataW("data", p.data, MetadataW("metadata", p.metadata, rest))))))
  }

  lemma PartTailInjective(a: ContentPart, b: ContentPart, r: Items, s: Items)
    requires PartTail(a, r) == PartTail(b, s)
    ensures a.mediaType == b.mediaType && a.name == b.name && a.data == b.data && a.metadata == b.metadata && r == s
  {
    MetadataInjective("data", a.data, b.data, MetadataW("metadata", a.metadata, r),
                      MetadataW("metadata", b.metadata, s));
    MetadataInjective("metadata", a.metadata, b.metadata, r, s);
  }

  lemma PartInjective(a: ContentPart, b: ContentPart, r: Items, s: Items)
    requires PartW(a, r) == PartW(b, s)
    ensures a == b && r == s
  {
    if a.artifact.Some? { ArtifactInjective(a.artifact.value, b.artifact.value, PartTail(a, r), PartTail(b, s)); }
    PartTailInjective(a, b, r, s);
  }

  function PartListW(parts: seq<ContentPart>, rest: Items): Items {
    if parts == [] then rest else PartW(parts[0], PartListW(parts[1..], rest))
  }

  /** write_parts */
  function PartsW(parts: seq<ContentPart>, rest: Items): Items {
    Then(SeqItem(IntText(|parts|)), PartListW(parts, rest))
  }

  lemma {:induction false} PartListInjective(a: seq<ContentPart>, b: seq<ContentPart>, r: Items, s: Items)
    requires |a| == |b| && PartListW(a, r) == PartListW(b, s)
    ensures a == b && r == s
    decreases |a|
  {
    if a != [] {
      PartInjective(a[0], b[0], PartListW(a[1..], r), PartListW(b[1..], s));
      PartListInjective(a[1..], b[1..], r, s);
      assert a == [a[0]] + a[1..] && b == [b[0]] + b[1..];
    }
  }

  lemma PartsInjective(a: seq<ContentPart>, b: seq<ContentPart>, r: Items, s: Items)
    requires PartsW(a, r) == PartsW(b, s)
    ensures a == b && r == s
  {
    IntTextInjective(|a|, |b|);
    PartListInjective(a, b, r, s);
  }

  /** write_error */
  function ErrorW(e: ErrorInfo, rest: Items): Items {
    Then(Field("error_info"),
    Then(Field("code"), Then(StrItem(e.code), Then(Field("message"), Then(StrItem(e.message), rest)))))
  }

  function ArgumentsW(arguments: Option<Metadata>, rest: Items): Items {
    match arguments case None => Then(NoneItem, rest) case Some(metadata) => JsonW(Obj(metadata), rest)
  }

  lemma ArgumentsInjective(a: Option<Metadata>, b: Option<Metadata>, r: Items, s: Items)
    requires ArgumentsW(a, r) == ArgumentsW(b, s)
    ensures a == b && r == s
  {
    if a.Some? && b.Some? { JsonInjective(Obj(a.value), Obj(b.value), r, s); }
  }

  /** write_tool_call */
  function CallW(c: ToolCall, rest: Items): Items {
    Then(Field("runtime_tool_call"),
    Then(Field("input_kind"), Then(StrItem(if c.Structured? then "structured" else "freeform"),
    Then(Field("id"), Then(StrItem(c.id), Then(Field("name"), Then(StrItem(c.name), InputW(c, rest))))))))
  }

  function InputW(c: ToolCall, rest: Items): Items {
    match c
    case Structured(_, _, arguments, _, _) => Then(Field("arguments"), ArgumentsW(arguments, RawW(c, rest)))
    case Freeform(_, _, input, metadata) =>
      Then(Field("input"), Then(StrItem(input), MetadataW("metadata", metadata, rest)))
  }

  function RawW(c: ToolCall, rest: Items): Items
    requires c.Structured?
  {
    Then(Field("raw_input"), OptionalW(c.rawInput, MetadataW("metadata", c.metadata, rest)))
  }

  lemma CallInjective(a: ToolCall, b: ToolCall, r: Items, s: Items)
    requires CallW(a, r) == CallW(b, s)
    ensures a == b && r == s
  {
    if a.Structured? { ArgumentsInjective(a.arguments, b.arguments, RawW(a, r), RawW(b, s)); }
    MetadataInjective("metadata", a.metadata, b.metadata, r, s);
  }

  function StatusText(status: ProviderStatus): Text {
    match status
    case InProgress => "in_progress"
    case Finished => "completed"
    case Incomplete => "incomplete"
    case Broken => "failed"
  }

  /** _write_provider_tool_call */
  function ProviderW(c: ProviderCall, rest: Items): Items {
    Then(Field("provider_tool_call"),
    Then(Field("id"), Then(StrItem(c.id), Then(Field("namespace"), Then(StrItem(c.namespace),
    Then(Field("type"), Then(StrItem(c.kind), Then(Field("status"), Then(StrItem(StatusText(c.status)),
    MetadataW("arguments", c.arguments, Then(Field("output"), PartsW(c.output, ProviderTail(c, rest)))))))))))))
  }

  function ProviderTail(c: ProviderCall, rest: Items): Items {
    Then(Field("error"), match c.error
      case None => Then(NoneItem, MetadataW("metadata", c.metadata, rest))
      case Some(error) => ErrorW(error, MetadataW("metadata", c.metadata, rest)))
  }

  lemma StatusInjective(a: ProviderStatus, b: ProviderStatus)
    requires StatusText(a) == StatusText(b)
    ensures a == b
  {
    assert |StatusText(InProgress)| == 11 && |StatusText(Finished)| == 9 && |StatusText(Incomplete)| == 10
        && |StatusText(Broken)| == 6;
  }

  lemma ProviderInjective(a: ProviderCall, b: ProviderCall, r: Items, s: Items)
    requires ProviderW(a, r) == ProviderW(b, s)
    ensures a == b && r == s
  {
    StatusInjective(a.status, b.status);
    MetadataInjective("arguments", a.arguments, b.arguments,
                      Then(Field("output"), PartsW(a.output, ProviderTail(a, r))),
                      Then(Field("output"), PartsW(b.output, ProviderTail(b, s))));
    PartsInjective(a.output, b.output, ProviderTail(a, r), ProviderTail(b, s));
    MetadataInjective("metadata", a.metadata, b.metadata, r, s);
  }

  function OutputW(item: OutputItem, rest: Items): Items {
    match item
    case Content(part) => PartW(part, rest)
    case Runtime(call) => CallW(call, rest)
    case Provider(provided) => ProviderW(provided, rest)
  }

  lemma FieldNames()
    ensures "content_part" != "runtime_tool_call" && "content_part" != "provider_tool_call"
    ensures "runtime_tool_call" != "provider_tool_call" && "structured" != "freeform"
  {
    assert |"content_part"| == 12 && |"runtime_tool_call"| == 17 && |"provider_tool_call"| == 18;
  }

  lemma OutputInjective(a: OutputItem, b: OutputItem, r: Items, s: Items)
    requires OutputW(a, r) == OutputW(b, s)
    ensures a == b && r == s
  {
    FieldNames();
    match a
    case Content(part) => PartInjective(part, b.part, r, s);
    case Runtime(call) => CallInjective(call, b.call, r, s);
    case Provider(provided) => ProviderInjective(provided, b.provided, r, s);
  }

  function OutputListW(output: seq<OutputItem>, rest: Items): Items {
    if output == [] then rest else OutputW(output[0], OutputListW(output[1..], rest))
  }

  lemma {:induction false} OutputListInjective(a: seq<OutputItem>, b: seq<OutputItem>, r: Items, s: Items)
    requires |a| == |b| && OutputListW(a, r) == OutputListW(b, s)
    ensures a == b && r == s
    decreases |a|
  {
    if a != [] {
      OutputInjective(a[0], b[0], OutputListW(a[1..], r), OutputListW(b[1..], s));
      OutputListInjective(a[1..], b[1..], r, s);
      assert a == [a[0]] + a[1..] && b == [b[0]] + b[1..];
    }
  }

  /** _write_optional_task */
  function TaskW(task: Option<TaskRef>, rest: Items): Items {
    match task
    case None => Then(NoneItem, rest)
    case Some(t) =>
      Then(Field("task_ref"), Then(Field("id"), Then(StrItem(t.id), Then(Field("status"), Then(StrItem(t.status),
      MetadataW("metadata", t.metadata, rest))))))
  }

  lemma TaskInjective(a: Option<TaskRef>, b: Option<TaskRef>, r: Items, s: Items)
    requires TaskW(a, r) == TaskW(b, s)
    ensures a == b && r == s
  {
    if a.Some? && b.Some? { MetadataInjective("metadata", a.value.metadata, b.value.metadata, r, s); }
  }

  function KindText(kind: OutcomeKind): Text {
    match kind case Success => "success" case Failure => "failure" case Accepted => "accepted" case Waiting => "waiting"
  }

  lemma KindInjective(a: OutcomeKind, b: OutcomeKind)
    requires KindText(a) == KindText(b)
    ensures a == b
  {
    assert KindText(a)[0] == KindText(b)[0];
    assert "success"[0] == 's' && "failure"[0] == 'f' && "accepted"[0] == 'a' && "waiting"[0] == 'w';
  }

  /** _write_tool_outcome */
  function OutcomeW(o: ToolOutcome, rest: Items): Items {
    Then(Field("tool_outcome"), Then(Field("kind"), Then(StrItem(KindText(o.Kind())), Then(Field("parts"),
    PartsW(o.parts, Then(Field("structured_content"), JsonW(o.structured, OutcomeTail(o, rest))))))))
  }

  function OutcomeTail(o: ToolOutcome, rest: Items): Items {
    match o
    case SuccessOutcome(_, _) => rest
    case FailureOutcome(_, _, error) => Then(Field("error"), ErrorW(error, rest))
    case AcceptedOutcome(_, _, id, task) =>
      Then(Field("correlation_id"), Then(StrItem(id), Then(Field("task"), TaskW(task, rest))))
    case WaitingOutcome(_, _, task) => Then(Field("task"), TaskW(task, rest))
  }

  lemma OutcomeInjective(a: ToolOutcome, b: ToolOutcome, r: Items, s: Items)
    requires OutcomeW(a, r) == OutcomeW(b, s)
    ensures a == b && r == s
  {
    KindInjective(a.Kind(), b.Kind());
    PartsInjective(a.parts, b.parts, Then(Field("structured_content"), JsonW(a.structured, OutcomeTail(a, r))),
                   Then(Field("structured_content"), JsonW(b.structured, OutcomeTail(b, s))));
    JsonInjective(a.structured, b.structured, OutcomeTail(a, r), OutcomeTail(b, s));
    match a
    case AcceptedOutcome(_, _, _, task) => TaskInjective(task, b.task, r, s);
    case WaitingOutcome(_, _, task) => TaskInjective(task, b.task, r, s);
    case _ =>
  }

  function RoleText(role: Role): Text {
    match role
    case System => "system"
    case User => "user"
    case Assistant => "assistant"
    case Tool => "tool"
    case External => "external"
  }

  lemma RoleInjective(a: Role, b: Role)
    requires RoleText(a) == RoleText(b)
    ensures a == b
  {
    assert RoleText(a)[0] == RoleText(b)[0];
    assert "system"[0] == 's' && "user"[0] == 'u' && "assistant"[0] == 'a' && "tool"[0] == 't' && "external"[0] == 'e';
  }

  /** write_message */
  function MessageW(m: Message, rest: Items): Items {
    Then(Field("role"), Then(StrItem(RoleText(m.role)), Then(Field("parts"), PartsW(m.parts, OutputsW(m, rest)))))
  }

  function OutputsW(m: Message, rest: Items): Items {
    Then(Field("output"), Then(SeqItem(IntText(|m.output|)), OutputListW(m.output, LinkW(m, rest))))
  }

  function LinkW(m: Message, rest: Items): Items {
    Then(Field("tool_call_id"), OptionalW(m.toolCallId, Then(Field("outcome"), match m.outcome
      case None => Then(NoneItem, MetadataW("metadata", m.metadata, rest))
      case Some(outcome) => OutcomeW(outcome, MetadataW("metadata", m.metadata, rest)))))
  }

  lemma LinkInjective(a: Message, b: Message, r: Items, s: Items)
    requires LinkW(a, r) == LinkW(b, s)
    ensures a.toolCallId == b.toolCallId && a.outcome == b.outcome && a.metadata == b.metadata && r == s
  {
    if a.outcome.Some? && b.outcome.Some? {
      OutcomeInjective(a.outcome.value, b.outcome.value, MetadataW("metadata", a.metadata, r),
                       MetadataW("metadata", b.metadata, s));
    }
    MetadataInjective("metadata", a.metadata, b.metadata, r, s);
  }

  /** The calls of a message are a prefix code too. */
  lemma MessageInjective(a: Message, b: Message, r: Items, s: Items)
    requires MessageW(a, r) == MessageW(b, s)
    ensures a == b && r == s
  {
    RoleInjective(a.role, b.role);
    PartsInjective(a.parts, b.parts, OutputsW(a, r), OutputsW(b, s));
    IntTextInjective(|a.output|, |b.output|);
    OutputListInjective(a.output, b.output, LinkW(a, r), LinkW(b, s));
    LinkInjective(a, b, r, s);
  }

  // ------------------------------------------- messages, whatever bytes follow

  lemma AppendTwo(x: Items, s: Items)
    requires x.Then? && x.rest.Then?
    ensures Append(x, s) == Then(x.item, Then(x.rest.item, Append(x.rest.rest, s)))
  {
  }

  predicate FourCalls(x: Items) { x.Then? && x.rest.Then? && x.rest.rest.Then? && x.rest.rest.rest.Then? }

  /** What is left after four calls. */
  function PastFour(x: Items): Items
    requires FourCalls(x)
  {
    x.rest.rest.rest.rest
  }

  lemma AppendFour(x: Items, s: Items)
    requires FourCalls(x)
    ensures Append(x, s) == Then(x.item, Then(x.rest.item, Then(x.rest.rest.item, Then(x.rest.rest.rest.item,
                            Append(PastFour(x), s)))))
  {
    AppendTwo(x, s);
    AppendTwo(x.rest.rest, s);
  }

  lemma MetadataAppend(name: Text, metadata: Metadata, r: Items, s: Items)
    ensures MetadataW(name, metadata, Append(r, s)) == Append(MetadataW(name, metadata, r), s)
  {
    JsonAppend(Obj(metadata), r, s);
  }

  lemma ArtifactAppend(a: Artifact, r: Items, s: Items)
    ensures ArtifactW(a, Append(r, s)) == Append(ArtifactW(a, r), s)
  {
    var x := ArtifactW(a, r);
    AppendFour(x, s);
    AppendFour(PastFour(x), s);
    assert PastFour(PastFour(x)) == OptionalIntW(a.sizeBytes, ArtifactTail(a, r));
    AppendTwo(ArtifactTail(a, r), s);
    MetadataAppend("metadata", a.metadata, r, s);
  }

  lemma PartTailAppend(p: ContentPart, r: Items, s: Items)
    ensures PartTail(p, Append(r, s)) == Append(PartTail(p, r), s)
  {
    AppendFour(PartTail(p, r), s);
    MetadataAppend("data", p.data, MetadataW("metadata", p.metadata, r), s);
    MetadataAppend("metadata", p.metadata, r, s);
  }

  lemma PartAppend(p: ContentPart, r: Items, s: Items)
    ensures PartW(p, Append(r, s)) == Append(PartW(p, r), s)
  {
    var x := PartW(p, r);
    AppendFour(x, s);
    AppendFour(PastFour(x), s);
    PartTailAppend(p, r, s);
    if p.artifact.Some? { ArtifactAppend(p.artifact.value, PartTail(p, r), s); }
  }

  lemma {:induction false} PartListAppend(parts: seq<ContentPart>, r: Items, s: Items)
    ensures PartListW(parts, Append(r, s)) == Append(PartListW(parts, r), s)
    decreases |parts|
  {
    if parts != [] {
      PartListAppend(parts[1..], r, s);
      PartAppend(parts[0], PartListW(parts[1..], r), s);
    }
  }

  lemma PartsAppend(parts: seq<ContentPart>, r: Items, s: Items)
    ensures PartsW(parts, Append(r, s)) == Append(PartsW(parts, r), s)
  {
    PartListAppend(parts, r, s);
  }

  lemma ErrorAppend(e: ErrorInfo, r: Items, s: Items)
    ensures ErrorW(e, Append(r, s)) == Append(ErrorW(e, r), s)
  {
    AppendFour(ErrorW(e, r), s);
  }

  lemma InputAppend(c: ToolCall, r: Items, s: Items)
    ensures InputW(c, Append(r, s)) == Append(InputW(c, r), s)
  {
    MetadataAppend("metadata", c.metadata, r, s);
    match c
    case Structured(_, _, arguments, _, _) =>
      AppendTwo(RawW(c, r), s);
      if arguments.Some? { JsonAppend(Obj(arguments.value), RawW(c, r), s); }
    case Freeform(_, _, _, _) => AppendTwo(InputW(c, r), s);
  }

  lemma CallAppend(c: ToolCall, r: Items, s: Items)
    ensures CallW(c, Append(r, s)) == Append(CallW(c, r), s)
  {
    var x := CallW(c, r);
    AppendFour(x, s);
    AppendTwo(PastFour(x), s);
    InputAppend(c, r, s);
  }

  lemma ProviderTailAppend(c: ProviderCall, r: Items, s: Items)
    ensures ProviderTail(c, Append(r, s)) == Append(ProviderTail(c, r), s)
  {
    MetadataAppend("metadata", c.metadata, r, s);
    if c.error.Some? { ErrorAppend(c.error.value, MetadataW("metadata", c.metadata, r), s); }
  }

  lemma ProviderAppend(c: ProviderCall, r: Items, s: Items)
    ensures ProviderW(c, Append(r, s)) == Append(ProviderW(c, r), s)
  {
    var x := ProviderW(c, r);
    AppendFour(x, s);
    AppendFour(PastFour(x), s);
    MetadataAppend("arguments", c.arguments, Then(Field("output"), PartsW(c.output, ProviderTail(c, r))), s);
    PartsAppend(c.output, ProviderTail(c, r), s);
    ProviderTailAppend(c, r, s);
  }

  lemma {:induction false} OutputListAppend(output: seq<OutputItem>, r: Items, s: Items)
    ensures OutputListW(output, Append(r, s)) == Append(OutputListW(output, r), s)
    decreases |output|
  {
    if output != [] {
      var rest := OutputListW(output[1..], r);
      OutputListAppend(output[1..], r, s);
      match output[0]
      case Content(part) => PartAppend(part, rest, s);
      case Runtime(call) => CallAppend(call, rest, s);
      case Provider(provided) => ProviderAppend(provided, rest, s);
    }
  }

  lemma TaskAppend(task: Option<TaskRef>, r: Items, s: Items)
    ensures TaskW(task, Append(r, s)) == Append(TaskW(task, r), s)
  {
    if task.Some? {
      AppendFour(TaskW(task, r), s);
      MetadataAppend("metadata", task.value.metadata, r, s);
    }
  }

  lemma OutcomeTailAppend(o: ToolOutcome, r: Items, s: Items)
    ensures OutcomeTail(o, Append(r, s)) == Append(OutcomeTail(o, r), s)
  {
    match o
    case SuccessOutcome(_, _) =>
    case FailureOutcome(_, _, error) => ErrorAppend(error, r, s);
    case AcceptedOutcome(_, _, _, task) =>
      AppendTwo(OutcomeTail(o, r), s);
      TaskAppend(task, r, s);
    case WaitingOutcome(_, _, task) => TaskAppend(task, r, s);
  }

  lemma OutcomeAppend(o: ToolOutcome, r: Items, s: Items)
    ensures OutcomeW(o, Append(r, s)) == Append(OutcomeW(o, r), s)
  {
    AppendFour(OutcomeW(o, r), s);
    PartsAppend(o.parts, Then(Field("structured_content"), JsonW(o.structured, OutcomeTail(o, r))), s);
    JsonAppend(o.structured, OutcomeTail(o, r), s);
    OutcomeTailAppend(o, r, s);
  }

  lemma LinkAppend(m: Message, r: Items, s: Items)
    ensures LinkW(m, Append(r, s)) == Append(LinkW(m, r), s)
  {
    AppendTwo(LinkW(m, r), s);
    MetadataAppend("metadata", m.metadata, r, s);
    if m.outcome.Some? { OutcomeAppend(m.outcome.value, MetadataW("metadata", m.metadata, r), s); }
  }

  /** What follows a message follows its calls. */
  lemma MessageAppend(m: Message, r: Items, s: Items)
    ensures MessageW(m, Append(r, s)) == Append(MessageW(m, r), s)
  {
    AppendTwo(MessageW(m, r), s);
    PartsAppend(m.parts, OutputsW(m, r), s);
    AppendTwo(OutputsW(m, r), s);
    OutputListAppend(m.output, LinkW(m, r), s);
    LinkAppend(m, r, s);
  }

  /** Messages are a prefix code: two of them with one stream are equal, whatever bytes follow each. */
  lemma MessageStreamsDecode(a: Message, b: Message, x: seq<Token>, y: seq<Token>)
    requires AllSmall(MessageW(a, End)) && AllSmall(MessageW(b, End))
    requires Flat(MessageW(a, End)) + x == Flat(MessageW(b, End)) + y
    ensures a == b && x == y
  {
    hide MessageW;
    OneGoesOn(MessageW(a, End), MessageW(b, End), x, y);
    if GoesOn(MessageW(a, End), MessageW(b, End), x, y) {
      var c :| MessageW(b, End) == Append(MessageW(a, End), c) && x == Flat(c) + y;
      MessageAppend(a, End, c);
      MessageInjective(a, b, c, End);
    } else {
      var c :| MessageW(a, End) == Append(MessageW(b, End), c) && y == Flat(c) + x;
      MessageAppend(b, End, c);
      MessageInjective(b, a, c, End);
    }
    assert [] + x == x && [] + y == y;
  }

  // --------------------------------------------------------- digest terms

  /** What each digest hashes; an earlier digest enters as its 32 bytes. */
  function Written(d: D.Digest): Items
    decreases d, 0
  {
    match d
    case EmptyHistory => Then(Domain("jharness.kernel.history.empty.v0"), End)
    case HistoryAppend(previous, message) =>
      Then(Domain("jharness.kernel.history.append.v1"), Then(Field("previous"), Then(BytesItem(Flat(Written(previous))),
      Then(Field("message"), MessageW(message, End)))))
    case NoCalls => Then(Domain("jharness.kernel.tool_calls.suffix.empty.v1"), End)
    case CallPrepend(call, suffix) =>
      Then(Domain("jharness.kernel.tool_calls.suffix.prepend.v1"), Then(Field("call"), CallW(call, SuffixW(suffix))))
    case NoIds => Then(Domain("jharness.kernel.tool_call_ids.suffix.empty.v1"), End)
    case IdPrepend(id, suffix) =>
      Then(Domain("jharness.kernel.tool_call_ids.suffix.prepend.v1"),
           Then(Field("call_id"), Then(StrItem(id), SuffixW(suffix))))
  }

  function SuffixW(suffix: D.Digest): Items
    decreases suffix, 1
  {
    Then(Field("suffix"), Then(BytesItem(Flat(Written(suffix))), End))
  }

  /** Every length in the stream of a digest, and of those it is built on, fits its eight bytes. */
  predicate SmallDigest(d: D.Digest) {
    AllSmall(Written(d))
    && match d
       case HistoryAppend(previous, _) => SmallDigest(previous)
       case CallPrepend(_, suffix) => SmallDigest(suffix)
       case IdPrepend(_, suffix) => SmallDigest(suffix)
       case _ => true
  }

  predicate SameShape(a: D.Digest, b: D.Digest) {
    && (a.EmptyHistory? <==> b.EmptyHistory?) && (a.HistoryAppend? <==> b.HistoryAppend?)
    && (a.NoCalls? <==> b.NoCalls?)
    && (a.CallPrepend? <==> b.CallPrepend?) && (a.NoIds? <==> b.NoIds?) && (a.IdPrepend? <==> b.IdPrepend?)
  }

  lemma DomainsDiffer()
    ensures |"jharness.kernel.history.empty.v0"| == 32 && |"jharness.kernel.history.append.v1"| == 33
    ensures |"jharness.kernel.tool_calls.suffix.empty.v1"| == 42
      && |"jharness.kernel.tool_calls.suffix.prepend.v1"| == 44
    ensures |"jharness.kernel.tool_call_ids.suffix.empty.v1"| == 45
      && |"jharness.kernel.tool_call_ids.suffix.prepend.v1"| == 47
  {
  }

  lemma DomainsDecide(a: D.Digest, b: D.Digest)
    requires Written(a) == Written(b)
    ensures SameShape(a, b)
  {
    DomainsDiffer();
    assert Written(a).item.text == Written(b).item.text;
  }

  /**
   * The bytes a digest is made of determine the whole term: the history, the
   * calls or the ids it stands for. With a hash that has no collisions, equal
   * digests are equal terms.
   */
  lemma {:induction false} StreamDeterminesDigest(a: D.Digest, b: D.Digest)
    requires SmallDigest(a) && SmallDigest(b) && Flat(Written(a)) == Flat(Written(b))
    ensures a == b
    decreases a
  {
    hide Flat, AllSmall, MessageW, CallW;
    FlatInjective(Written(a), Written(b));
    DomainsDecide(a, b);
    match a
    case HistoryAppend(previous, message) =>
      MessageInjective(message, b.message, End, End);
      StreamDeterminesDigest(previous, b.previous);
    case CallPrepend(call, suffix) =>
      CallInjective(call, b.call, SuffixW(suffix), SuffixW(b.suffix));
      StreamDeterminesDigest(suffix, b.suffix);
    case IdPrepend(_, suffix) => StreamDeterminesDigest(suffix, b.suffix);
    case _ =>
  }
}
