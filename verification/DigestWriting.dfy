/** The writer behind the digests, as it runs over each kind of value (kernel/_digest.py). */
module DigestWriting {
  import opened Wrappers
  import opened Messages
  import opened Decimal
  import opened DigestStream
  import D = Digests

  lemma Associate(a: seq<Token>, b: seq<Token>, c: seq<Token>)
    ensures a + (b + c) == (a + b) + c
  {
  }

  /** DigestWriter: everything is appended to the one stream that is hashed. */
  class DigestWriter {
    var stream: seq<Token>

    constructor (domain: Text)
      ensures stream == Tokens(Domain(domain))
    {
      stream := [];
      new;
      WriteChunk('d', domain);
    }

    /** _chunk: tag, eight length bytes, value. */
    method WriteChunk(tag: char, value: Text)
      modifies this
      ensures stream == old(stream) + Chunk(tag, value)
    {
      stream := stream + [Octet(tag)];
      stream := stream + Octets(BigEndian(|value|, 8));
      stream := stream + Octets(value);
    }

    /** One call: field, none, boolean, integer, number, string, bytes, sequence or mapping. */
    method Write(item: Item)
      modifies this
      ensures stream == old(stream) + Tokens(item)
    {
      match item
      case Domain(text) => WriteChunk('d', text);
      case Field(text) => WriteChunk('k', text);
      case NoneItem => stream := stream + [Octet('n')];
      case BoolItem(flag) => stream := stream + (if flag then [Octet('b'), Octet('1')] else [Octet('b'), Octet('0')]);
      case IntItem(text) => WriteChunk('i', text);
      case FloatItem(text) => WriteChunk('f', text);
      case StrItem(text) => WriteChunk('s', text);
      case BytesItem(hashed) =>
        stream := stream + [Octet('x')];
        stream := stream + Octets(BigEndian(32, 8));
        stream := stream + [Hash(hashed)];
      case SeqItem(text) => WriteChunk('q', text);
      case MapItem(text) => WriteChunk('m', text);
    }

    /** json */
    method WriteJson(v: Json)
      modifies this
      ensures stream == old(stream) + Flat(JsonW(v, End))
      decreases v, 1
    {
      hide Tokens;
      match v
      case Null => WriteLast(NoneItem);
      case Bool(flag) => WriteLast(BoolItem(flag));
      case Int(number) => WriteLast(IntItem(IntText(number)));
      case Float(hex) => WriteLast(FloatItem(hex));
      case Str(text) => WriteLast(StrItem(text));
      case Arr(items) =>
        Associate(stream, Tokens(SeqItem(IntText(|items|))), Flat(ArrayW(v, 0, End)));
        Write(SeqItem(IntText(|items|)));
        WriteArray(v);
      case Obj(entries) =>
        Associate(stream, Tokens(MapItem(IntText(|entries|))), Flat(ObjectW(v, 0, End)));
        Write(MapItem(IntText(|entries|)));
        WriteObject(v);
    }

    method WriteLast(item: Item)
      modifies this
      ensures stream == old(stream) + Flat(Then(item, End))
    {
      Write(item);
      assert Tokens(item) + [] == Tokens(item);
    }

    /** The items of a sequence. */
    method WriteArray(v: Json)
      requires v.Arr?
      modifies this
      ensures stream == old(stream) + Flat(ArrayW(v, 0, End))
      decreases v, 0
    {
      var i := 0;
      while i < |v.items|
        invariant i <= |v.items| && stream + Flat(ArrayW(v, i, End)) == old(stream) + Flat(ArrayW(v, 0, End))
        decreases |v.items| - i
      {
        FlatJson(v.items[i], ArrayW(v, i + 1, End));
        Associate(stream, Flat(JsonW(v.items[i], End)), Flat(ArrayW(v, i + 1, End)));
        WriteJson(v.items[i]);
        i := i + 1;
      }
      assert stream + [] == stream;
    }

    /** _json_mapping: the entries are in sorted-key order. */
    method WriteObject(v: Json)
      requires v.Obj?
      modifies this
      ensures stream == old(stream) + Flat(ObjectW(v, 0, End))
      decreases v, 0
    {
      var i := 0;
      while i < |v.entries|
        invariant i <= |v.entries| && stream + Flat(ObjectW(v, i, End)) == old(stream) + Flat(ObjectW(v, 0, End))
        decreases |v.entries| - i
      {
        var entry := v.entries[i];
        FlatJson(entry.value, ObjectW(v, i + 1, End));
        Associate(stream, Tokens(StrItem(entry.key)), Flat(JsonW(entry.value, ObjectW(v, i + 1, End))));
        Write(StrItem(entry.key));
        Associate(stream, Flat(JsonW(entry.value, End)), Flat(ObjectW(v, i + 1, End)));
        WriteJson(entry.value);
        i := i + 1;
      }
      assert stream + [] == stream;
    }

    /** The next of the calls to make; those left are still to be made. */
    method Put(item: Item, ghost todo: Items) returns (ghost left: Items)
      requires todo.Then? && todo.item == item
      modifies this
      ensures left == todo.rest && stream + Flat(left) == old(stream) + Flat(todo)
    {
      Associate(stream, Tokens(item), Flat(todo.rest));
      Write(item);
      left := todo.rest;
    }

    /** json, before what follows. */
    method PutJson(v: Json, ghost rest: Items)
      modifies this
      ensures stream + Flat(rest) == old(stream) + Flat(JsonW(v, rest))
    {
      FlatJson(v, rest);
      Associate(stream, Flat(JsonW(v, End)), Flat(rest));
      WriteJson(v);
    }

    /** write_optional_string */
    method PutOptional(value: Option<Text>, ghost rest: Items)
      modifies this
      ensures stream + Flat(rest) == old(stream) + Flat(OptionalW(value, rest))
    {
      hide Flat;
      ghost var todo := OptionalW(value, rest);
      match value
      case None => todo := Put(NoneItem, todo);
      case Some(text) => todo := Put(StrItem(text), todo);
    }

    /** write_optional_integer */
    method PutOptionalInt(value: Option<int>, ghost rest: Items)
      modifies this
      ensures stream + Flat(rest) == old(stream) + Flat(OptionalIntW(value, rest))
    {
      hide Flat;
      ghost var todo := OptionalIntW(value, rest);
      match value
      case None => todo := Put(NoneItem, todo);
      case Some(number) => todo := Put(IntItem(IntText(number)), todo);
    }

    /** A metadata mapping under its field name. */
    method PutMetadata(name: Text, metadata: Metadata, ghost rest: Items)
      modifies this
      ensures stream + Flat(rest) == old(stream) + Flat(MetadataW(name, metadata, rest))
    {
      hide Flat;
      ghost var _ := Put(Field(name), MetadataW(name, metadata, rest));
      PutJson(Obj(metadata), rest);
    }

    /** _write_artifact */
    method WriteArtifact(a: Artifact, ghost rest: Items)
      modifies this
      ensures stream + Flat(rest) == old(stream) + Flat(ArtifactW(a, rest))
    {
      hide Flat;
      ghost var todo := ArtifactW(a, rest);
      todo := Put(Field("artifact_ref"), todo);
      todo := Put(Field("ref"), todo);
      todo := Put(StrItem(a.ref), todo);
      todo := Put(Field("media_type"), todo);
      PutOptional(a.mediaType, todo.rest);
      todo := Put(Field("name"), todo.rest);
      PutOptional(a.name, todo.rest);
      todo := Put(Field("size_bytes"), todo.rest);
      PutOptionalInt(a.sizeBytes, todo.rest);
      todo := Put(Field("sha256"), todo.rest);
      PutOptional(a.sha256, todo.rest);
      PutMetadata("metadata", a.metadata, rest);
    }

    /** _write_content_part */
    method WritePart(p: ContentPart, ghost rest: Items)
      modifies this
      ensures stream + Flat(rest) == old(stream) + Flat(PartW(p, rest))
    {
      hide Flat;
      ghost var todo := PartW(p, rest);
      todo := Put(Field("content_part"), todo);
      todo := Put(Field("type"), todo);
      todo := Put(StrItem(p.kind), todo);
      todo := Put(Field("text"), todo);
      PutOptional(p.text, todo.rest);
      todo := Put(Field("uri"), todo.rest);
      PutOptional(p.uri, todo.rest);
      todo := Put(Field("artifact"), todo.rest);
      match p.artifact {
        case None => todo := Put(NoneItem, todo);
        case Some(artifact) => WriteArtifact(artifact, PartTail(p, rest));
      }
      todo := Put(Field("media_type"), PartTail(p, rest));
      PutOptional(p.mediaType, todo.rest);
      todo := Put(Field("name"), todo.rest);
      PutOptional(p.name, todo.rest);
      PutMetadata("data", p.data, MetadataW("metadata", p.metadata, rest));
      PutMetadata("metadata", p.metadata, rest);
    }

    /** write_parts */
    method WriteParts(parts: seq<ContentPart>, ghost rest: Items)
      modifies this
      ensures stream + Flat(rest) == old(stream) + Flat(PartsW(parts, rest))
    {
      hide Flat, PartW;
      ghost var todo := Put(SeqItem(IntText(|parts|)), PartsW(parts, rest));
      var i := 0;
      assert parts[0..] == parts;
      while i < |parts|
        invariant i <= |parts|
        invariant stream + Flat(PartListW(parts[i..], rest)) == old(stream) + Flat(PartsW(parts, rest))
      {
        assert parts[i..][1..] == parts[i + 1..];
        WritePart(parts[i], PartListW(parts[i + 1..], rest));
        i := i + 1;
      }
    }

    /** write_error */
    method WriteError(e: ErrorInfo, ghost rest: Items)
      modifies this
      ensures stream + Flat(rest) == old(stream) + Flat(ErrorW(e, rest))
    {
      hide Flat;
      ghost var todo := ErrorW(e, rest);
      todo := Put(Field("error_info"), todo);
      todo := Put(Field("code"), todo);
      todo := Put(StrItem(e.code), todo);
      todo := Put(Field("message"), todo);
      todo := Put(StrItem(e.message), todo);
    }

    /** write_tool_call */
    method WriteToolCall(c: ToolCall, ghost rest: Items)
      modifies this
      ensures stream + Flat(rest) == old(stream) + Flat(CallW(c, rest))
    {
      hide Flat;
      ghost var todo := CallW(c, rest);
      todo := Put(Field("runtime_tool_call"), todo);
      todo := Put(Field("input_kind"), todo);
      todo := Put(StrItem(if c.Structured? then "structured" else "freeform"), todo);
      todo := Put(Field("id"), todo);
      todo := Put(StrItem(c.id), todo);
      todo := Put(Field("name"), todo);
      todo := Put(StrItem(c.name), todo);
      match c
      case Structured(_, _, arguments, rawInput, _) =>
        todo := Put(Field("arguments"), todo);
        match arguments {
          case None => todo := Put(NoneItem, todo);
          case Some(metadata) => PutJson(Obj(metadata), RawW(c, rest));
        }
        todo := Put(Field("raw_input"), RawW(c, rest));
        PutOptional(rawInput, todo.rest);
        PutMetadata("metadata", c.metadata, rest);
      case Freeform(_, _, input, _) =>
        todo := Put(Field("input"), todo);
        todo := Put(StrItem(input), todo);
        PutMetadata("metadata", c.metadata, rest);
    }

    /** _write_provider_tool_call */
    method WriteProviderCall(c: ProviderCall, ghost rest: Items)
      modifies this
      ensures stream + Flat(rest) == old(stream) + Flat(ProviderW(c, rest))
    {
      hide Flat;
      ghost var todo := ProviderW(c, rest);
      todo := Put(Field("provider_tool_call"), todo);
      todo := Put(Field("id"), todo);
      todo := Put(StrItem(c.id), todo);
      todo := Put(Field("namespace"), todo);
      todo := Put(StrItem(c.namespace), todo);
      todo := Put(Field("type"), todo);
      todo := Put(StrItem(c.kind), todo);
      todo := Put(Field("status"), todo);
      todo := Put(StrItem(StatusText(c.status)), todo);
      todo := Then(Field("output"), PartsW(c.output, ProviderTail(c, rest)));
      PutMetadata("arguments", c.arguments, todo);
      todo := Put(Field("output"), todo);
      WriteParts(c.output, ProviderTail(c, rest));
      todo := Put(Field("error"), ProviderTail(c, rest));
      match c.error {
        case None => todo := Put(NoneItem, todo);
        case Some(error) => WriteError(error, MetadataW("metadata", c.metadata, rest));
      }
      PutMetadata("metadata", c.metadata, rest);
    }

    /** _write_optional_task */
    method WriteOptionalTask(task: Option<TaskRef>, ghost rest: Items)
      modifies this
      ensures stream + Flat(rest) == old(stream) + Flat(TaskW(task, rest))
    {
      hide Flat;
      ghost var todo := TaskW(task, rest);
      if task.None? {
        todo := Put(NoneItem, todo);
        return;
      }
      todo := Put(Field("task_ref"), todo);
      todo := Put(Field("id"), todo);
      todo := Put(StrItem(task.value.id), todo);
      todo := Put(Field("status"), todo);
      todo := Put(StrItem(task.value.status), todo);
      PutMetadata("metadata", task.value.metadata, rest);
    }

    /** _write_tool_outcome */
    method WriteOutcome(o: ToolOutcome, ghost rest: Items)
      modifies this
      ensures stream + Flat(rest) == old(stream) + Flat(OutcomeW(o, rest))
    {
      hide Flat;
      ghost var todo := OutcomeW(o, rest);
      todo := Put(Field("tool_outcome"), todo);
      todo := Put(Field("kind"), todo);
      todo := Put(StrItem(KindText(o.Kind())), todo);
      todo := Put(Field("parts"), todo);
      todo := Then(Field("structured_content"), JsonW(o.structured, OutcomeTail(o, rest)));
      WriteParts(o.parts, todo);
      todo := Put(Field("structured_content"), todo);
      todo := OutcomeTail(o, rest);
      PutJson(o.structured, todo);
      match o
      case SuccessOutcome(_, _) =>
      case FailureOutcome(_, _, error) =>
        todo := Put(Field("error"), todo);
        WriteError(error, rest);
      case AcceptedOutcome(_, _, id, task) =>
        todo := Put(Field("correlation_id"), todo);
        todo := Put(StrItem(id), todo);
        todo := Put(Field("task"), todo);
        WriteOptionalTask(task, rest);
      case WaitingOutcome(_, _, task) =>
        todo := Put(Field("task"), todo);
        WriteOptionalTask(task, rest);
    }

    /** The items of a message's output. */
    method WriteOutput(output: seq<OutputItem>, ghost rest: Items)
      modifies this
      ensures stream + Flat(rest) == old(stream) + Flat(OutputListW(output, rest))
    {
      hide Flat, PartW, CallW, ProviderW;
      var i := 0;
      assert output[0..] == output;
      while i < |output|
        invariant i <= |output|
        invariant stream + Flat(OutputListW(output[i..], rest)) == old(stream) + Flat(OutputListW(output, rest))
      {
        assert output[i..][1..] == output[i + 1..];
        ghost var left := OutputListW(output[i + 1..], rest);
        match output[i] {
          case Content(part) => WritePart(part, left);
          case Runtime(call) => WriteToolCall(call, left);
          case Provider(provided) => WriteProviderCall(provided, left);
        }
        i := i + 1;
      }
    }

    /** write_message */
    method WriteMessage(m: Message, ghost rest: Items)
      modifies this
      ensures stream + Flat(rest) == old(stream) + Flat(MessageW(m, rest))
    {
      hide Flat;
      ghost var todo := MessageW(m, rest);
      todo := Put(Field("role"), todo);
      todo := Put(StrItem(RoleText(m.role)), todo);
      todo := Put(Field("parts"), todo);
      WriteParts(m.parts, OutputsW(m, rest));
      todo := Put(Field("output"), OutputsW(m, rest));
      todo := Put(SeqItem(IntText(|m.output|)), todo);
      WriteOutput(m.output, LinkW(m, rest));
      todo := Put(Field("tool_call_id"), LinkW(m, rest));
      PutOptional(m.toolCallId, todo.rest);
      todo := Put(Field("outcome"), todo.rest);
      match m.outcome {
        case None => todo := Put(NoneItem, todo);
        case Some(outcome) => WriteOutcome(outcome, MetadataW("metadata", m.metadata, rest));
      }
      PutMetadata("metadata", m.metadata, rest);
    }
  }

  /** A writer that has written its domain has the rest still to write. */
  lemma DomainFirst(stream: seq<Token>, items: Items)
    requires items.Then? && stream == Tokens(items.item)
    ensures stream + Flat(items.rest) == Flat(items)
  {
  }

  /** append_history_digest: what is hashed is the term's stream. */
  method AppendHistoryDigest(previous: D.Digest, message: Message) returns (hashed: seq<Token>)
    ensures hashed == Flat(Written(D.HistoryAppend(previous, message)))
  {
    hide MessageW;
    ghost var todo := Written(D.HistoryAppend(previous, message));
    var writer := new DigestWriter("jharness.kernel.history.append.v1");
    DomainFirst(writer.stream, todo);
    todo := writer.Put(Field("previous"), todo.rest);
    todo := writer.Put(BytesItem(Flat(Written(previous))), todo);
    todo := writer.Put(Field("message"), todo);
    writer.WriteMessage(message, End);
    hashed := writer.stream;
    assert hashed + [] == hashed;
  }

  /** prepend_call_id_digest */
  method PrependCallIdDigest(suffix: D.Digest, id: Text) returns (hashed: seq<Token>)
    ensures hashed == Flat(Written(D.IdPrepend(id, suffix)))
  {
    ghost var todo := Written(D.IdPrepend(id, suffix));
    var writer := new DigestWriter("jharness.kernel.tool_call_ids.suffix.prepend.v1");
    DomainFirst(writer.stream, todo);
    todo := writer.Put(Field("call_id"), todo.rest);
    todo := writer.Put(StrItem(id), todo);
    todo := writer.Put(Field("suffix"), SuffixW(suffix));
    todo := writer.Put(BytesItem(Flat(Written(suffix))), todo);
    hashed := writer.stream;
    assert hashed + [] == hashed;
  }

  /** prepend_tool_call_digest */
  method PrependToolCallDigest(suffix: D.Digest, call: ToolCall) returns (hashed: seq<Token>)
    ensures hashed == Flat(Written(D.CallPrepend(call, suffix)))
  {
    hide CallW;
    ghost var todo := Written(D.CallPrepend(call, suffix));
    var writer := new DigestWriter("jharness.kernel.tool_calls.suffix.prepend.v1");
    DomainFirst(writer.stream, todo);
    todo := writer.Put(Field("call"), todo.rest);
    writer.WriteToolCall(call, SuffixW(suffix));
    todo := writer.Put(Field("suffix"), SuffixW(suffix));
    todo := writer.Put(BytesItem(Flat(Written(suffix))), todo);
    hashed := writer.stream;
    assert hashed + [] == hashed;
  }
}
