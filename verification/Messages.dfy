/**
 * Conversation values: JSON, content parts, tool calls, tool outcomes and
 * messages (messages.py, tools.py).
 */
module Messages {
  import opened Wrappers

  /** Unicode text in its UTF-8 form: one character per encoded byte. */
  type Text = string

  /** A JSON mapping is held in sorted-key form; a float by its hexadecimal text. */
  datatype Json =
    | Null
    | Bool(flag: bool)
    | Int(number: int)
    | Float(hex: Text)
    | Str(text: Text)
    | Arr(items: seq<Json>)
    | Obj(entries: seq<Entry>)

  datatype Entry = Entry(key: Text, value: Json)

  /** A frozen metadata mapping in sorted-key form. */
  type Metadata = seq<Entry>

  function Keys(metadata: Metadata): (keys: seq<Text>)
    ensures |keys| == |metadata|
  {
    seq(|metadata|, i requires 0 <= i < |metadata| => metadata[i].key)
  }

  datatype Artifact = Artifact(
    ref: Text, mediaType: Option<Text>, name: Option<Text>, sizeBytes: Option<int>,
    sha256: Option<Text>, metadata: Metadata)

  datatype ContentPart = ContentPart(
    kind: Text, text: Option<Text>, uri: Option<Text>, artifact: Option<Artifact>,
    mediaType: Option<Text>, name: Option<Text>, data: Metadata, metadata: Metadata)

  datatype ErrorInfo = ErrorInfo(code: Text, message: Text)

  datatype TaskRef = TaskRef(id: Text, status: Text, metadata: Metadata)

  /** A call the runtime executes itself. */
  datatype ToolCall =
    | Structured(id: Text, name: Text, arguments: Option<Metadata>, rawInput: Option<Text>,
                 metadata: Metadata)
    | Freeform(id: Text, name: Text, input: Text, metadata: Metadata)

  datatype ProviderStatus = InProgress | Finished | Incomplete | Broken

  /** A call the remote provider executes. */
  datatype ProviderCall = ProviderCall(
    id: Text, namespace: Text, kind: Text, status: ProviderStatus, arguments: Metadata,
    output: seq<ContentPart>, error: Option<ErrorInfo>, metadata: Metadata)

  datatype OutputItem =
    | Content(part: ContentPart)
    | Runtime(call: ToolCall)
    | Provider(provided: ProviderCall)

  datatype OutcomeKind = Success | Failure | Accepted | Waiting

  datatype ToolOutcome =
    | SuccessOutcome(parts: seq<ContentPart>, structured: Json)
    | FailureOutcome(parts: seq<ContentPart>, structured: Json, error: ErrorInfo)
    | AcceptedOutcome(parts: seq<ContentPart>, structured: Json, correlationId: Text,
                      task: Option<TaskRef>)
    | WaitingOutcome(parts: seq<ContentPart>, structured: Json, task: Option<TaskRef>)
  {
    function Kind(): OutcomeKind {
      match this
      case SuccessOutcome(_, _) => Success
      case FailureOutcome(_, _, _) => Failure
      case AcceptedOutcome(_, _, _, _) => Accepted
      case WaitingOutcome(_, _, _) => Waiting
    }
  }

  datatype Role = System | User | Assistant | Tool | External

  datatype Message = Message(
    role: Role, parts: seq<ContentPart>, output: seq<OutputItem>, toolCallId: Option<Text>,
    outcome: Option<ToolOutcome>, metadata: Metadata)

  // ------------------------------------------------------------ projections

  /** The calls of an ordered output that the runtime must execute. */
  function RuntimeCalls(output: seq<OutputItem>): seq<ToolCall> {
    if output == [] then []
    else (if output[0].Runtime? then [output[0].call] else []) + RuntimeCalls(output[1..])
  }

  /** Direct content and provider-tool output, in order. */
  function VisibleParts(output: seq<OutputItem>): seq<ContentPart> {
    if output == [] then []
    else
      (match output[0]
       case Content(part) => [part]
       case Provider(provided) => provided.output
       case Runtime(_) => []) + VisibleParts(output[1..])
  }

  function ProviderCallCount(output: seq<OutputItem>): nat {
    if output == [] then 0
    else (if output[0].Provider? then 1 else 0) + ProviderCallCount(output[1..])
  }

  lemma NothingProjected()
    ensures RuntimeCalls([]) == [] && VisibleParts([]) == []
  {
  }

  lemma CallsLead(item: OutputItem, rest: seq<OutputItem>)
    ensures RuntimeCalls([item] + rest) == (if item.Runtime? then [item.call] else []) + RuntimeCalls(rest)
  {
    assert ([item] + rest)[1..] == rest;
  }

  /** A further item adds its call, if it is one. */
  lemma {:induction false} CallsGrow(output: seq<OutputItem>, item: OutputItem)
    ensures RuntimeCalls(output + [item])
         == RuntimeCalls(output) + (if item.Runtime? then [item.call] else [])
    decreases |output|
  {
    hide RuntimeCalls;
    if output == [] {
      CallsLead(item, []);
      assert [] + [item] == [item] + [];
      NothingProjected();
    } else {
      var first, rest := output[0], output[1..];
      assert output == [first] + rest && output + [item] == [first] + (rest + [item]);
      CallsLead(first, rest);
      CallsLead(first, rest + [item]);
      CallsGrow(rest, item);
    }
  }

  lemma PartsLead(item: OutputItem, rest: seq<OutputItem>)
    ensures VisibleParts([item] + rest)
         == (if item.Content? then [item.part] else if item.Provider? then item.provided.output else [])
            + VisibleParts(rest)
  {
    assert ([item] + rest)[1..] == rest;
  }

  /** A further item adds its part or, if it is a provider call, the output of that. */
  lemma {:induction false} PartsGrow(output: seq<OutputItem>, item: OutputItem)
    ensures VisibleParts(output + [item])
         == VisibleParts(output)
            + (if item.Content? then [item.part] else if item.Provider? then item.provided.output else [])
    decreases |output|
  {
    hide VisibleParts;
    if output == [] {
      PartsLead(item, []);
      assert [] + [item] == [item] + [];
      NothingProjected();
    } else {
      var first, rest := output[0], output[1..];
      assert output == [first] + rest && output + [item] == [first] + (rest + [item]);
      PartsLead(first, rest);
      PartsLead(first, rest + [item]);
      PartsGrow(rest, item);
    }
  }

  /** The calls a message asks the runtime for: only an assistant message has any. */
  function CallsOf(m: Message): seq<ToolCall> {
    if m.role == Assistant then RuntimeCalls(m.output) else []
  }

  function Ids(calls: seq<ToolCall>): (ids: seq<Text>)
    ensures |ids| == |calls|
    ensures forall i :: 0 <= i < |calls| ==> ids[i] == calls[i].id
  {
    seq(|calls|, i requires 0 <= i < |calls| => calls[i].id)
  }

  function Roles(messages: seq<Message>): (roles: seq<Role>)
    ensures |roles| == |messages|
  {
    seq(|messages|, i requires 0 <= i < |messages| => messages[i].role)
  }

  predicate Unique<T(==)>(items: seq<T>) {
    forall i, j :: 0 <= i < j < |items| ==> items[i] != items[j]
  }

  function ToSet<T>(items: seq<T>): set<T> {
    set i | 0 <= i < |items| :: items[i]
  }

  /** Role-specific invariants a message is constructed under. */
  predicate ValidMessage(m: Message) {
    match m.role
    case Assistant =>
      && m.parts == [] && m.toolCallId.None? && m.outcome.None?
      && Unique(Ids(RuntimeCalls(m.output)))
      && (forall call <- RuntimeCalls(m.output) :: call.id != "")
    case Tool =>
      && m.parts == [] && m.output == []
      && m.toolCallId.Some? && m.toolCallId.value != "" && m.outcome.Some?
    case _ =>
      && m.parts != [] && m.output == [] && m.toolCallId.None? && m.outcome.None?
  }

  function ToolMessage(call: ToolCall, outcome: ToolOutcome): Message {
    Message(Tool, [], [], Some(call.id), Some(outcome), [])
  }
}
