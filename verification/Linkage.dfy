/**
 * Tool linkage of a history, and the evidence that lets a snapshot check only
 * what is appended (kernel/_history.py, snapshot.py).
 */
module Linkage {
  import opened Wrappers
  import opened Messages
  import opened Digests
  import opened State
  import P = Pending
  import opened IdSet
  import H = History

  // ------------------------------------------- full validation, by definition

  /** The call ids a history has requested, and the calls still without a result. */
  datatype Linked = Linked(seen: set<Text>, unresolved: seq<ToolCall>)

  datatype LinkError =
    | UnresolvedNotLast | ResultOutOfOrder | ResultWithoutRequest | DuplicateCallIds | ReusedCallId
    | PendingMismatch | StillUnresolved

  const NOTHING_LINKED := Linked({}, [])

  function LinkStep(l: Linked, m: Message): Result<Linked, LinkError> {
    if l.unresolved != [] then
      if m.role != Tool then Err(UnresolvedNotLast)
      else if m.toolCallId != Some(l.unresolved[0].id) then Err(ResultOutOfOrder)
      else Ok(Linked(l.seen, l.unresolved[1..]))
    else if m.role == Tool then Err(ResultWithoutRequest)
    else
      var calls := CallsOf(m);
      if calls == [] then Ok(l)
      else if !Unique(Ids(calls)) then Err(DuplicateCallIds)
      else if ToSet(Ids(calls)) * l.seen != {} then Err(ReusedCallId)
      else Ok(Linked(l.seen + ToSet(Ids(calls)), calls))
  }

  function LinkFrom(l: Linked, messages: seq<Message>): Result<Linked, LinkError>
    decreases |messages|
  {
    if messages == [] then Ok(l)
    else match LinkStep(l, messages[0])
      case Err(e) => Err(e)
      case Ok(next) => LinkFrom(next, messages[1..])
  }

  function Link(messages: seq<Message>): Result<Linked, LinkError> { LinkFrom(NOTHING_LINKED, messages) }

  /** _validate_unresolved: what may remain unresolved in which state. */
  function Settle(unresolved: seq<ToolCall>, state: RunState): Option<LinkError> {
    match OwedCalls(state)
    case Some(calls) => if unresolved == [] || unresolved != calls then Some(PendingMismatch) else None
    case None =>
      if unresolved != [] && !state.Failed? && !state.Limited? then Some(StillUnresolved) else None
  }

  /** analyze_messages: the whole history against one state. */
  function Analyze(messages: seq<Message>, state: RunState): Result<Linked, LinkError> {
    match Link(messages)
    case Err(e) => Err(e)
    case Ok(l) => match Settle(l.unresolved, state) case Some(e) => Err(e) case None => Ok(l)
  }

  lemma {:induction false} LinkConcat(l: Linked, a: seq<Message>, b: seq<Message>)
    ensures LinkFrom(l, a + b) == match LinkFrom(l, a) case Err(e) => Err(e) case Ok(next) => LinkFrom(next, b)
    decreases |a|
  {
    if a == [] {
      assert a + b == b;
    } else {
      assert (a + b)[1..] == a[1..] + b;
      match LinkStep(l, a[0])
      case Err(_) =>
      case Ok(next) => LinkConcat(next, a[1..], b);
    }
  }

  // ------------------------------------------------------ retained evidence

  /** HistoryProof: digest, trie of seen ids, cursor over the unresolved calls. */
  datatype HistoryProof = HistoryProof(digest: Digest, seen: IdNode, unresolved: Option<P.PendingToolCalls>)

  function Unresolved(pending: Option<P.PendingToolCalls>): seq<ToolCall>
    requires pending.Some? ==> P.Valid(pending.value)
  {
    match pending case None => [] case Some(p) => P.Remaining(p)
  }

  ghost predicate Holds(root: IdNode, ids: set<Text>) {
    Sorted(root) && forall k: Text :: Member(root, k) <==> k in ids
  }

  /** The trie and the cursor hold what full validation would compute. */
  ghost predicate Represents(seen: IdNode, pending: Option<P.PendingToolCalls>, l: Linked) {
    && Holds(seen, l.seen)
    && (pending.Some? ==> P.Valid(pending.value))
    && Unresolved(pending) == l.unresolved
  }

  ghost predicate ProofOf(proof: HistoryProof, messages: seq<Message>) {
    && Link(messages).Ok?
    && proof.digest == HistoryDigest(messages)
    && Represents(proof.seen, proof.unresolved, Link(messages).value)
  }

  /** _record_call_ids: refuses an id that was seen before or twice in one request. */
  method RecordCallIds(calls: seq<ToolCall>, seen: IdNode, ghost ids: set<Text>)
    returns (r: Result<IdNode, LinkError>)
    requires Holds(seen, ids) && Unique(Ids(calls))
    ensures r.Ok? <==> ToSet(Ids(calls)) * ids == {}
    ensures r.Ok? ==> Holds(r.value, ids + ToSet(Ids(calls)))
    ensures r.Err? ==> r.error == ReusedCallId
  {
    var updated := seen;
    ghost var held := ids;
    for i := 0 to |calls|
      invariant held == ids + ToSet(Ids(calls)[..i]) && Holds(updated, held)
      invariant ToSet(Ids(calls)[..i]) * ids == {}
    {
      var id := calls[i].id;
      assert Ids(calls)[i] == id;
      GrowSet(Ids(calls), i);
      var known := Contains(updated, id);
      if known {
        assert id in ToSet(Ids(calls)) * ids;
        return Err(ReusedCallId);
      }
      updated := RecordOne(updated, id, held);
      held := held + {id};
    }
    assert Ids(calls)[..|calls|] == Ids(calls);
    r := Ok(updated);
  }

  lemma GrowSet(ids: seq<Text>, i: nat)
    requires i < |ids| && Unique(ids)
    ensures ToSet(ids[..i + 1]) == ToSet(ids[..i]) + {ids[i]} && ids[i] !in ToSet(ids[..i])
    ensures ids[i] in ToSet(ids)
  {
    assert ids[..i + 1] == ids[..i] + [ids[i]];
    var more, less := ids[..i + 1], ids[..i];
    forall x | x in ToSet(more) ensures x in ToSet(less) + {ids[i]} {
      var j :| 0 <= j < |more| && more[j] == x;
      if j < i { assert less[j] == x; }
    }
    forall x | x in ToSet(less) ensures x in ToSet(more) {
      var j :| 0 <= j < |less| && less[j] == x;
      assert more[j] == x;
    }
    assert more[i] == ids[i];
  }

  method RecordOne(seen: IdNode, id: Text, ghost ids: set<Text>) returns (updated: IdNode)
    requires Holds(seen, ids)
    ensures Holds(updated, ids + {id})
  {
    updated := Add(seen, id);
    WithKeySorted(seen, id);
    forall k: Text ensures Member(WithKey(seen, id), k) <==> k == id || k in ids {
      WithKeyAdds(seen, id, k);
    }
  }

  /** _advance_linkage */
  method AdvanceLinkage(m: Message, unresolved: Option<P.PendingToolCalls>, seen: IdNode, ghost l: Linked)
    returns (r: Result<(Option<P.PendingToolCalls>, IdNode), LinkError>)
    requires Represents(seen, unresolved, l)
    ensures r.Err? <==> LinkStep(l, m).Err?
    ensures r.Err? ==> r.error == LinkStep(l, m).error
    ensures r.Ok? ==> Represents(r.value.1, r.value.0, LinkStep(l, m).value)
  {
    if unresolved.Some? {
      var pending := unresolved.value;
      if m.role != Tool { return Err(UnresolvedNotLast); }
      var expected := pending.calls[pending.offset].id;
      if m.toolCallId != Some(expected) { return Err(ResultOutOfOrder); }
      var rest := P.Advance(pending, 1);
      return Ok((rest.value, seen));
    }
    if m.role == Tool { return Err(ResultWithoutRequest); }
    var calls := CallsOf(m);
    if calls == [] { return Ok((None, seen)); }
    var pending := P.Create(calls);
    if pending.Err? { return Err(DuplicateCallIds); }
    var recorded := RecordCallIds(calls, seen, l.seen);
    if recorded.Err? { return Err(recorded.error); }
    r := Ok((Some(pending.value), recorded.value));
  }

  /** _extend_proof over the messages of an edit. */
  method ExtendProof(proof: HistoryProof, messages: seq<Message>, ghost base: seq<Message>)
    returns (r: Result<HistoryProof, LinkError>)
    requires ProofOf(proof, base)
    ensures r.Err? <==> Link(base + messages).Err?
    ensures r.Err? ==> r.error == Link(base + messages).error
    ensures r.Ok? ==> ProofOf(r.value, base + messages)
  {
    var unresolved, seen, digest := proof.unresolved, proof.seen, proof.digest;
    ghost var l := Link(base).value;
    LinkConcat(NOTHING_LINKED, base, messages);
    assert messages[0..] == messages;
    for i := 0 to |messages|
      invariant Represents(seen, unresolved, l)
      invariant LinkFrom(l, messages[i..]) == Link(base + messages)
      invariant digest == ExtendHistory(proof.digest, messages[..i])
    {
      assert messages[i..][1..] == messages[i + 1..];
      assert messages[..i + 1][..i] == messages[..i];
      var step := AdvanceLinkage(messages[i], unresolved, seen, l);
      if step.Err? { return Err(step.error); }
      l := LinkStep(l, messages[i]).value;
      unresolved, seen := step.value.0, step.value.1;
      digest := HistoryAppend(digest, messages[i]);
    }
    assert messages[..|messages|] == messages;
    ExtendTwice(EmptyHistory, base, messages);
    r := Ok(HistoryProof(digest, seen, unresolved));
  }

  /**
   * _validate_unresolved. On success the program swaps in the state's own
   * cursor, which is equal to the proof's; here both are the one value.
   */
  method ValidateUnresolved(unresolved: Option<P.PendingToolCalls>, state: RunState) returns (error: Option<LinkError>)
    requires unresolved.Some? ==> P.Valid(unresolved.value)
    requires ValidState(state)
    ensures error == Settle(Unresolved(unresolved), state)
  {
    match OwedCalls(state)
    case Some(calls) =>
      if unresolved.None? { return Some(PendingMismatch); }
      var owed := P.Create(calls);
      var same := P.Equal(unresolved.value, owed.value);
      error := if same then None else Some(PendingMismatch);
    case None =>
      error := if unresolved.Some? && !state.Failed? && !state.Limited? then Some(StillUnresolved) else None;
  }

  /** analyze_messages: full validation of an external history. */
  method AnalyzeMessages(messages: seq<Message>, state: RunState) returns (r: Result<HistoryProof, LinkError>)
    requires ValidState(state)
    ensures r.Err? <==> Analyze(messages, state).Err?
    ensures r.Err? ==> r.error == Analyze(messages, state).error
    ensures r.Ok? ==> ProofOf(r.value, messages)
  {
    EmptyProof();
    var proof := ExtendProof(HistoryProof(EmptyHistory, EMPTY, None), messages, []);
    assert [] + messages == messages;
    if proof.Err? { return proof; }
    var error := ValidateUnresolved(proof.value.unresolved, state);
    if error.Some? { return Err(error.value); }
    r := proof;
  }

  lemma EmptyProof()
    ensures ProofOf(HistoryProof(EmptyHistory, EMPTY, None), [])
  {
    forall k: Text ensures !Member(EMPTY, k) { EmptyHoldsNothing(k); }
  }

  // -------------------------------------------------------- snapshots

  /** RunSnapshot with its private proof. */
  datatype Evidence = Evidence(history: H.RunHistory, proof: HistoryProof)

  ghost predicate Sound(e: Evidence) {
    H.Valid(e.history) && ProofOf(e.proof, H.Model(e.history))
  }

  /** What an edit makes of a history. */
  function Edited(base: seq<Message>, append: seq<Message>, replace: Option<seq<Message>>): seq<Message> {
    match replace case Some(messages) => messages case None => base + append
  }

  /**
   * evolve_history: looking only at what is appended accepts exactly the edits
   * that re-validating the whole extended history accepts, with the same error
   * otherwise, and leaves evidence for the whole extended history.
   */
  method EvolveHistory(e: Evidence, append: seq<Message>, replace: Option<H.RunHistory>, state: RunState)
    returns (r: Result<Evidence, LinkError>)
    requires Sound(e) && ValidState(state)
    requires replace.Some? ==> H.Valid(replace.value) && append == []
    ensures var whole := Edited(H.Model(e.history), append,
                                if replace.Some? then Some(H.Model(replace.value)) else None);
      && (r.Err? <==> Analyze(whole, state).Err?)
      && (r.Err? ==> r.error == Analyze(whole, state).error)
      && (r.Ok? ==> Sound(r.value) && H.Model(r.value.history) == whole)
  {
    ghost var base := H.Model(e.history);
    if replace.Some? {
      var items := H.Items(replace.value);
      assert items == H.Model(replace.value);
      var rebuilt := AnalyzeMessages(items, state);
      if rebuilt.Err? { return Err(rebuilt.error); }
      return Ok(Evidence(replace.value, rebuilt.value));
    }
    if append == [] {
      assert base + append == base;
      var error := ValidateUnresolved(e.proof.unresolved, state);
      if error.Some? { return Err(error.value); }
      return Ok(e);
    }
    var next := ExtendProof(e.proof, append, base);
    if next.Err? { return Err(next.error); }
    var error := ValidateUnresolved(next.value.unresolved, state);
    if error.Some? { return Err(error.value); }
    ExtendTwice(EmptyHistory, base, append);
    var history := H.Append(e.history, append, next.value.digest);
    r := Ok(Evidence(history, next.value));
  }
}
