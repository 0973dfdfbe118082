/**
 * Which histories link, told on the places of their messages (kernel/_history.py,
 * snapshot.py).
 */
module Linking {
  import opened Wrappers
  import opened Messages
  import opened State
  import opened Linkage

  /** Message r requests this call as its k-th. */
  predicate Requests(messages: seq<Message>, r: int, k: int, call: ToolCall) {
    0 <= r < |messages| && 0 <= k < |CallsOf(messages[r])| && CallsOf(messages[r])[k] == call
  }

  predicate AnswersCall(m: Message, call: ToolCall) { m.role == Tool && m.toolCallId == Some(call.id) }

  /** The calls of a message are answered by the messages right behind it, in their order, as far as there are any. */
  ghost predicate AnsweredBehind(messages: seq<Message>) {
    forall r, k, call :: Requests(messages, r, k, call) && r + 1 + k < |messages| ==>
      AnswersCall(messages[r + 1 + k], call)
  }

  /** Message i stands where a call of message r is answered. */
  predicate Covers(messages: seq<Message>, r: int, i: int) {
    0 <= r < i < |messages| && i <= r + |CallsOf(messages[r])|
  }

  /** Nothing is answered that was not requested. */
  ghost predicate NothingElseAnswered(messages: seq<Message>) {
    forall i :: 0 <= i < |messages| && messages[i].role == Tool ==> exists r :: Covers(messages, r, i)
  }

  /** No id is requested twice. */
  ghost predicate RequestedOnce(messages: seq<Message>) {
    forall r, k, call, s, m, other ::
      Requests(messages, r, k, call) && Requests(messages, s, m, other) && call.id == other.id ==> r == s && k == m
  }

  ghost predicate Linked(messages: seq<Message>) {
    AnsweredBehind(messages) && NothingElseAnswered(messages) && RequestedOnce(messages)
  }

  /** Message r still waits for answers past the end. */
  predicate Open(messages: seq<Message>, r: int) {
    0 <= r < |messages| && CallsOf(messages[r]) != [] && r + |CallsOf(messages[r])| >= |messages|
  }

  /** The calls still without an answer: what the end cuts off from the one open message, or nothing. */
  ghost predicate Unanswered(messages: seq<Message>, rest: seq<ToolCall>) {
    if rest == [] then forall r :: !Open(messages, r)
    else exists r :: Open(messages, r) && rest == CallsOf(messages[r])[|messages| - 1 - r..]
  }

  /** Calls behind a request come only when all of it is answered. */
  lemma OneAtATime(messages: seq<Message>, r: int, s: int)
    requires AnsweredBehind(messages) && 0 <= r < s < |messages| && CallsOf(messages[s]) != []
    ensures r + |CallsOf(messages[r])| < s
  {
    if s <= r + |CallsOf(messages[r])| { assert Requests(messages, r, s - 1 - r, CallsOf(messages[r])[s - 1 - r]); }
  }

  lemma OpenRequest(messages: seq<Message>, rest: seq<ToolCall>) returns (r: int)
    requires Unanswered(messages, rest) && rest != []
    ensures Open(messages, r) && rest == CallsOf(messages[r])[|messages| - 1 - r..]
  {
    hide CallsOf;
    r :| Open(messages, r) && rest == CallsOf(messages[r])[|messages| - 1 - r..];
  }

  lemma OneOpen(messages: seq<Message>, r: int, s: int)
    requires AnsweredBehind(messages) && Open(messages, r) && Open(messages, s)
    ensures r == s
  {
    if r < s { OneAtATime(messages, r, s); }
    if s < r { OneAtATime(messages, s, r); }
  }

  lemma UnansweredOnce(messages: seq<Message>, a: seq<ToolCall>, b: seq<ToolCall>)
    requires AnsweredBehind(messages) && Unanswered(messages, a) && Unanswered(messages, b)
    ensures a == b
  {
    hide AnsweredBehind, CallsOf, Open;
    if a != [] && b != [] {
      var r := OpenRequest(messages, a);
      var s := OpenRequest(messages, b);
      OneOpen(messages, r, s);
    }
  }

  lemma LinkedFront(front: seq<Message>, last: Message)
    requires Linked(front + [last])
    ensures Linked(front)
  {
    var all := front + [last];
    forall r, k, call ensures Requests(front, r, k, call) ==> Requests(all, r, k, call) {}
    forall i | 0 <= i < |front| && front[i].role == Tool ensures exists r :: Covers(front, r, i) {
      assert all[i].role == Tool;
      var r :| Covers(all, r, i);
      assert Covers(front, r, i);
    }
  }

  /** One more message links exactly when it is the next answer, or needs none and asks for new ids only. */
  predicate Extends(front: seq<Message>, open: seq<ToolCall>, seen: set<Text>, last: Message) {
    if open != [] then AnswersCall(last, open[0])
    else last.role != Tool && Unique(Ids(CallsOf(last))) && ToSet(Ids(CallsOf(last))) * seen == {}
  }

  ghost predicate SeenAre(messages: seq<Message>, seen: set<Text>) {
    forall id: Text :: id in seen <==> exists r, k, call :: Requests(messages, r, k, call) && call.id == id
  }

  lemma RequestsSplit(front: seq<Message>, last: Message, r: int, k: int, call: ToolCall)
    ensures Requests(front + [last], r, k, call)
      <==> Requests(front, r, k, call)
           || (r == |front| && 0 <= k < |CallsOf(last)| && CallsOf(last)[k] == call)
  {
  }

  lemma LinkedNext(front: seq<Message>, open: seq<ToolCall>, seen: set<Text>, last: Message)
    requires Linked(front) && Unanswered(front, open) && SeenAre(front, seen)
    ensures Linked(front + [last]) <==> Extends(front, open, seen, last)
  {
    var all := front + [last];
    forall r, k, call ensures Requests(all, r, k, call)
      <==> Requests(front, r, k, call) || (r == |front| && 0 <= k < |CallsOf(last)| && CallsOf(last)[k] == call)
    {
      RequestsSplit(front, last, r, k, call);
    }
    if open != [] {
      var r :| Open(front, r) && open == CallsOf(front[r])[|front| - 1 - r..];
      NextAnswers(front, r, last);
    } else {
      NextAsks(front, seen, last);
    }
  }

  lemma NextAnswers(front: seq<Message>, r: int, last: Message)
    requires Linked(front) && Open(front, r)
    ensures Linked(front + [last]) <==> AnswersCall(last, CallsOf(front[r])[|front| - 1 - r])
  {
    var all, k := front + [last], |front| - 1 - r;
    var call := CallsOf(front[r])[k];
    assert Requests(all, r, k, call);
    if AnswersCall(last, call) {
      forall s, m, other ensures Requests(all, s, m, other) <==> Requests(front, s, m, other) {
        RequestsSplit(front, last, s, m, other);
      }
      forall s, m, other | Requests(all, s, m, other) && s + 1 + m < |all| ensures AnswersCall(all[s + 1 + m], other) {
        if s + 1 + m == |front| {
          if s < r { OneAtATime(front, s, r); }
          if r < s { OneAtATime(front, r, s); }
        }
      }
      assert Covers(all, r, |front|);
      forall i | 0 <= i < |all| && all[i].role == Tool ensures exists s :: Covers(all, s, i) {
        if i < |front| {
          var s :| Covers(front, s, i);
          assert Covers(all, s, i);
        }
      }
    }
  }

  lemma CoveredIsOpen(front: seq<Message>, last: Message, r: int)
    requires Covers(front + [last], r, |front|)
    ensures Open(front, r)
  {
    assert (front + [last])[r] == front[r];
  }

  lemma NextAsks(front: seq<Message>, seen: set<Text>, last: Message)
    requires Linked(front) && Unanswered(front, []) && SeenAre(front, seen)
    ensures Linked(front + [last])
      <==> last.role != Tool && Unique(Ids(CallsOf(last))) && ToSet(Ids(CallsOf(last))) * seen == {}
  {
    var all, calls := front + [last], CallsOf(last);
    if Linked(all) {
      if last.role == Tool {
        assert all[|front|].role == Tool;
        var r :| Covers(all, r, |front|);
        CoveredIsOpen(front, last, r);
      }
      NewIds(front, seen, last);
    }
    if last.role != Tool && Unique(Ids(calls)) && ToSet(Ids(calls)) * seen == {} { NextLinks(front, seen, last); }
  }

  lemma NewIds(front: seq<Message>, seen: set<Text>, last: Message)
    requires RequestedOnce(front + [last]) && SeenAre(front, seen)
    ensures Unique(Ids(CallsOf(last))) && ToSet(Ids(CallsOf(last))) * seen == {}
  {
    var all, calls := front + [last], CallsOf(last);
    forall i, j | 0 <= i < j < |calls| ensures Ids(calls)[i] != Ids(calls)[j] {
      assert Requests(all, |front|, i, calls[i]) && Requests(all, |front|, j, calls[j]);
    }
    forall id | id in ToSet(Ids(calls)) ensures id !in seen {
      var i :| 0 <= i < |calls| && Ids(calls)[i] == id;
      assert Requests(all, |front|, i, calls[i]);
      if id in seen {
        var r, k, call :| Requests(front, r, k, call) && call.id == id;
        assert Requests(all, r, k, call);
        assert false;
      }
    }
  }

  lemma NextLinks(front: seq<Message>, seen: set<Text>, last: Message)
    requires Linked(front) && Unanswered(front, []) && SeenAre(front, seen)
    requires last.role != Tool && Unique(Ids(CallsOf(last))) && ToSet(Ids(CallsOf(last))) * seen == {}
    ensures Linked(front + [last])
  {
    var all, calls := front + [last], CallsOf(last);
    forall r, k, call | Requests(all, r, k, call) && r + 1 + k < |all| ensures AnswersCall(all[r + 1 + k], call) {
      RequestsSplit(front, last, r, k, call);
      assert r < |front| && !Open(front, r);
    }
    forall i | 0 <= i < |all| && all[i].role == Tool ensures exists r :: Covers(all, r, i) {
      var r :| Covers(front, r, i);
      assert Covers(all, r, i);
    }
    StillOnce(front, seen, last);
  }

  /** A request of the longer history is an old one, under a seen id, or one of the last message. */
  lemma OldOrNew(front: seq<Message>, seen: set<Text>, last: Message, r: int, k: int, call: ToolCall)
    requires SeenAre(front, seen) && Requests(front + [last], r, k, call)
    ensures if r < |front| then Requests(front, r, k, call) && call.id in seen
            else r == |front| && 0 <= k < |CallsOf(last)| && Ids(CallsOf(last))[k] == call.id
                 && call.id in ToSet(Ids(CallsOf(last)))
  {
    RequestsSplit(front, last, r, k, call);
  }

  lemma StillOnce(front: seq<Message>, seen: set<Text>, last: Message)
    requires RequestedOnce(front) && SeenAre(front, seen)
    requires Unique(Ids(CallsOf(last))) && ToSet(Ids(CallsOf(last))) * seen == {}
    ensures RequestedOnce(front + [last])
  {
    var all, ids := front + [last], ToSet(Ids(CallsOf(last)));
    assert forall id :: id in ids && id in seen ==> id in ids * seen;
    forall r, k, call, s, m, other
      | Requests(all, r, k, call) && Requests(all, s, m, other) && call.id == other.id
      ensures r == s && k == m
    {
      OldOrNew(front, seen, last, r, k, call);
      OldOrNew(front, seen, last, s, m, other);
      hide SeenAre, Requests;
    }
  }

  lemma StillUnanswered(front: seq<Message>, open: seq<ToolCall>, last: Message)
    requires Linked(front + [last]) && Unanswered(front, open)
    ensures open != [] ==> Unanswered(front + [last], open[1..])
    ensures open == [] ==> Unanswered(front + [last], CallsOf(last))
  {
    if open != [] {
      AnswerLeaves(front, open, last);
    } else {
      RequestOpens(front, last);
    }
  }

  lemma AnswerLeaves(front: seq<Message>, open: seq<ToolCall>, last: Message)
    requires AnsweredBehind(front + [last]) && Unanswered(front, open) && open != []
    ensures Unanswered(front + [last], open[1..])
  {
    hide AnsweredBehind, CallsOf;
    var all := front + [last];
    var r := OpenRequest(front, open);
    assert all[r] == front[r];
    if |open| > 1 {
      assert Open(all, r);
      assert open[1..] == CallsOf(all[r])[|all| - 1 - r..];
    } else {
      forall s ensures !Open(all, s) { NothingOpens(all, r, s); }
    }
  }

  lemma NothingOpens(messages: seq<Message>, r: int, s: int)
    requires AnsweredBehind(messages) && 0 <= r < |messages| && CallsOf(messages[r]) != []
    requires r + |CallsOf(messages[r])| == |messages| - 1
    ensures !Open(messages, s)
  {
    if Open(messages, s) && s < r { OneAtATime(messages, s, r); }
    if Open(messages, s) && r < s { OneAtATime(messages, r, s); }
  }

  lemma WasOpen(front: seq<Message>, last: Message, r: int)
    requires Open(front + [last], r) && r < |front|
    ensures Open(front, r)
  {
    assert (front + [last])[r] == front[r];
  }

  lemma RequestOpens(front: seq<Message>, last: Message)
    requires Unanswered(front, [])
    ensures Unanswered(front + [last], CallsOf(last))
  {
    hide CallsOf;
    var all := front + [last];
    forall r | Open(all, r) ensures r == |front| {
      if r < |front| { WasOpen(front, last, r); }
    }
    if CallsOf(last) != [] { assert all[|front|] == last && Open(all, |front|); }
  }

  lemma StillSeen(front: seq<Message>, seen: set<Text>, last: Message)
    requires SeenAre(front, seen)
    ensures SeenAre(front + [last], seen + ToSet(Ids(CallsOf(last))))
  {
    var all, calls := front + [last], CallsOf(last);
    forall id: Text
      ensures id in seen + ToSet(Ids(calls)) <==> exists r, k, call :: Requests(all, r, k, call) && call.id == id
    {
      if id in seen {
        var r, k, call :| Requests(front, r, k, call) && call.id == id;
        assert Requests(all, r, k, call);
      }
      if id in ToSet(Ids(calls)) {
        var i :| 0 <= i < |calls| && Ids(calls)[i] == id;
        assert Requests(all, |front|, i, calls[i]);
      }
      if exists r, k, call :: Requests(all, r, k, call) && call.id == id {
        var r, k, call :| Requests(all, r, k, call) && call.id == id;
        RequestsSplit(front, last, r, k, call);
        if r == |front| { assert Ids(calls)[k] == id; }
      }
    }
  }

  /**
   * A history links exactly when the messages right behind a request answer its
   * calls in order, nothing else is answered, and no id is requested twice; then
   * what it leaves unresolved is what the end cuts off from the last request.
   */
  lemma {:induction false} LinkExactly(messages: seq<Message>)
    ensures Link(messages).Ok? <==> Linked(messages)
    ensures Link(messages).Ok? ==>
      Unanswered(messages, Link(messages).value.unresolved) && SeenAre(messages, Link(messages).value.seen)
    decreases |messages|
  {
    if messages != [] {
      var front, last := messages[..|messages| - 1], messages[|messages| - 1];
      LinkExactly(front);
      assert messages == front + [last];
      LinkConcat(NOTHING_LINKED, front, [last]);
      hide Linked, Unanswered, SeenAre;
      if Link(front).Ok? {
        var l := Link(front).value;
        LinkedNext(front, l.unresolved, l.seen, last);
        StepExtends(front, l, last);
        if Linked(messages) {
          StillUnanswered(front, l.unresolved, last);
          StillSeen(front, l.seen, last);
        }
      } else if Linked(messages) {
        LinkedFront(front, last);
      }
    }
  }

  lemma StepExtends(front: seq<Message>, l: Linkage.Linked, last: Message)
    ensures var next := LinkFrom(l, [last]);
      && (next.Ok? <==> Extends(front, l.unresolved, l.seen, last))
      && (next.Ok? ==> next.value.seen == l.seen + ToSet(Ids(CallsOf(last)))
                       && next.value.unresolved == if l.unresolved != [] then l.unresolved[1..] else CallsOf(last))
  {
    var ids := ToSet(Ids(CallsOf(last)));
    assert [last][1..] == [];
    assert Ids([]) == [] && ToSet(Ids([])) == {};
    assert LinkFrom(l, [last]) == LinkStep(l, last);
    assert CallsOf(last) == [] ==> ids == {} && Unique(Ids(CallsOf(last)));
  }

  /** What may be left unanswered in a state: the calls it owes, nothing, or anything once it failed or was limited. */
  predicate MayLeave(state: RunState, rest: seq<ToolCall>) {
    match state
    case Active(ToolsPending(calls, _)) => rest == calls && rest != []
    case Suspended(ToolsPending(calls, _), _) => rest == calls && rest != []
    case Failed(_) => true
    case Limited(_) => true
    case _ => rest == []
  }

  /** A history goes with a state exactly when it links and leaves what the state may leave. */
  lemma AnalyzeExactly(messages: seq<Message>, state: RunState)
    ensures Analyze(messages, state).Ok?
      <==> Linked(messages) && exists rest :: Unanswered(messages, rest) && MayLeave(state, rest)
  {
    LinkExactly(messages);
    if Link(messages).Ok? {
      var open := Link(messages).value.unresolved;
      assert MayLeave(state, open) <==> Settle(open, state).None?;
      if exists rest :: Unanswered(messages, rest) && MayLeave(state, rest) {
        var rest :| Unanswered(messages, rest) && MayLeave(state, rest);
        UnansweredOnce(messages, rest, open);
      }
    }
  }
}
