/** The persistent conversation history (kernel/history.py). */
module History {
  import opened Wrappers
  import opened Messages
  import opened Digests
  import opened SkewList

  datatype RunHistory = RunHistory(digits: Digits<Message>, count: nat, digest: Digest, first: Message)

  /** The conversation a history stands for, oldest message first. */
  function Model(h: RunHistory): seq<Message> { Reverse(NewestFirst(h.digits)) }

  predicate Valid(h: RunHistory) {
    && Skew(h.digits) && h.count == |Model(h)| > 0
    && h.digest == HistoryDigest(Model(h)) && h.first == Model(h)[0]
  }

  lemma ConsAppends(d: Digits<Message>, m: Message)
    ensures Reverse(NewestFirst(Cons(d, m))) == Reverse(NewestFirst(d)) + [m]
  {
    ConsHolds(d, m);
    assert ([m] + NewestFirst(d))[1..] == NewestFirst(d);
  }

  /** RunHistory.__init__: an empty history is refused. */
  method FromMessages(messages: seq<Message>) returns (r: Result<RunHistory, string>)
    ensures messages == [] ==> r == Err("run history must not be empty")
    ensures messages != [] ==> r.Ok? && Valid(r.value) && Model(r.value) == messages
  {
    if messages == [] { return Err("run history must not be empty"); }
    var digits: Digits<Message> := Nil;
    var digest := EmptyHistory;
    for i := 0 to |messages|
      invariant Skew(digits) && Reverse(NewestFirst(digits)) == messages[..i]
      invariant digest == HistoryDigest(messages[..i])
    {
      ConsKeepsSkew(digits, messages[i]);
      ConsAppends(digits, messages[i]);
      assert messages[..i + 1] == messages[..i] + [messages[i]];
      assert messages[..i + 1][..i] == messages[..i];
      digest := HistoryAppend(digest, messages[i]);
      digits := Cons(digits, messages[i]);
    }
    assert messages[..|messages|] == messages;
    r := Ok(RunHistory(digits, |messages|, digest, messages[0]));
  }

  /** _append: shares the old structure and holds the old messages, then the new. */
  method Append(h: RunHistory, messages: seq<Message>, digest: Digest) returns (r: RunHistory)
    requires Valid(h) && digest == ExtendHistory(h.digest, messages)
    ensures Valid(r) && Model(r) == Model(h) + messages
    ensures messages == [] ==> r == h
  {
    if messages == [] { return h; }
    var digits := h.digits;
    for i := 0 to |messages|
      invariant Skew(digits) && Reverse(NewestFirst(digits)) == Model(h) + messages[..i]
    {
      ConsKeepsSkew(digits, messages[i]);
      ConsAppends(digits, messages[i]);
      assert Model(h) + messages[..i] + [messages[i]] == Model(h) + messages[..i + 1];
      digits := Cons(digits, messages[i]);
    }
    assert messages[..|messages|] == messages;
    ExtendTwice(EmptyHistory, Model(h), messages);
    r := RunHistory(digits, h.count + |messages|, digest, h.first);
  }

  /** __getitem__ with an integer: negative positions count from the end. */
  method Item(h: RunHistory, index: int) returns (m: Option<Message>, ghost hops: nat, ghost levels: nat)
    requires Valid(h)
    ensures var i := if index < 0 then index + |Model(h)| else index;
      m == if 0 <= i < |Model(h)| then Some(Model(h)[i]) else None
    ensures Pow2(hops) <= |Model(h)| + 1 && Pow2(levels) <= |Model(h)| + 1
  {
    var i := if index < 0 then index + h.count else index;
    hops, levels := 0, 0;
    if i < 0 || i >= h.count { return None, 0, 0; }
    if i == 0 { return Some(h.first), 0, 0; }
    var found;
    found, hops, levels := LookupReverse(h.digits, h.count - i - 1);
    ReverseAt(NewestFirst(h.digits), i);
    m := Some(found);
  }

  /** __iter__: every message, oldest first. */
  method Items(h: RunHistory) returns (messages: seq<Message>)
    requires Valid(h)
    ensures messages == Model(h)
  {
    messages := Window(h.digits, h.count, 0, h.count);
  }

  /** slice.indices: one bound for a length and a step; one left out stands for the end it is on. */
  function SliceBound(bound: Option<int>, count: nat, step: int, first: bool): int {
    var low, high := if step > 0 then 0 else -1, if step > 0 then count else count - 1;
    match bound
    case None => if first <==> step > 0 then low else high
    case Some(b) =>
      var at := if b < 0 then b + count else b;
      if at < low then low else if at > high then high else at
  }

  /** The items from one position on, a step apart, up to another that is left out. */
  function Stepped<T>(items: seq<T>, start: int, stop: int, step: int): seq<T>
    requires step != 0 && (if step > 0 then 0 <= start && stop <= |items| else start < |items| && -1 <= stop)
    decreases if step > 0 then stop - start else start - stop
  {
    if (step > 0 && start < stop) || (step < 0 && start > stop)
    then [items[start]] + Stepped(items, start + step, stop, step)
    else []
  }

  /** Item k is k steps from the start, and the one after the last would be past the stop. */
  lemma {:induction false} SteppedAt<T>(items: seq<T>, start: int, stop: int, step: int, k: nat)
    requires step != 0 && (if step > 0 then 0 <= start && stop <= |items| else start < |items| && -1 <= stop)
    ensures k < |Stepped(items, start, stop, step)| <==>
      if step > 0 then start + k * step < stop else start + k * step > stop
    ensures k < |Stepped(items, start, stop, step)| ==>
      0 <= start + k * step < |items| && Stepped(items, start, stop, step)[k] == items[start + k * step]
    decreases k
  {
    if k > 0 {
      assert start + step + (k - 1) * step == start + k * step;
      if (step > 0 && start < stop) || (step < 0 && start > stop) {
        SteppedAt(items, start + step, stop, step, k - 1);
      } else if step > 0 {
        assert k * step >= 0;
      } else {
        assert k * step <= 0;
      }
    }
  }

  lemma {:induction false} SteppedByOne<T>(items: seq<T>, start: int, stop: int)
    requires 0 <= start && 0 <= stop <= |items|
    ensures Stepped(items, start, stop, 1) == if start <= stop then items[start..stop] else []
    decreases stop - start
  {
    if start < stop {
      SteppedByOne(items, start + 1, stop);
      assert items[start..stop] == [items[start]] + items[start + 1..stop];
    }
  }

  /** __getitem__ with a slice: a window when the step is 1, else the items of a tuple, and a step of 0 is refused. */
  method Slice(h: RunHistory, start: Option<int>, stop: Option<int>, step: int) returns (r: Option<seq<Message>>)
    requires Valid(h)
    ensures step == 0 ==> r.None?
    ensures step != 0 ==>
      var a, b := SliceBound(start, |Model(h)|, step, true), SliceBound(stop, |Model(h)|, step, false);
      r == Some(Stepped(Model(h), a, b, step))
  {
    if step == 0 { return None; }
    var a, b := SliceBound(start, h.count, step, true), SliceBound(stop, h.count, step, false);
    if step == 1 {
      SteppedByOne(Model(h), a, b);
      var window := Window(h.digits, h.count, a, b);
      return Some(window);
    }
    var items := Items(h);
    var found := StepItems(items, a, b, step);
    r := Some(found);
  }

  /** The items of a tuple a step apart. */
  method StepItems<T>(items: seq<T>, start: int, stop: int, step: int) returns (found: seq<T>)
    requires step != 0 && (if step > 0 then 0 <= start && stop <= |items| else start < |items| && -1 <= stop)
    ensures found == Stepped(items, start, stop, step)
  {
    found := [];
    var at := start;
    while (step > 0 && at < stop) || (step < 0 && at > stop)
      invariant if step > 0 then 0 <= at else at < |items|
      invariant found + Stepped(items, at, stop, step) == Stepped(items, start, stop, step)
      decreases if step > 0 then stop - at else at - stop
    {
      found, at := found + [items[at]], at + step;
    }
    assert found + [] == found;
  }

  /** iter_tail: the trailing messages in chronological order; a negative count is refused. */
  method Tail(h: RunHistory, count: int) returns (r: Option<seq<Message>>)
    requires Valid(h)
    ensures r == if count < 0 then None
                 else if count <= |Model(h)| then Some(Model(h)[|Model(h)| - count..])
                 else Some(Model(h))
  {
    if count < 0 { return None; }
    var wanted := if count < h.count then count else h.count;
    var newest := NewestTake(h.digits, wanted);
    ReverseClip(NewestFirst(h.digits), 0, wanted);
    ClipIsSlice(NewestFirst(h.digits), 0, wanted);
    var messages := Reverse(newest);
    assert messages == if count <= |Model(h)| then Model(h)[|Model(h)| - count..] else Model(h);
    r := Some(messages);
  }

  /** iter_window: a half-open window, refused unless it lies within the history. */
  method IterWindow(h: RunHistory, start: int, stop: int) returns (r: Option<seq<Message>>)
    requires Valid(h)
    ensures r == if 0 <= start <= stop <= |Model(h)| then Some(Model(h)[start..stop]) else None
  {
    if start < 0 || stop < start || stop > h.count { return None; }
    var messages := Window(h.digits, h.count, start, stop);
    r := Some(messages);
  }

  /** __eq__: count and digest first, then message by message. */
  method Equal(a: RunHistory, b: RunHistory) returns (same: bool)
    requires Valid(a) && Valid(b)
    ensures same <==> Model(a) == Model(b)
  {
    if a.count != b.count || a.digest != b.digest { return false; }
    HistoryDigestInjective(Model(a), Model(b));
    same := true;
    var left := Window(a.digits, a.count, 0, a.count);
    var right := Window(b.digits, b.count, 0, b.count);
    for i := 0 to |left|
      invariant same
    {
      if left[i] != right[i] { return false; }
    }
  }
}
