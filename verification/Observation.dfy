/**
 * How an invocation numbers, buffers and drops its events (kernel/invocation.py),
 * and that whatever reaches an observer of a whole run is an accepted trace.
 */
module Observation {
  import opened Trace
  import opened Verifier
  import opened Soundness
  import opened Rounds
  import opened Runs

  // ------------------------------------------------------- thinned streams

  /** Appending to both sides, or a lossy event to the full side only. */
  lemma {:induction false} ThinnedAppend(all: seq<Event>, kept: seq<Event>, e: Event)
    requires Thinned(all, kept)
    ensures Thinned(all + [e], kept + [e])
    ensures Lossy(e) ==> Thinned(all + [e], kept)
    decreases |all|
  {
    if all == [] {
      assert [e][1..] == [];
    } else {
      assert (all + [e])[1..] == all[1..] + [e];
      if kept != [] && kept[0] == all[0] && Thinned(all[1..], kept[1..]) {
        assert (kept + [e])[1..] == kept[1..] + [e];
        ThinnedAppend(all[1..], kept[1..], e);
      } else {
        ThinnedAppend(all[1..], kept, e);
      }
    }
  }

  /** What is kept of a stream that ends in a kept event: the rest, thinned, and that event. */
  lemma {:induction false} ThinnedLast(all: seq<Event>, last: Event, kept: seq<Event>)
    requires Thinned(all + [last], kept) && !Lossy(last)
    ensures kept != [] && kept[|kept| - 1] == last && Thinned(all, kept[..|kept| - 1])
    decreases |all|
  {
    var whole := all + [last];
    if all == [] {
      assert whole[1..] == [] && kept[1..] == [];
      assert kept == [last];
    } else {
      assert whole[1..] == all[1..] + [last];
      if kept != [] && kept[0] == whole[0] && Thinned(whole[1..], kept[1..]) {
        ThinnedLast(all[1..], last, kept[1..]);
        assert kept[..|kept| - 1][1..] == kept[1..][..|kept| - 2];
      } else {
        ThinnedLast(all[1..], last, kept);
      }
    }
  }

  /** Thinning keeps an accepted whole stream accepted. */
  lemma ThinnedStreamIsAccepted(header: RequestKind, first: Event, middle: seq<Event>, last: Event, kept: seq<Event>)
    requires first.InvocationStarted? && last.InvocationStopped?
    requires VerifyEvents(header, [first] + middle + [last]).Ok? && Thinned([first] + middle + [last], kept)
    ensures |kept| >= 2 && VerifyEvents(header, kept) == VerifyEvents(header, [first] + middle + [last])
  {
    var all := [first] + middle + [last];
    ThinnedLast([first] + middle, last, kept);
    var front := kept[..|kept| - 1];
    assert ([first] + middle)[1..] == middle && front != [] && front[0] == first;
    assert Thinned(middle, front[1..]);
    assert all[1..|all| - 1] == middle && kept[1..|kept| - 1] == front[1..];
    ThinnedIsAccepted(OnStart(header, first).value, middle, front[1..]);
  }

  // ------------------------------------------------------------ the buffer

  function LossyCount(entries: seq<TraceEntry>): nat {
    if entries == [] then 0 else (if Lossy(entries[0].event) then 1 else 0) + LossyCount(entries[1..])
  }

  lemma {:induction false} LossyAppend(entries: seq<TraceEntry>, e: TraceEntry)
    ensures LossyCount(entries + [e]) == LossyCount(entries) + if Lossy(e.event) then 1 else 0
  {
    if entries == [] {
      assert [e][1..] == [];
    } else {
      assert (entries + [e])[1..] == entries[1..] + [e];
      LossyAppend(entries[1..], e);
    }
  }

  /** Entries carry the numbers 1, 2, 3 and so on. */
  predicate Numbered(entries: seq<TraceEntry>) { forall i :: 0 <= i < |entries| ==> entries[i].sequence == i + 1 }

  /** The event side of an invocation; `offered` and `taken` remember what went in and out. */
  class Invocation {
    const lossyLimit: nat
    var queue: seq<TraceEntry>
    var lossyQueued: int
    var sequence: nat
    ghost var offered: seq<Event>
    ghost var taken: seq<TraceEntry>

    ghost predicate Valid()
      reads this
    {
      && lossyQueued == LossyCount(queue) && 0 <= lossyQueued <= lossyLimit
      && sequence == |taken| + |queue| && Numbered(taken + queue)
      && Thinned(offered, Events(taken + queue))
    }

    constructor (limit: nat)
      requires limit >= 1
      ensures Valid() && lossyLimit == limit && queue == [] && taken == [] && offered == []
    {
      lossyLimit, queue, lossyQueued, sequence := limit, [], 0, 0;
      offered, taken := [], [];
    }

    /** _emit: only a lossy event is ever dropped, and only while the buffer is full of lossy ones. */
    method Emit(event: Event)
      requires Valid()
      modifies this
      ensures Valid() && offered == old(offered) + [event] && taken == old(taken)
      ensures queue == if Lossy(event) && old(LossyCount(queue)) == lossyLimit then old(queue)
                       else old(queue) + [TraceEntry(old(sequence) + 1, event)]
    {
      ThinnedAppend(offered, Events(taken + queue), event);
      offered := offered + [event];
      if Lossy(event) && lossyQueued >= lossyLimit { return; }
      LossyAppend(queue, TraceEntry(sequence + 1, event));
      EventsAppend(taken, queue, TraceEntry(sequence + 1, event));
      sequence := sequence + 1;
      if Lossy(event) { lossyQueued := lossyQueued + 1; }
      queue := queue + [TraceEntry(sequence, event)];
    }

    /** _iterate_events: the consumer takes the oldest entry. */
    method Take() returns (entry: TraceEntry)
      requires Valid() && queue != []
      modifies this
      ensures Valid() && offered == old(offered)
      ensures entry == old(queue[0]) && taken == old(taken) + [entry] && queue == old(queue[1..])
    {
      entry := queue[0];
      assert taken + queue == (taken + [entry]) + queue[1..];
      taken := taken + [entry];
      queue := queue[1..];
      if Lossy(entry.event) { lossyQueued := lossyQueued - 1; }
    }
  }

  lemma EventsAppend(taken: seq<TraceEntry>, queue: seq<TraceEntry>, e: TraceEntry)
    ensures Events(taken + (queue + [e])) == Events(taken + queue) + [e.event]
    ensures taken + (queue + [e]) == (taken + queue) + [e]
  {
    assert taken + (queue + [e]) == (taken + queue) + [e];
  }

  /** Numbered entries of a thinned accepted stream are an accepted trace. */
  lemma ThinnedTraceIsAccepted(header: RequestKind, first: Event, middle: seq<Event>, last: Event,
                               entries: seq<TraceEntry>)
    requires first.InvocationStarted? && last.InvocationStopped? && Numbered(entries)
    requires VerifyEvents(header, [first] + middle + [last]).Ok?
    requires Thinned([first] + middle + [last], Events(entries))
    ensures |entries| >= 2 && VerifyTrace(RunTrace(header, entries)).Ok?
  {
    ThinnedStreamIsAccepted(header, first, middle, last, Events(entries));
  }

  /**
   * Whatever reaches the observer of an invocation that stops on its own, with
   * lossy events dropped wherever the buffer was full, is an accepted trace.
   */
  lemma ObservedIsAccepted(cfg: Config, q: Request, o: Opening, rounds: seq<Round>, entries: seq<TraceEntry>)
    requires ValidRequest(q) && LegalScript(cfg, q, o, rounds)
    requires var out := Invoke(cfg, q, o, rounds);
      out.Moved? && !out.loop.checkpoint.snapshot.state.Active? && Thinned(Stream(q, out), Events(entries))
    requires Numbered(entries)
    ensures |entries| >= 2 && VerifyTrace(RunTrace(KindOfRequest(q), entries)).Ok?
  {
    var out := Invoke(cfg, q, o, rounds);
    StreamIsAccepted(cfg, q, o, rounds);
    ThinnedTraceIsAccepted(KindOfRequest(q), StartEvent(q), out.events, StopEvent(out.loop), entries);
  }
}
