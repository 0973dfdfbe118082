/**
 * Conservation of tool calls: what a history requests, what it answers, and
 * what the batches of a run take (kernel/_history.py, _engine/tooling.py).
 */
module Calls {
  import opened Wrappers
  import opened Messages
  import opened State
  import opened Linkage
  import opened Checkpoints
  import opened Views
  import opened Trace
  import opened Verifier
  import opened Soundness

  // --------------------------------------------------------- in a history

  /** Every call id a history asks the runtime for, in order. */
  function RequestedIds(messages: seq<Message>): seq<Text> {
    if messages == [] then [] else Ids(CallsOf(messages[0])) + RequestedIds(messages[1..])
  }

  /** Every call id a history has a tool message for, in order. */
  function AnsweredIds(messages: seq<Message>): seq<Text> {
    if messages == [] then []
    else (if messages[0].role == Tool && messages[0].toolCallId.Some? then [messages[0].toolCallId.value] else [])
         + AnsweredIds(messages[1..])
  }

  lemma StepConserves(l: Linked, m: Message)
    requires LinkStep(l, m).Ok?
    ensures var next := LinkStep(l, m).value;
      Ids(l.unresolved) + Ids(CallsOf(m)) == AnsweredIds([m]) + Ids(next.unresolved)
  {
    hide Unique, ToSet, RuntimeCalls;
    AnsweredAlone(m);
    if l.unresolved != [] {
      assert Ids(l.unresolved) == [l.unresolved[0].id] + Ids(l.unresolved[1..]);
    } else {
      assert Ids(l.unresolved) == [] && [] + Ids(CallsOf(m)) == Ids(CallsOf(m));
    }
  }

  lemma AnsweredAlone(m: Message)
    ensures AnsweredIds([m]) == if m.role == Tool && m.toolCallId.Some? then [m.toolCallId.value] else []
  {
    assert [m][1..] == [];
  }

  lemma AnsweredOne(m: Message, rest: seq<Message>)
    ensures AnsweredIds([m] + rest) == AnsweredIds([m]) + AnsweredIds(rest)
  {
    assert ([m] + rest)[1..] == rest && [m][1..] == [];
  }

  /** (a + b) + c == d + e and e + c' == f regrouped, for the step below. */
  lemma Regroup(open: seq<Text>, asked: seq<Text>, answered: seq<Text>, middle: seq<Text>,
                laterAsked: seq<Text>, laterAnswered: seq<Text>, left: seq<Text>)
    requires open + asked == answered + middle && middle + laterAsked == laterAnswered + left
    ensures open + (asked + laterAsked) == (answered + laterAnswered) + left
  {
    assert open + (asked + laterAsked) == (open + asked) + laterAsked;
    assert (answered + middle) + laterAsked == answered + (middle + laterAsked);
    assert answered + (laterAnswered + left) == (answered + laterAnswered) + left;
  }

  /**
   * In a linked history the requested ids are the answered ones, in the same
   * order, followed by those still unresolved.
   */
  lemma {:induction false} LinkConserves(l: Linked, messages: seq<Message>)
    requires LinkFrom(l, messages).Ok?
    ensures Ids(l.unresolved) + RequestedIds(messages)
         == AnsweredIds(messages) + Ids(LinkFrom(l, messages).value.unresolved)
    decreases |messages|
  {
    if messages == [] {
      assert Ids(l.unresolved) + [] == [] + Ids(l.unresolved);
    } else {
      var m, rest := messages[0], messages[1..];
      var next := LinkStep(l, m).value;
      StepConserves(l, m);
      LinkConserves(next, rest);
      assert messages == [m] + rest;
      AnsweredOne(m, rest);
      Regroup(Ids(l.unresolved), Ids(CallsOf(m)), AnsweredIds([m]), Ids(next.unresolved), RequestedIds(rest),
              AnsweredIds(rest), Ids(LinkFrom(next, rest).value.unresolved));
    }
  }

  predicate NewIds(l: Linked, ids: seq<Text>) { Unique(ids) && ToSet(ids) !! l.seen }

  lemma UniqueJoin(l: Linked, a: seq<Text>, next: Linked, b: seq<Text>)
    requires NewIds(l, a) && NewIds(next, b) && next.seen == l.seen + ToSet(a)
    ensures NewIds(l, a + b) && l.seen + ToSet(a + b) == next.seen + ToSet(b)
  {
    var all := a + b;
    forall i, j | 0 <= i < j < |all| ensures all[i] != all[j] {
      if i < |a| <= j { assert a[i] in ToSet(a) && b[j - |a|] in ToSet(b); }
    }
    forall x | x in ToSet(all) ensures x in ToSet(a) + ToSet(b) {
      var i :| 0 <= i < |all| && all[i] == x;
      if i < |a| { assert a[i] == x; } else { assert b[i - |a|] == x; }
    }
    forall x | x in ToSet(a) + ToSet(b) ensures x in ToSet(all) {
      if x in ToSet(a) { var i :| 0 <= i < |a| && a[i] == x; assert all[i] == x; }
      else { var i :| 0 <= i < |b| && b[i] == x; assert all[|a| + i] == x; }
    }
  }

  lemma NothingShared(a: set<Text>, b: set<Text>)
    requires a * b == {}
    ensures a !! b
  {
    forall x | x in a ensures x !in b { assert x in b ==> x in a * b; }
  }

  /** No id is requested twice, and the seen ids are exactly the requested ones. */
  lemma {:induction false} LinkRequestsOnce(l: Linked, messages: seq<Message>)
    requires LinkFrom(l, messages).Ok?
    ensures NewIds(l, RequestedIds(messages))
    ensures LinkFrom(l, messages).value.seen == l.seen + ToSet(RequestedIds(messages))
    decreases |messages|
  {
    if messages != [] {
      var m := messages[0];
      var next := LinkStep(l, m).value;
      assert CallsOf(m) == [] ==> ToSet(Ids(CallsOf(m))) == {};
      assert ToSet(Ids(CallsOf(m))) * l.seen == {};
      NothingShared(ToSet(Ids(CallsOf(m))), l.seen);
      LinkRequestsOnce(next, messages[1..]);
      UniqueJoin(l, Ids(CallsOf(m)), next, RequestedIds(messages[1..]));
    }
  }

  /**
   * In every valid snapshot each requested call has exactly one tool message,
   * in the order of the requests, except the pending ones, which come last and
   * have none. A run that ended as failed or limited may leave some unanswered.
   */
  lemma SnapshotConserves(s: Snapshot)
    requires ValidSnapshot(s)
    ensures Unique(RequestedIds(s.history))
    ensures OwedCalls(s.state).Some? ==>
      RequestedIds(s.history) == AnsweredIds(s.history) + Ids(OwedCalls(s.state).value)
    ensures OwedCalls(s.state).None? && !s.state.Failed? && !s.state.Limited? ==>
      RequestedIds(s.history) == AnsweredIds(s.history)
    ensures AnsweredIds(s.history) <= RequestedIds(s.history)
  {
    hide LinkFrom, RequestedIds, AnsweredIds;
    LinkConserves(NOTHING_LINKED, s.history);
    LinkRequestsOnce(NOTHING_LINKED, s.history);
    assert [] + RequestedIds(s.history) == RequestedIds(s.history);
    var left := Link(s.history).value.unresolved;
    if left == [] { assert AnsweredIds(s.history) + Ids(left) == AnsweredIds(s.history); }
  }

  // ------------------------------------------------------------- over a run

  /** The ids the tool batches of some commits took, in order. */
  function TakenIds(commits: seq<Event>): seq<Text>
    requires forall i :: 0 <= i < |commits| ==> commits[i].CheckpointCommitted?
  {
    if commits == [] then []
    else (if commits[0].fact.ToolBatch? then commits[0].fact.callIds else []) + TakenIds(commits[1..])
  }

  /** The pending ids after some commits. */
  function PendingEnd(ids: seq<Text>, commits: seq<Event>): seq<Text>
    requires forall i :: 0 <= i < |commits| ==> commits[i].CheckpointCommitted?
    decreases |commits|
  {
    if commits == [] then ids else PendingEnd(PendingAfter(commits[0].fact, ids), commits[1..])
  }

  /** The commits between one model turn and the next, while the run goes on. */
  predicate WithinTurn(commits: seq<Event>) {
    forall i :: 0 <= i < |commits| ==>
      && commits[i].CheckpointCommitted?
      && var f := commits[i].fact;
        !f.ModelTurn? && !f.Started? && (f.Control? ==> f.decision.SuspendedControl?)
  }

  /**
   * After a model turn that asked for some calls, the tool batches of a sound
   * chain of commits take a prefix of those calls in order, and what they have
   * not taken is still pending.
   */
  lemma {:induction false} BatchesConserve(before: RunView, ids: seq<Text>, commits: seq<Event>)
    requires WithinTurn(commits) && SoundChain(Some(before), ids, commits)
    ensures ids == TakenIds(commits) + PendingEnd(ids, commits)
    decreases |commits|
  {
    if commits == [] {
      assert [] + ids == ids;
    } else {
      var f, after := commits[0].fact, commits[0].after;
      var rest := PendingAfter(f, ids);
      BatchesConserve(after, rest, commits[1..]);
      var taken := if f.ToolBatch? then f.callIds else [];
      assert ids == taken + rest;
      assert taken + (TakenIds(commits[1..]) + PendingEnd(rest, commits[1..]))
          == (taken + TakenIds(commits[1..])) + PendingEnd(rest, commits[1..]);
    }
  }

  /** The view a chain of commits ends in, and what it says is pending. */
  lemma {:induction false} EndDenotes(before: RunView, ids: seq<Text>, commits: seq<Event>)
    requires WithinTurn(commits) && SoundChain(Some(before), ids, commits) && commits != []
    ensures Denotes(commits[|commits| - 1].after.state, PendingEnd(ids, commits))
    decreases |commits|
  {
    if |commits| > 1 {
      EndDenotes(commits[0].after, PendingAfter(commits[0].fact, ids), commits[1..]);
      assert commits[1..][|commits| - 2] == commits[|commits| - 1];
    }
  }

  /** Once Planning is reached again, the batches took all of the turn's calls. */
  lemma TurnIsComplete(before: RunView, ids: seq<Text>, commits: seq<Event>)
    requires WithinTurn(commits) && SoundChain(Some(before), ids, commits) && commits != []
    requires commits[|commits| - 1].after.state.PlanningView?
    ensures TakenIds(commits) == ids
  {
    BatchesConserve(before, ids, commits);
    EndDenotes(before, ids, commits);
    assert TakenIds(commits) + [] == TakenIds(commits);
  }

  // ------------------------------------------- over several invocations of a run

  function CommitsOf(trace: RunTrace): (commits: seq<Event>)
    requires |trace.entries| >= 2
    ensures forall i :: 0 <= i < |commits| ==> commits[i].CheckpointCommitted?
  {
    CommitsCommit(Events(trace.entries)[1..|trace.entries| - 1]);
    Commits(Events(trace.entries)[1..|trace.entries| - 1])
  }

  function ViewAfter(before: Option<RunView>, commits: seq<Event>): Option<RunView>
    requires forall i :: 0 <= i < |commits| ==> commits[i].CheckpointCommitted?
  {
    if commits == [] then before else Some(commits[|commits| - 1].after)
  }

  lemma {:induction false} CommitsCommit(events: seq<Event>)
    ensures forall i :: 0 <= i < |Commits(events)| ==> Commits(events)[i].CheckpointCommitted?
    decreases |events|
  {
    if events != [] { CommitsCommit(events[1..]); }
  }

  /** Accepted traces of one run: each starts at the view the one before it left. */
  ghost predicate Successors(before: Option<RunView>, traces: seq<RunTrace>)
    decreases |traces|
  {
    traces != [] ==>
      && |traces[0].entries| >= 2 && VerifyTrace(traces[0]).Ok?
      && traces[0].entries[0].event.InvocationStarted? && traces[0].entries[0].event.starting == before
      && Successors(ViewAfter(before, CommitsOf(traces[0])), traces[1..])
  }

  function AllCommits(traces: seq<RunTrace>): seq<Event>
    requires forall i :: 0 <= i < |traces| ==> |traces[i].entries| >= 2
  {
    if traces == [] then [] else CommitsOf(traces[0]) + AllCommits(traces[1..])
  }

  lemma {:induction false} SuccessorsAreTraces(before: Option<RunView>, traces: seq<RunTrace>)
    requires Successors(before, traces)
    ensures forall i :: 0 <= i < |traces| ==> |traces[i].entries| >= 2
    decreases |traces|
  {
    if traces != [] {
      SuccessorsAreTraces(ViewAfter(before, CommitsOf(traces[0])), traces[1..]);
      forall i | 0 <= i < |traces| ensures |traces[i].entries| >= 2 {
        if i > 0 { assert traces[i] == traces[1..][i - 1]; }
      }
    }
  }

  lemma {:induction false} ChainCommits(before: Option<RunView>, ids: seq<Text>, commits: seq<Event>)
    requires SoundChain(before, ids, commits)
    ensures forall i :: 0 <= i < |commits| ==> commits[i].CheckpointCommitted?
    decreases |commits|
  {
    if commits != [] {
      var pending := if before.None? then [] else PendingAfter(commits[0].fact, ids);
      ChainCommits(Some(commits[0].after), pending, commits[1..]);
      forall i | 0 <= i < |commits| ensures commits[i].CheckpointCommitted? {
        if i > 0 { assert commits[i] == commits[1..][i - 1]; }
      }
    }
  }

  /** Where a chain ends is denoted by the pending ids it leaves. */
  lemma {:induction false} ChainDenotes(before: Option<RunView>, ids: seq<Text>, commits: seq<Event>)
    requires SoundChain(before, ids, commits) && (before.Some? ==> Denotes(before.value.state, ids))
    ensures forall i :: 0 <= i < |commits| ==> commits[i].CheckpointCommitted?
    ensures ViewAfter(before, commits).Some?
      ==> Denotes(ViewAfter(before, commits).value.state, PendingEnd(ids, commits))
    decreases |commits|
  {
    ChainCommits(before, ids, commits);
    if commits != [] {
      ChainDenotes(Some(commits[0].after), PendingAfter(commits[0].fact, ids), commits[1..]);
      if |commits| > 1 { assert commits[1..][|commits| - 2] == commits[|commits| - 1]; }
    }
  }

  /** A chain that goes on where another ends makes one chain with it. */
  lemma {:induction false} ChainsJoin(before: Option<RunView>, ids: seq<Text>, a: seq<Event>, b: seq<Event>)
    requires SoundChain(before, ids, a) && forall i :: 0 <= i < |a| ==> a[i].CheckpointCommitted?
    requires SoundChain(ViewAfter(before, a), PendingEnd(ids, a), b)
    ensures SoundChain(before, ids, a + b)
    decreases |a|
  {
    if a == [] {
      assert a + b == b;
    } else {
      assert (a + b)[0] == a[0] && (a + b)[1..] == a[1..] + b;
      if |a| > 1 { assert a[1..][|a| - 2] == a[|a| - 1]; }
      ChainsJoin(Some(a[0].after), PendingAfter(a[0].fact, ids), a[1..], b);
    }
  }

  /** Accepted traces of one run, suspended and resumed as often as it was, are one sound chain. */
  lemma {:induction false} InvocationsAreSound(before: Option<RunView>, ids: seq<Text>, traces: seq<RunTrace>)
    requires Successors(before, traces) && (before.Some? ==> Denotes(before.value.state, ids))
    ensures forall i :: 0 <= i < |traces| ==> |traces[i].entries| >= 2
    ensures SoundChain(before, ids, AllCommits(traces))
    decreases |traces|
  {
    SuccessorsAreTraces(before, traces);
    if traces != [] {
      hide VerifyTrace, Denotes;
      var first := CommitsOf(traces[0]);
      AcceptedTraceIsSound(traces[0], ids);
      ChainDenotes(before, ids, first);
      InvocationsAreSound(ViewAfter(before, first), PendingEnd(ids, first), traces[1..]);
      ChainsJoin(before, ids, first, AllCommits(traces[1..]));
    }
  }

  /** A stretch of a chain after one of its commits is a chain from there. */
  lemma {:induction false} ChainStretch(before: Option<RunView>, ids: seq<Text>, commits: seq<Event>, k: nat, m: nat)
    requires SoundChain(before, ids, commits) && k < m <= |commits|
    requires commits[k].CheckpointCommitted? && commits[k].fact.ModelTurn?
    ensures SoundChain(Some(commits[k].after), PendingAfter(commits[k].fact, []), commits[k + 1..m])
    decreases |commits|
  {
    var next := if before.None? then [] else PendingAfter(commits[0].fact, ids);
    if k == 0 {
      ChainPrefix(Some(commits[0].after), next, commits[1..], m - 1);
      assert commits[1..][..m - 1] == commits[1..m];
    } else {
      ChainStretch(Some(commits[0].after), next, commits[1..], k - 1, m - 1);
      assert commits[1..][k..m - 1] == commits[k + 1..m];
    }
  }

  lemma {:induction false} ChainPrefix(before: Option<RunView>, ids: seq<Text>, commits: seq<Event>, m: nat)
    requires SoundChain(before, ids, commits) && m <= |commits|
    ensures SoundChain(before, ids, commits[..m])
    decreases |commits|
  {
    if m > 0 {
      var pending := if before.None? then [] else PendingAfter(commits[0].fact, ids);
      ChainPrefix(Some(commits[0].after), pending, commits[1..], m - 1);
      assert commits[..m][0] == commits[0] && commits[..m][1..] == commits[1..][..m - 1];
    }
  }

  /**
   * Over a run of any number of invocations: between a model turn and the next,
   * the tool batches take a prefix of the turn's calls in order, the rest is
   * pending, and once Planning is reached they have taken all.
   */
  lemma RunConservesCalls(before: Option<RunView>, ids: seq<Text>, traces: seq<RunTrace>, k: nat, m: nat)
    requires Successors(before, traces) && (before.Some? ==> Denotes(before.value.state, ids))
    requires forall i :: 0 <= i < |traces| ==> |traces[i].entries| >= 2
    requires k < m <= |AllCommits(traces)|
    requires AllCommits(traces)[k].CheckpointCommitted? && AllCommits(traces)[k].fact.ModelTurn?
    requires WithinTurn(AllCommits(traces)[k + 1..m])
    ensures var turn, batches := PendingAfter(AllCommits(traces)[k].fact, []), AllCommits(traces)[k + 1..m];
      && turn == TakenIds(batches) + PendingEnd(turn, batches)
      && (batches != [] && batches[|batches| - 1].after.state.PlanningView? ==> TakenIds(batches) == turn)
  {
    hide Successors, Denotes;
    var commits := AllCommits(traces);
    InvocationsAreSound(before, ids, traces);
    ChainStretch(before, ids, commits, k, m);
    var view, turn, batches := commits[k].after, PendingAfter(commits[k].fact, []), commits[k + 1..m];
    BatchesConserve(view, turn, batches);
    if batches != [] && batches[|batches| - 1].after.state.PlanningView? { TurnIsComplete(view, turn, batches); }
  }
}
