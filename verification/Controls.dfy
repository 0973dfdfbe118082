/**
 * The control inbox of an invocation, and awaiting an effect that controls may
 * interrupt (kernel/control.py, _engine/deadline.py).
 */
module Controls {
  import opened Wrappers
  import opened Messages
  import opened State
  import opened Changes
  import opened ToolExecution

  /** The first pause of some controls. */
  function FirstPauseOf(controls: seq<Control>): Option<Suspension> {
    if controls == [] then None
    else if controls[0].PauseControl? then Some(controls[0].suspension)
    else FirstPauseOf(controls[1..])
  }

  /** Their inserts, in order. */
  function InsertsOf(controls: seq<Control>): seq<Insert> {
    if controls == [] then []
    else (if controls[0].InsertControl? then [controls[0].insert] else []) + InsertsOf(controls[1..])
  }

  /** The calls they ask to cancel, in order. */
  function Cancels(controls: seq<Control>): seq<Text> {
    if controls == [] then []
    else (if controls[0].CancelControl? then [controls[0].callId] else []) + Cancels(controls[1..])
  }

  /** The first pause is the one that no pause comes before. */
  lemma {:induction false} FirstPauseIs(controls: seq<Control>)
    ensures FirstPauseOf(controls).None? <==> forall i :: 0 <= i < |controls| ==> !controls[i].PauseControl?
    ensures forall i :: 0 <= i < |controls| && controls[i].PauseControl?
                        && (forall j :: 0 <= j < i ==> !controls[j].PauseControl?) ==>
              FirstPauseOf(controls) == Some(controls[i].suspension)
  {
    if controls != [] && !controls[0].PauseControl? {
      FirstPauseIs(controls[1..]);
      assert forall i :: 0 <= i < |controls| - 1 ==> controls[1..][i] == controls[i + 1];
      forall i
        | 0 <= i < |controls| && controls[i].PauseControl? && forall j :: 0 <= j < i ==> !controls[j].PauseControl?
        ensures FirstPauseOf(controls) == Some(controls[i].suspension)
      {
        assert controls[1..][i - 1] == controls[i];
      }
    }
  }

  lemma ControlsLead(c: Control, rest: seq<Control>)
    ensures InsertsOf([c] + rest) == (if c.InsertControl? then [c.insert] else []) + InsertsOf(rest)
    ensures Cancels([c] + rest) == (if c.CancelControl? then [c.callId] else []) + Cancels(rest)
  {
    assert ([c] + rest)[1..] == rest;
  }

  lemma NoControls()
    ensures InsertsOf([]) == [] && Cancels([]) == []
  {
  }

  /** What one more control adds to the inserts and the cancellations of those before it. */
  lemma {:induction false} ControlsGrow(controls: seq<Control>, c: Control)
    ensures InsertsOf(controls + [c]) == InsertsOf(controls) + (if c.InsertControl? then [c.insert] else [])
    ensures Cancels(controls + [c]) == Cancels(controls) + (if c.CancelControl? then [c.callId] else [])
  {
    hide InsertsOf, Cancels;
    if controls == [] {
      assert [] + [c] == [c] + [];
      ControlsLead(c, []);
      NoControls();
    } else {
      var first, rest := controls[0], controls[1..];
      assert controls == [first] + rest && controls + [c] == [first] + (rest + [c]);
      ControlsLead(first, rest);
      ControlsLead(first, rest + [c]);
      ControlsGrow(rest, c);
    }
  }

  /** What a control still has to be answered for: a cancellation is answered by being taken. */
  function Weight(c: Control): multiset<Control> { if c.CancelControl? then multiset{} else multiset{c} }

  function Owed(controls: seq<Control>): multiset<Control> {
    if controls == [] then multiset{} else Weight(controls[0]) + Owed(controls[1..])
  }

  lemma {:induction false} OwedJoin(a: seq<Control>, b: seq<Control>)
    ensures Owed(a + b) == Owed(a) + Owed(b)
  {
    if a == [] {
      assert a + b == b;
    } else {
      assert (a + b)[1..] == a[1..] + b;
      OwedJoin(a[1..], b);
    }
  }

  lemma OwedOne(c: Control)
    ensures Owed([c]) == Weight(c)
  {
    assert [c][1..] == [];
  }

  /** What is seen when the wait returns: what arrived meanwhile, and which of the two tasks is done. */
  datatype Wake = Wake(arrived: seq<Control>, effectDone: bool, controlDone: bool)

  datatype Awaited = EffectReturned | Interrupted(control: Control) | TimedOut

  /** Everything that arrives over some wakes. */
  function Arrivals(wakes: seq<Wake>): seq<Control> {
    if wakes == [] then [] else wakes[0].arrived + Arrivals(wakes[1..])
  }

  /** Inserts as the controls they came as. */
  function AsControls(inserts: seq<Insert>): seq<Control> {
    if inserts == [] then [] else [InsertControl(inserts[0])] + AsControls(inserts[1..])
  }

  lemma {:induction false} AsControlsJoin(a: seq<Insert>, b: seq<Insert>)
    ensures AsControls(a + b) == AsControls(a) + AsControls(b)
  {
    if a == [] {
      assert a + b == b;
    } else {
      assert (a + b)[1..] == a[1..] + b;
      AsControlsJoin(a[1..], b);
    }
  }

  predicate MayInterrupt(c: Control, defers: bool) { c.PauseControl? || (c.InsertControl? && !defers) }

  // ------------------------------------------------------- one wake of a wait

  /** What a closed inbox lets in is nothing. */
  function Come(closed: bool, arrived: seq<Control>): seq<Control> { if closed then [] else arrived }

  /** The control task has taken the oldest control. */
  predicate Taken(queue: seq<Control>, wake: Wake) { wake.controlDone && queue != [] }

  /** The effect is done in the same wake in which a control that may interrupt it was taken. */
  predicate Raced(queue: seq<Control>, wake: Wake, defers: bool) {
    Taken(queue, wake) && wake.effectDone && MayInterrupt(queue[0], defers)
  }

  /** The queue a wake leaves: a raced control goes to the back, or is dropped by a closed inbox. */
  function QueueAfter(queue: seq<Control>, wake: Wake, defers: bool, closed: bool): seq<Control> {
    if !Taken(queue, wake) then queue
    else if Raced(queue, wake, defers) then queue[1..] + Come(closed, [queue[0]])
    else queue[1..]
  }

  /** The insert a wake defers, if any. */
  function Deferral(queue: seq<Control>, wake: Wake, defers: bool): seq<Insert> {
    if Taken(queue, wake) && defers && queue[0].InsertControl? then [queue[0].insert] else []
  }

  /** How a wake ends the wait, if it does. */
  function EndOf(queue: seq<Control>, wake: Wake, defers: bool): Option<Awaited> {
    if wake.effectDone then Some(EffectReturned)
    else if !Taken(queue, wake) then Some(TimedOut)
    else if MayInterrupt(queue[0], defers) then Some(Interrupted(queue[0]))
    else None
  }

  // ------------------------------------------------------------ a whole wait

  datatype Waited = Waited(outcome: Awaited, queue: seq<Control>, deferred: seq<Insert>, used: nat)

  /** A wait over some wakes: how it ends, what it leaves and defers, and how many wakes it took. */
  function Wait(queue: seq<Control>, wakes: seq<Wake>, defers: bool, closed: bool): Waited
    decreases |wakes|
  {
    if wakes == [] then Waited(TimedOut, queue, [], 0)
    else
      var q := queue + Come(closed, wakes[0].arrived);
      var ending, left := EndOf(q, wakes[0], defers), QueueAfter(q, wakes[0], defers, closed);
      if ending.Some? then Waited(ending.value, left, Deferral(q, wakes[0], defers), 1)
      else After(Deferral(q, wakes[0], defers), 1, Wait(left, wakes[1..], defers, closed))
  }

  /** A wait continued, after some deferrals and wakes. */
  function After(deferred: seq<Insert>, used: nat, later: Waited): Waited {
    later.(deferred := deferred + later.deferred, used := used + later.used)
  }

  /** The cancellation a wake answers, if it takes one. */
  function AnsweredBy(queue: seq<Control>, wake: Wake): seq<Text> {
    if Taken(queue, wake) && queue[0].CancelControl? then [queue[0].callId] else []
  }

  /** The cancellations a wait answers. */
  function AnsweredIn(queue: seq<Control>, wakes: seq<Wake>, defers: bool, closed: bool): seq<Text>
    decreases |wakes|
  {
    if wakes == [] then []
    else
      var q := queue + Come(closed, wakes[0].arrived);
      AnsweredBy(q, wakes[0])
      + if EndOf(q, wakes[0], defers).Some? then []
        else AnsweredIn(QueueAfter(q, wakes[0], defers, closed), wakes[1..], defers, closed)
  }

  class ControlInbox {
    var queue: seq<Control>
    var cancelled: set<Text>
    var closed: bool

    constructor ()
      ensures queue == [] && cancelled == {} && !closed
    {
      queue, cancelled, closed := [], {}, false;
    }

    /** submit and submit_local */
    method Submit(c: Control)
      modifies this
      ensures queue == (if old(closed) then old(queue) else old(queue) + [c])
      ensures cancelled == old(cancelled) && closed == old(closed)
    {
      if !closed { queue := queue + [c]; }
    }

    /** poll */
    method Poll() returns (c: Option<Control>)
      modifies this`queue
      ensures old(queue) == [] ==> c.None? && queue == []
      ensures old(queue) != [] ==> c == Some(old(queue)[0]) && queue == old(queue)[1..]
    {
      if queue == [] { return None; }
      c := Some(queue[0]);
      queue := queue[1..];
    }

    /** close */
    method Close()
      modifies this
      ensures closed && cancelled == {} && queue == []
    {
      closed, cancelled := true, {};
      while queue != []
        decreases |queue|
        invariant closed && cancelled == {}
      {
        var _ := Poll();
      }
    }

    /** drain_pending_controls: the first pause, every insert in order, every cancellation answered. */
    method Drain() returns (pause: Option<Suspension>, inserts: seq<Insert>)
      modifies this
      ensures pause == FirstPauseOf(old(queue)) && inserts == InsertsOf(old(queue))
      ensures queue == [] && cancelled == old(cancelled) - ToSet(Cancels(old(queue))) && closed == old(closed)
    {
      pause, inserts := None, [];
      while queue != []
        invariant closed == old(closed)
        invariant FirstPauseOf(old(queue)) == if pause.Some? then pause else FirstPauseOf(queue)
        invariant inserts + InsertsOf(queue) == InsertsOf(old(queue))
        invariant cancelled - ToSet(Cancels(queue)) == old(cancelled) - ToSet(Cancels(old(queue)))
        decreases |queue|
      {
        CancelFirst(queue);
        var control := Poll();
        match control.value
        case PauseControl(suspension) => if pause.None? { pause := Some(suspension); }
        case InsertControl(insert) => inserts := inserts + [insert];
        case CancelControl(callId) => cancelled := cancelled - {callId};
      }
    }

    /** _consume_non_interrupting */
    method Consume(c: Control, defers: bool, deferred: seq<Insert>) returns (consumed: bool, next: seq<Insert>)
      modifies this`cancelled
      ensures consumed <==> c.CancelControl? || (c.InsertControl? && defers)
      ensures next == if c.InsertControl? && defers then deferred + [c.insert] else deferred
      ensures cancelled == if c.CancelControl? then old(cancelled) - {c.callId} else old(cancelled)
    {
      next := deferred;
      match c
      case CancelControl(callId) =>
        cancelled := cancelled - {callId};
        consumed := true;
      case InsertControl(insert) =>
        consumed := defers;
        if defers { next := deferred + [insert]; }
      case PauseControl(_) => consumed := false;
    }

    /** One wake of await_effect: how it ends the wait, if it does. */
    method WakeUp(wake: Wake, defers: bool, deferred: seq<Insert>) returns (outcome: Option<Awaited>, next: seq<Insert>)
      modifies this
      ensures var q := old(queue) + Come(old(closed), wake.arrived);
        && queue == QueueAfter(q, wake, defers, old(closed)) && closed == old(closed)
        && outcome == EndOf(q, wake, defers) && next == deferred + Deferral(q, wake, defers)
        && cancelled == old(cancelled) - ToSet(AnsweredBy(q, wake))
    {
      next := deferred;
      SmallSets("");
      if !closed { queue := queue + wake.arrived; }
      if !wake.controlDone || queue == [] { return Some(if wake.effectDone then EffectReturned else TimedOut), next; }
      var command := Poll();
      if command.value.CancelControl? { SmallSets(command.value.callId); }
      var consumed;
      consumed, next := Consume(command.value, defers, deferred);
      if wake.effectDone {
        if !consumed { Submit(command.value); }
        return Some(EffectReturned), next;
      }
      outcome := if consumed then None else Some(Interrupted(command.value));
    }

    /** await_effect, for any sequence of wakes. */
    method AwaitEffect(wakes: seq<Wake>, defers: bool) returns (outcome: Awaited, deferred: seq<Insert>, used: nat)
      modifies this
      ensures Waited(outcome, queue, deferred, used) == Wait(old(queue), wakes, defers, old(closed))
      ensures cancelled == old(cancelled) - ToSet(AnsweredIn(old(queue), wakes, defers, old(closed)))
      ensures closed == old(closed)
    {
      hide QueueAfter, EndOf, Deferral, Come, Taken, AnsweredBy, Wait, AnsweredIn, After;
      deferred, used := [], 0;
      ghost var answered: seq<Text> := [];
      NothingBefore(Wait(queue, wakes, defers, closed));
      assert wakes[0..] == wakes;
      while used < |wakes|
        invariant used <= |wakes| && closed == old(closed)
        invariant Wait(old(queue), wakes, defers, closed)
          == After(deferred, used, Wait(queue, wakes[used..], defers, closed))
        invariant AnsweredIn(old(queue), wakes, defers, closed)
          == answered + AnsweredIn(queue, wakes[used..], defers, closed)
        invariant cancelled == old(cancelled) - ToSet(answered)
        decreases |wakes| - used
      {
        ghost var more := AnsweredBy(queue + Come(closed, wakes[used].arrived), wakes[used]);
        JoinSets(answered, more);
        WaitMore(Wait(old(queue), wakes, defers, closed), AnsweredIn(old(queue), wakes, defers, closed), deferred, used,
                 answered, queue, wakes[used..], defers, closed);
        var ended, next := WakeUp(wakes[used], defers, deferred);
        answered := answered + more;
        assert wakes[used..][1..] == wakes[used + 1..];
        deferred, used := next, used + 1;
        if ended.Some? { return ended.value, deferred, used; }
      }
      NoWait(queue, defers, closed);
      NothingAfter(deferred, used, queue);
      assert wakes[used..] == [] && answered + [] == answered;
      outcome := TimedOut;
    }
  }

  /** A wait is its first wake and, unless that ends it, the wait from there on. */
  lemma WaitNext(queue: seq<Control>, wakes: seq<Wake>, defers: bool, closed: bool)
    requires wakes != []
    ensures var q := queue + Come(closed, wakes[0].arrived);
      var ending, left := EndOf(q, wakes[0], defers), QueueAfter(q, wakes[0], defers, closed);
      if ending.Some? then
        && Wait(queue, wakes, defers, closed) == Waited(ending.value, left, Deferral(q, wakes[0], defers), 1)
        && AnsweredIn(queue, wakes, defers, closed) == AnsweredBy(q, wakes[0])
      else
        && Wait(queue, wakes, defers, closed)
           == After(Deferral(q, wakes[0], defers), 1, Wait(left, wakes[1..], defers, closed))
        && AnsweredIn(queue, wakes, defers, closed)
           == AnsweredBy(q, wakes[0]) + AnsweredIn(left, wakes[1..], defers, closed)
  {
    hide EndOf, QueueAfter, Deferral, AnsweredBy;
  }

  lemma NothingBefore(w: Waited)
    ensures After([], 0, w) == w
  {
  }

  lemma NothingAfter(deferred: seq<Insert>, used: nat, queue: seq<Control>)
    ensures After(deferred, used, Waited(TimedOut, queue, [], 0)) == Waited(TimedOut, queue, deferred, used)
  {
  }

  /** The same for a wait that has deferred and answered something before. */
  lemma WaitMore(whole: Waited, all: seq<Text>, deferred: seq<Insert>, used: nat, answered: seq<Text>,
                 queue: seq<Control>, wakes: seq<Wake>, defers: bool, closed: bool)
    requires wakes != [] && whole == After(deferred, used, Wait(queue, wakes, defers, closed))
    requires all == answered + AnsweredIn(queue, wakes, defers, closed)
    ensures var q := queue + Come(closed, wakes[0].arrived);
      var ending, left := EndOf(q, wakes[0], defers), QueueAfter(q, wakes[0], defers, closed);
      var more, done := deferred + Deferral(q, wakes[0], defers), answered + AnsweredBy(q, wakes[0]);
      if ending.Some? then whole == Waited(ending.value, left, more, used + 1) && all == done
      else
        && whole == After(more, used + 1, Wait(left, wakes[1..], defers, closed))
        && all == done + AnsweredIn(left, wakes[1..], defers, closed)
  {
    hide QueueAfter, EndOf, Deferral, Come, AnsweredBy, Wait, AnsweredIn;
    WaitNext(queue, wakes, defers, closed);
  }

  lemma NoWait(queue: seq<Control>, defers: bool, closed: bool)
    ensures Wait(queue, [], defers, closed) == Waited(TimedOut, queue, [], 0)
    ensures AnsweredIn(queue, [], defers, closed) == []
  {
  }

  lemma SmallSets(x: Text)
    ensures ToSet<Text>([]) == {} && ToSet([x]) == {x}
  {
    assert [x][0] == x;
  }

  lemma CancelFirst(controls: seq<Control>)
    requires controls != []
    ensures ToSet(Cancels(controls))
         == (if controls[0].CancelControl? then {controls[0].callId} else {}) + ToSet(Cancels(controls[1..]))
  {
    hide ToSet;
    var rest := Cancels(controls[1..]);
    if controls[0].CancelControl? {
      SmallSets(controls[0].callId);
      JoinSets([controls[0].callId], rest);
      assert Cancels(controls) == [controls[0].callId] + rest;
    } else {
      assert Cancels(controls) == [] + rest == rest;
      assert {} + ToSet(rest) == ToSet(rest);
    }
  }

  lemma JoinSets(a: seq<Text>, b: seq<Text>)
    ensures ToSet(a + b) == ToSet(a) + ToSet(b)
  {
    forall x | x in ToSet(a) + ToSet(b) ensures x in ToSet(a + b) {
      assert x in a || x in b;
      assert x in a + b;
    }
  }

  // ------------------------------------------------------- nothing is lost

  /** What an ending takes out of the inbox for good. */
  function Interruption(outcome: Option<Awaited>): multiset<Control> {
    if outcome.Some? && outcome.value.Interrupted? then multiset{outcome.value.control} else multiset{}
  }

  /** One wake loses no pause or insert; a closed inbox is empty and stays so. */
  lemma WakeConserves(q: seq<Control>, wake: Wake, defers: bool, closed: bool)
    requires closed ==> q == []
    ensures Owed(q) == Owed(QueueAfter(q, wake, defers, closed)) + Owed(AsControls(Deferral(q, wake, defers)))
                     + Interruption(EndOf(q, wake, defers))
    ensures closed ==> QueueAfter(q, wake, defers, closed) == []
    ensures !defers ==> Deferral(q, wake, defers) == []
    ensures var ending := EndOf(q, wake, defers);
      ending.Some? && ending.value.Interrupted? ==> MayInterrupt(ending.value.control, defers)
  {
    hide Owed, AsControls;
    NothingOwed();
    if Taken(q, wake) {
      var c, rest := q[0], q[1..];
      assert q == [c] + rest;
      OwedJoin([c], rest);
      OwedOne(c);
      if Raced(q, wake, defers) {
        OwedJoin(rest, [c]);
      } else if defers && c.InsertControl? {
        OneAsControl(c.insert);
      }
    }
  }

  lemma OneAsControl(insert: Insert)
    ensures Owed(AsControls([insert])) == multiset{InsertControl(insert)}
  {
    assert [insert][1..] == [] && AsControls([insert]) == [InsertControl(insert)];
    OwedOne(InsertControl(insert));
  }

  lemma {:induction false} WaitIsWithin(queue: seq<Control>, wakes: seq<Wake>, defers: bool, closed: bool)
    ensures Wait(queue, wakes, defers, closed).used <= |wakes|
    ensures wakes != [] ==> Wait(queue, wakes, defers, closed).used > 0
    decreases |wakes|
  {
    if wakes != [] {
      var q := queue + Come(closed, wakes[0].arrived);
      if EndOf(q, wakes[0], defers).None? {
        WaitIsWithin(QueueAfter(q, wakes[0], defers, closed), wakes[1..], defers, closed);
      }
    }
  }

  /**
   * Why a wait ends: the effect is returned as soon as it is done, whatever
   * control came with it; before that only a pause, or an insert that is not
   * deferred, interrupts it; and it times out only while the effect is not done.
   */
  lemma {:induction false} WaitEnds(queue: seq<Control>, wakes: seq<Wake>, defers: bool, closed: bool)
    ensures var w := Wait(queue, wakes, defers, closed);
      && w.used <= |wakes| && (forall i :: 0 <= i < w.used - 1 ==> !wakes[i].effectDone && wakes[i].controlDone)
      && match w.outcome
         case EffectReturned => w.used > 0 && wakes[w.used - 1].effectDone
         case Interrupted(c) =>
           && w.used > 0 && !wakes[w.used - 1].effectDone && wakes[w.used - 1].controlDone
           && (c.PauseControl? || (c.InsertControl? && !defers))
         case TimedOut => w.used > 0 ==> !wakes[w.used - 1].effectDone
    decreases |wakes|
  {
    hide QueueAfter, Deferral;
    if wakes != [] {
      var q := queue + Come(closed, wakes[0].arrived);
      if EndOf(q, wakes[0], defers).None? {
        var left, rest := QueueAfter(q, wakes[0], defers, closed), wakes[1..];
        WaitEnds(left, rest, defers, closed);
        var w := Wait(queue, wakes, defers, closed);
        assert forall i :: 0 <= i < |rest| ==> rest[i] == wakes[i + 1];
        forall i | 0 <= i < w.used - 1 ensures !wakes[i].effectDone && wakes[i].controlDone {
          if i > 0 { assert rest[i - 1] == wakes[i]; }
        }
      }
    }
  }

  /**
   * No pause or insert is lost by a wait: each is still queued, was deferred,
   * or is the interruption, which only a control that may interrupt becomes.
   */
  lemma {:induction false} WaitConserves(queue: seq<Control>, wakes: seq<Wake>, defers: bool, closed: bool)
    requires closed ==> queue == []
    ensures var w := Wait(queue, wakes, defers, closed);
      && w.used <= |wakes| && (!defers ==> w.deferred == [])
      && (w.outcome.Interrupted? ==> MayInterrupt(w.outcome.control, defers))
      && Owed(queue) + Owed(Come(closed, Arrivals(wakes[..w.used])))
         == Owed(w.queue) + Owed(AsControls(w.deferred)) + Interruption(Some(w.outcome))
    decreases |wakes|
  {
    hide QueueAfter, EndOf, Deferral, Owed, AsControls, Interruption, MayInterrupt;
    var w := Wait(queue, wakes, defers, closed);
    if wakes == [] {
      NothingOwed();
      assert wakes[..0] == [] && Come(closed, Arrivals([])) == [];
    } else {
      WaitIsWithin(queue, wakes, defers, closed);
      var q := queue + Come(closed, wakes[0].arrived);
      OwedJoin(queue, Come(closed, wakes[0].arrived));
      WakeConserves(q, wakes[0], defers, closed);
      ArrivalsSplit(wakes, w.used, closed);
      if EndOf(q, wakes[0], defers).None? {
        var left := QueueAfter(q, wakes[0], defers, closed);
        WaitConserves(left, wakes[1..], defers, closed);
        var deferral, later := Deferral(q, wakes[0], defers), Wait(left, wakes[1..], defers, closed);
        AsControlsJoin(deferral, later.deferred);
        OwedJoin(AsControls(deferral), AsControls(later.deferred));
        NothingOwed();
        assert w == After(deferral, 1, later);
        SumUp(Owed(queue), Owed(Come(closed, wakes[0].arrived)), Owed(Come(closed, Arrivals(wakes[1..][..later.used]))),
              Owed(left), Owed(AsControls(deferral)),
              Owed(later.queue) + Owed(AsControls(later.deferred)) + Interruption(Some(w.outcome)));
      } else {
        NothingOwed();
        assert wakes[1..][..0] == [] && Come(closed, []) == [];
      }
    }
  }

  lemma {:induction false} CancelsJoin(a: seq<Control>, b: seq<Control>)
    ensures Cancels(a + b) == Cancels(a) + Cancels(b)
  {
    if a == [] {
      assert a + b == b;
    } else {
      assert (a + b)[1..] == a[1..] + b;
      CancelsJoin(a[1..], b);
    }
  }

  lemma WakeAnswers(q: seq<Control>, wake: Wake, defers: bool, closed: bool)
    ensures Cancels(q) == AnsweredBy(q, wake) + Cancels(QueueAfter(q, wake, defers, closed))
  {
    if Raced(q, wake, defers) {
      CancelsJoin(q[1..], Come(closed, [q[0]]));
      assert [q[0]][1..] == [] && Cancels([q[0]]) == [];
    }
  }

  lemma Regroup<T>(a: seq<T>, b: seq<T>, c: seq<T>, answered: seq<T>, left: seq<T>, end: seq<T>)
    requires a + b == answered + left
    ensures a + (b + c) == answered + (left + c)
    ensures left + c == end ==> a + (b + c) == answered + end
  {
    assert a + (b + c) == (a + b) + c;
    assert (answered + left) + c == answered + (left + c);
  }

  /** Cancellations are answered in the order in which they came, and those not answered are queued in that order. */
  lemma {:induction false} WaitAnswers(queue: seq<Control>, wakes: seq<Wake>, defers: bool, closed: bool)
    ensures var w := Wait(queue, wakes, defers, closed);
      && w.used <= |wakes|
      && Cancels(queue) + Cancels(Come(closed, Arrivals(wakes[..w.used])))
         == AnsweredIn(queue, wakes, defers, closed) + Cancels(w.queue)
    decreases |wakes|
  {
    hide QueueAfter, EndOf, Deferral, AnsweredBy, Come, Cancels, Wait, AnsweredIn, Arrivals;
    var w := Wait(queue, wakes, defers, closed);
    if wakes == [] {
      NoWait(queue, defers, closed);
      NothingComes(wakes, closed);
    } else {
      WaitNext(queue, wakes, defers, closed);
      WaitIsWithin(queue, wakes, defers, closed);
      var q, come := queue + Come(closed, wakes[0].arrived), Come(closed, wakes[0].arrived);
      WakeAnswers(q, wakes[0], defers, closed);
      CancelsJoin(queue, come);
      ArrivalsSplit(wakes, w.used, closed);
      CancelsJoin(come, Come(closed, Arrivals(wakes[1..][..w.used - 1])));
      if EndOf(q, wakes[0], defers).None? {
        var left := QueueAfter(q, wakes[0], defers, closed);
        WaitAnswers(left, wakes[1..], defers, closed);
        var later := AnsweredIn(left, wakes[1..], defers, closed);
        var answered := AnsweredBy(q, wakes[0]);
        Regroup(Cancels(queue), Cancels(come), Cancels(Come(closed, Arrivals(wakes[1..][..w.used - 1]))), answered,
                Cancels(left), later + Cancels(w.queue));
        assert answered + (later + Cancels(w.queue)) == (answered + later) + Cancels(w.queue);
      } else {
        NothingComes(wakes[1..], closed);
      }
    }
  }

  lemma NothingComes(wakes: seq<Wake>, closed: bool)
    ensures Come(closed, Arrivals(wakes[..0])) == [] && Cancels(Come(closed, Arrivals(wakes[..0]))) == []
  {
    assert wakes[..0] == [];
  }

  lemma SumUp(start: multiset<Control>, come: multiset<Control>, later: multiset<Control>, left: multiset<Control>,
              deferral: multiset<Control>, end: multiset<Control>)
    requires start + come == left + deferral && left + later == end
    ensures start + (come + later) == end + deferral
  {
    assert start + (come + later) == (start + come) + later;
    assert (left + deferral) + later == (left + later) + deferral;
  }

  lemma NothingOwed()
    ensures Owed([]) == multiset{} && AsControls([]) == []
      && Interruption(None) == Interruption(Some(TimedOut)) == multiset{}
  {
  }

  /** What came over some wakes is what came in the first, and then the rest. */
  lemma ArrivalsSplit(wakes: seq<Wake>, used: nat, closed: bool)
    requires 0 < used <= |wakes|
    ensures Come(closed, Arrivals(wakes[..used]))
         == Come(closed, wakes[0].arrived) + Come(closed, Arrivals(wakes[1..][..used - 1]))
    ensures Owed(Come(closed, Arrivals(wakes[..used])))
         == Owed(Come(closed, wakes[0].arrived)) + Owed(Come(closed, Arrivals(wakes[1..][..used - 1])))
  {
    assert wakes[..used][0] == wakes[0] && wakes[..used][1..] == wakes[1..][..used - 1];
    OwedJoin(Come(closed, wakes[0].arrived), Come(closed, Arrivals(wakes[1..][..used - 1])));
  }

  // ------------------------------------------------------ the order of inserts

  lemma {:induction false} InsertsJoin(a: seq<Control>, b: seq<Control>)
    ensures InsertsOf(a + b) == InsertsOf(a) + InsertsOf(b)
  {
    if a == [] {
      assert a + b == b;
    } else {
      assert (a + b)[0] == a[0] && (a + b)[1..] == a[1..] + b;
      InsertsJoin(a[1..], b);
      InsertsFirst(a + b);
      InsertsFirst(a);
      hide InsertsOf;
    }
  }

  lemma InsertsFirst(controls: seq<Control>)
    requires controls != []
    ensures InsertsOf(controls)
         == (if controls[0].InsertControl? then [controls[0].insert] else []) + InsertsOf(controls[1..])
  {
  }

  predicate AllAre<T(==)>(s: seq<T>, x: T) { forall y <- s :: y == x }

  /** A sequence may be rotated by one exactly when all of it is alike. */
  lemma {:induction false} RotateAlike<T>(x: T, s: seq<T>)
    ensures s + [x] == [x] + s <==> AllAre(s, x)
    decreases |s|
  {
    if s == [] {
      assert s + [x] == [x] + s;
    } else {
      var rest := s[1..];
      RotateAlike(x, rest);
      assert s == [s[0]] + rest;
      if s + [x] == [x] + s {
        assert (s + [x])[0] == s[0] && ([x] + s)[0] == x;
        assert (s + [x])[1..] == rest + [x] && ([x] + s)[1..] == s;
      }
      if AllAre(s, x) {
        assert s[0] in s && forall y <- rest :: y in s;
        assert s + [x] == [x] + (rest + [x]);
      }
    }
  }

  /** Taking the oldest control to the back keeps the order of inserts exactly when every other insert is like it. */
  lemma RequeueKeepsOrder(q: seq<Control>)
    requires q != []
    ensures InsertsOf(q[1..] + [q[0]]) == InsertsOf(q)
       <==> (q[0].InsertControl? ==> AllAre(InsertsOf(q[1..]), q[0].insert))
  {
    InsertsJoin(q[1..], [q[0]]);
    assert [q[0]][1..] == [];
    if q[0].InsertControl? { RotateAlike(q[0].insert, InsertsOf(q[1..])); }
  }

  /** The insert that ends a wait, if one does. */
  function InterruptingInsert(outcome: Option<Awaited>): seq<Insert> {
    if outcome.Some? && outcome.value.Interrupted? && outcome.value.control.InsertControl?
    then [outcome.value.control.insert] else []
  }

  /** A raced insert overtaken by a different one behind it, or dropped by a closed inbox. */
  predicate Overtaken(q: seq<Control>, wake: Wake, defers: bool, closed: bool) {
    Raced(q, wake, defers) && q[0].InsertControl? && (closed || !AllAre(InsertsOf(q[1..]), q[0].insert))
  }

  /** One wake hands inserts on in the order they came exactly when none is overtaken. */
  lemma WakeKeepsOrder(q: seq<Control>, wake: Wake, defers: bool, closed: bool)
    ensures Deferral(q, wake, defers) + InterruptingInsert(EndOf(q, wake, defers))
            + InsertsOf(QueueAfter(q, wake, defers, closed)) == InsertsOf(q)
       <==> !Overtaken(q, wake, defers, closed)
  {
    var rest := InsertsOf(QueueAfter(q, wake, defers, closed));
    assert [] + [] + rest == rest;
    if Raced(q, wake, defers) {
      if closed {
        assert q[1..] + [] == q[1..];
      } else {
        RequeueKeepsOrder(q);
        assert rest == InsertsOf(q[1..] + [q[0]]);
      }
    } else if Taken(q, wake) && q[0].InsertControl? {
      assert [q[0].insert] + [] == [] + [q[0].insert] == [q[0].insert];
    }
  }

  /** Everything that was queued or has come by the end of a wait, in order. */
  function AllCome(queue: seq<Control>, wakes: seq<Wake>, closed: bool): seq<Control> {
    queue + Come(closed, Arrivals(wakes))
  }

  /** The last wake of a wait found what had come, less one control for every wake before it. */
  predicate LastOvertakes(queue: seq<Control>, wakes: seq<Wake>, defers: bool, closed: bool, used: nat)
    requires used <= |wakes|
  {
    && 0 < used <= |AllCome(queue, wakes[..used], closed)|
    && Overtaken(AllCome(queue, wakes[..used], closed)[used - 1..], wakes[used - 1], defers, closed)
  }

  /** A wait that goes on after its first wake is the wait from there. */
  lemma WaitGoesOn(queue: seq<Control>, wakes: seq<Wake>, defers: bool, closed: bool, used: nat)
    requires wakes != [] && used < |wakes|
    requires var q := queue + Come(closed, wakes[0].arrived); EndOf(q, wakes[0], defers).None?
    ensures var q := queue + Come(closed, wakes[0].arrived);
      && q != [] && QueueAfter(q, wakes[0], defers, closed) == q[1..]
      && AllCome(queue, wakes[..used + 1], closed) == [q[0]] + AllCome(q[1..], wakes[1..][..used], closed)
      && (LastOvertakes(queue, wakes, defers, closed, used + 1)
          <==> LastOvertakes(q[1..], wakes[1..], defers, closed, used))
  {
    var q := queue + Come(closed, wakes[0].arrived);
    assert wakes[..used + 1][1..] == wakes[1..][..used] && wakes[..used + 1][0] == wakes[0];
    var all, later := AllCome(queue, wakes[..used + 1], closed), AllCome(q[1..], wakes[1..][..used], closed);
    assert all == q + Come(closed, Arrivals(wakes[1..][..used]));
    assert q == [q[0]] + q[1..];
    assert all == [q[0]] + later;
    if 0 < used <= |later| { assert all[used..] == later[used - 1..]; }
  }

  /**
   * A wait hands inserts on in the order they came (the deferred ones, then the
   * one that interrupts, then those still queued) if and only if its last wake
   * did not race with an insert that has a different one behind it.
   */
  lemma {:induction false} WaitKeepsOrder(queue: seq<Control>, wakes: seq<Wake>, defers: bool, closed: bool)
    ensures var w := Wait(queue, wakes, defers, closed);
      && w.used <= |wakes|
      && (w.deferred + InterruptingInsert(Some(w.outcome)) + InsertsOf(w.queue)
          == InsertsOf(AllCome(queue, wakes[..w.used], closed))
          <==> !LastOvertakes(queue, wakes, defers, closed, w.used))
    decreases |wakes|
  {
    hide QueueAfter, EndOf, Deferral, Overtaken, InsertsOf, InterruptingInsert, LastOvertakes;
    if wakes == [] {
      NothingCome(queue, defers, closed);
      assert wakes[..0] == wakes;
    } else {
      var q := queue + Come(closed, wakes[0].arrived);
      if EndOf(q, wakes[0], defers).Some? {
        FirstEnds(queue, wakes, defers, closed);
        WakeKeepsOrder(q, wakes[0], defers, closed);
      } else {
        OneIsTaken(q, wakes[0], defers, closed);
        WaitKeepsOrder(q[1..], wakes[1..], defers, closed);
        var later := Wait(q[1..], wakes[1..], defers, closed);
        WaitGoesOn(queue, wakes, defers, closed, later.used);
        HeadGoesFirst(q[0], Deferral(q, wakes[0], defers), later, AllCome(q[1..], wakes[1..][..later.used], closed));
      }
    }
  }

  lemma NothingCome(queue: seq<Control>, defers: bool, closed: bool)
    ensures AllCome(queue, [], closed) == queue && !LastOvertakes(queue, [], defers, closed, 0)
    ensures [] + InterruptingInsert(Some(TimedOut)) + InsertsOf(queue) == InsertsOf(queue)
  {
    assert Come(closed, Arrivals([])) == [] && queue + [] == queue;
    assert [] + [] + InsertsOf(queue) == InsertsOf(queue);
  }

  /** A wake that ends nothing took one control: a cancellation, or an insert it deferred. */
  lemma OneIsTaken(q: seq<Control>, wake: Wake, defers: bool, closed: bool)
    requires EndOf(q, wake, defers).None?
    ensures q != [] && QueueAfter(q, wake, defers, closed) == q[1..] && InsertsOf([q[0]]) == Deferral(q, wake, defers)
  {
    assert [q[0]][1..] == [];
    assert InsertsOf([q[0]]) == (if q[0].InsertControl? then [q[0].insert] else []) + [];
  }

  /** A wait that ends in its first wake. */
  lemma FirstEnds(queue: seq<Control>, wakes: seq<Wake>, defers: bool, closed: bool)
    requires wakes != []
    ensures var q := queue + Come(closed, wakes[0].arrived);
      && AllCome(queue, wakes[..1], closed) == q
      && (LastOvertakes(queue, wakes, defers, closed, 1) <==> Overtaken(q, wakes[0], defers, closed))
  {
    var q := queue + Come(closed, wakes[0].arrived);
    assert wakes[..1] == [wakes[0]] && [wakes[0]][1..] == [];
    assert Arrivals([wakes[0]]) == wakes[0].arrived + Arrivals([]) == wakes[0].arrived;
    assert AllCome(queue, wakes[..1], closed) == q && q[0..] == q;
  }

  lemma HeadGoesFirst(c: Control, deferral: seq<Insert>, later: Waited, rest: seq<Control>)
    requires InsertsOf([c]) == deferral
    ensures (deferral + later.deferred) + InterruptingInsert(Some(later.outcome)) + InsertsOf(later.queue)
         == InsertsOf([c] + rest)
       <==> later.deferred + InterruptingInsert(Some(later.outcome)) + InsertsOf(later.queue) == InsertsOf(rest)
  {
    InsertsJoin([c], rest);
    var handed := later.deferred + InterruptingInsert(Some(later.outcome)) + InsertsOf(later.queue);
    assert (deferral + later.deferred) + InterruptingInsert(Some(later.outcome)) + InsertsOf(later.queue)
        == deferral + handed;
    if deferral + handed == deferral + InsertsOf(rest) {
      assert (deferral + handed)[|deferral|..] == handed;
      assert (deferral + InsertsOf(rest))[|deferral|..] == InsertsOf(rest);
    }
  }

  /** The effect is done in the wake that takes the first of two inserts: the wait leaves them the other way round. */
  lemma RequeueReorders(a: Insert, b: Insert)
    ensures var w := Wait([InsertControl(a), InsertControl(b)], [Wake([], true, true)], false, false);
      && w == Waited(EffectReturned, [InsertControl(b), InsertControl(a)], [], 1)
      && InsertsOf(w.queue) == [b, a]
  {
    var queue := [InsertControl(a), InsertControl(b)];
    assert queue + [] == queue && queue[1..] == [InsertControl(b)];
    TwoInserts(b, a);
  }

  lemma TwoInserts(a: Insert, b: Insert)
    ensures InsertsOf([InsertControl(a), InsertControl(b)]) == [a, b]
  {
    var queue := [InsertControl(a), InsertControl(b)];
    assert queue[1..] == [InsertControl(b)] && queue[1..][1..] == [];
    assert InsertsOf(queue[1..]) == [b];
  }

  /** The same with the inbox itself: what a boundary drains after the wait comes out in the other order. */
  method DrainAfterRace(a: Insert, b: Insert) returns (inserts: seq<Insert>)
    ensures inserts == [b, a]
  {
    var inbox := new ControlInbox();
    inbox.Submit(InsertControl(a));
    inbox.Submit(InsertControl(b));
    RequeueReorders(a, b);
    assert inbox.queue == [InsertControl(a), InsertControl(b)];
    var _, _, _ := inbox.AwaitEffect([Wake([], true, true)], false);
    var _, drained := inbox.Drain();
    inserts := drained;
  }
}
