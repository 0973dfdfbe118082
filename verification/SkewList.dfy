/**
 * The skew-binary random-access list the conversation history is kept in
 * (kernel/history.py), for messages of any type.
 */
module SkewList {

  datatype Tree<T> = Leaf(message: T) | Node(message: T, left: Tree<T>, right: Tree<T>)

  datatype Digits<T> = Nil | Digit(weight: nat, tree: Tree<T>, next: Digits<T>)

  // --------------------------------------------------- what a structure holds

  /** A tree's messages, newest first: the order `_iter_tree` visits them in. */
  function Newest<T>(t: Tree<T>): (s: seq<T>)
    ensures |s| > 0 && s[0] == t.message
  {
    match t
    case Leaf(m) => [m]
    case Node(m, l, r) => [m] + Newest(l) + Newest(r)
  }

  function NewestFirst<T>(d: Digits<T>): seq<T> {
    match d
    case Nil => []
    case Digit(_, t, next) => Newest(t) + NewestFirst(next)
  }

  function Reverse<T>(s: seq<T>): (r: seq<T>)
    ensures |r| == |s|
  {
    if s == [] then [] else Reverse(s[1..]) + [s[0]]
  }

  /** Every subtree of weight w has two subtrees of weight (w - 1) / 2. */
  predicate Complete<T>(t: Tree<T>, weight: nat) {
    match t
    case Leaf(_) => weight == 1
    case Node(_, l, r) =>
      weight % 2 == 1 && weight > 1 && Complete(l, (weight - 1) / 2) && Complete(r, (weight - 1) / 2)
  }

  /** Weights strictly increase. */
  predicate Increasing<T>(d: Digits<T>) {
    d.Digit? ==>
      && Complete(d.tree, d.weight) && Increasing(d.next)
      && (d.next.Digit? ==> d.weight < d.next.weight)
  }

  /** Weights strictly increase, except that the first two may be equal. */
  predicate Skew<T>(d: Digits<T>) {
    d.Digit? ==>
      && Complete(d.tree, d.weight) && Increasing(d.next)
      && (d.next.Digit? ==> d.weight <= d.next.weight)
  }

  // ------------------------------------------------------ sequence laws

  lemma {:induction false} ReverseConcat<T>(a: seq<T>, b: seq<T>)
    ensures Reverse(a + b) == Reverse(b) + Reverse(a)
  {
    if a == [] {
      assert a + b == b;
    } else {
      assert (a + b)[1..] == a[1..] + b;
      ReverseConcat(a[1..], b);
    }
  }

  lemma {:induction false} ReverseAt<T>(s: seq<T>, i: nat)
    requires i < |s|
    ensures Reverse(s)[i] == s[|s| - 1 - i]
  {
    if i < |s| - 1 { ReverseAt(s[1..], i); }
  }

  /** The part of s at positions lo .. hi - 1, whatever of it exists. */
  function Clip<T>(s: seq<T>, lo: int, hi: int): seq<T> {
    if s == [] then [] else (if lo <= 0 < hi then [s[0]] else []) + Clip(s[1..], lo - 1, hi - 1)
  }

  lemma {:induction false} ClipConcat<T>(a: seq<T>, b: seq<T>, lo: int, hi: int)
    ensures Clip(a + b, lo, hi) == Clip(a, lo, hi) + Clip(b, lo - |a|, hi - |a|)
  {
    if a == [] {
      assert a + b == b;
    } else {
      assert (a + b)[0] == a[0] && (a + b)[1..] == a[1..] + b;
      ClipConcat(a[1..], b, lo - 1, hi - 1);
      ClipFirst(a + b, lo, hi);
      ClipFirst(a, lo, hi);
      hide Clip;
    }
  }

  lemma ClipFirst<T>(s: seq<T>, lo: int, hi: int)
    requires s != []
    ensures Clip(s, lo, hi) == (if lo <= 0 < hi then [s[0]] else []) + Clip(s[1..], lo - 1, hi - 1)
  {
  }

  lemma {:induction false} ClipOutside<T>(s: seq<T>, lo: int, hi: int)
    requires hi <= 0 || |s| <= lo || hi <= lo
    ensures Clip(s, lo, hi) == []
  {
    if s != [] { ClipOutside(s[1..], lo - 1, hi - 1); }
  }

  lemma ClipOne<T>(m: T, lo: int, hi: int)
    ensures Clip([m], lo, hi) == if lo <= 0 < hi then [m] else []
    ensures Reverse(Clip([m], lo, hi)) == Clip([m], lo, hi)
  {
    assert [m][1..] == [];
  }

  lemma {:induction false} ClipAll<T>(s: seq<T>, lo: int, hi: int)
    requires lo <= 0 && |s| <= hi
    ensures Clip(s, lo, hi) == s
  {
    if s != [] { ClipAll(s[1..], lo - 1, hi - 1); }
  }

  /** Inside the sequence it is the slice. */
  lemma ClipIsSlice<T>(s: seq<T>, lo: nat, hi: nat)
    requires lo <= hi <= |s|
    ensures Clip(s, lo, hi) == s[lo..hi]
  {
    var a, b, c := s[..lo], s[lo..hi], s[hi..];
    assert s == a + (b + c);
    ClipConcat(a, b + c, lo, hi);
    ClipConcat(b, c, 0, hi - lo);
    ClipOutside(a, lo, hi);
    ClipAll(b, 0, hi - lo);
    ClipOutside(c, 0 - |b|, 0);
  }

  lemma ReverseMiddle<T>(a: seq<T>, b: seq<T>, c: seq<T>)
    ensures Reverse(a + b + c)[|c|..|c| + |b|] == Reverse(b)
  {
    ReverseThree(a, b, c);
    Middle(Reverse(c), Reverse(b), Reverse(a));
  }

  lemma ThreeParts<T>(s: seq<T>, lo: nat, hi: nat)
    requires lo <= hi <= |s|
    ensures s[..lo] + s[lo..hi] + s[hi..] == s
  {
  }

  lemma ReversePart<T>(s: seq<T>, lo: nat, hi: nat, a: seq<T>, b: seq<T>, c: seq<T>)
    requires lo <= hi <= |s| && a + b + c == s && |a| == lo && |b| == hi - lo
    ensures Reverse(b) == Reverse(s)[|s| - hi..|s| - lo]
  {
    ReverseMiddle(a, b, c);
  }

  lemma ReverseClip<T>(s: seq<T>, lo: nat, hi: nat)
    requires lo <= hi <= |s|
    ensures Reverse(s[lo..hi]) == Reverse(s)[|s| - hi..|s| - lo]
  {
    ThreeParts(s, lo, hi);
    ReversePart(s, lo, hi, s[..lo], s[lo..hi], s[hi..]);
  }

  lemma ReverseThree<T>(a: seq<T>, b: seq<T>, c: seq<T>)
    ensures Reverse(a + b + c) == Reverse(c) + Reverse(b) + Reverse(a)
  {
    ReverseConcat(a + b, c);
    ReverseConcat(a, b);
  }

  lemma Middle<T>(a: seq<T>, b: seq<T>, c: seq<T>)
    ensures (a + b + c)[|a|..|a| + |b|] == b
  {
  }

  // ------------------------------------------------------ weights and depth

  function Pow2(k: nat): (p: nat)
    ensures p >= 1
  {
    if k == 0 then 1 else 2 * Pow2(k - 1)
  }

  lemma {:induction false} Pow2Monotone(a: nat, b: nat)
    requires a <= b
    ensures Pow2(a) <= Pow2(b)
  {
    if a < b { Pow2Monotone(a, b - 1); }
  }

  function Height<T>(t: Tree<T>): (h: nat)
    ensures h >= 1
  {
    match t
    case Leaf(_) => 1
    case Node(_, l, _) => 1 + Height(l)
  }

  /** A complete tree's weight is 2^h - 1, and it is the number of its messages. */
  lemma {:induction false} WeightIsPower<T>(t: Tree<T>, weight: nat)
    requires Complete(t, weight)
    ensures weight == Pow2(Height(t)) - 1
    ensures |Newest(t)| == weight
  {
    match t
    case Leaf(_) =>
      assert Pow2(1) == 2 * Pow2(0);
    case Node(m, l, r) =>
      var half := (weight - 1) / 2;
      NodeWeight(m, l, r, weight);
      WeightIsPower(l, half);
      WeightIsPower(r, half);
      assert Pow2(1 + Height(l)) == 2 * Pow2(Height(l));
  }

  lemma NodeWeight<T>(m: T, l: Tree<T>, r: Tree<T>, weight: nat)
    requires Complete(Node(m, l, r), weight)
    ensures var half := (weight - 1) / 2;
      weight == 1 + 2 * half && Complete(l, half) && Complete(r, half)
    ensures |Newest(Node(m, l, r))| == 1 + |Newest(l)| + |Newest(r)|
  {
  }

  /** A heavier complete tree is at least twice as heavy, plus one. */
  lemma HeavierIsDouble<T>(t: Tree<T>, w: nat, u: Tree<T>, v: nat)
    requires Complete(t, w) && Complete(u, v) && w < v
    ensures 2 * w + 1 <= v
    ensures Height(t) < Height(u)
  {
    WeightIsPower(t, w);
    WeightIsPower(u, v);
    if Height(u) <= Height(t) { Pow2Monotone(Height(u), Height(t)); }
    Pow2Monotone(Height(t) + 1, Height(u));
  }

  // ---------------------------------------------------------------- _cons

  function Cons<T>(d: Digits<T>, m: T): Digits {
    if d.Digit? && d.next.Digit? && d.weight == d.next.weight then
      Digit(d.weight * 2 + 1, Node(m, d.tree, d.next.tree), d.next.next)
    else
      Digit(1, Leaf(m), d)
  }

  /** Adding a message keeps the representation. */
  lemma ConsKeepsSkew<T>(d: Digits<T>, m: T)
    requires Skew(d)
    ensures Skew(Cons(d, m))
  {
    hide Pow2, Height;
    if d.Digit? && d.next.Digit? && d.weight == d.next.weight {
      var second := d.next;
      CompletePositive(second.tree, second.weight);
      assert Increasing(second.next);
      if second.next.Digit? {
        HeavierIsDouble(second.tree, second.weight, second.next.tree, second.next.weight);
      }
    } else if d.Digit? {
      CompletePositive(d.tree, d.weight);
      if d.next.Digit? { CompletePositive(d.next.tree, d.next.weight); }
    }
  }

  /** It puts the message in front of everything held. */
  lemma ConsHolds<T>(d: Digits<T>, m: T)
    ensures NewestFirst(Cons(d, m)) == [m] + NewestFirst(d)
  {
    if d.Digit? && d.next.Digit? && d.weight == d.next.weight {
      var second := d.next;
      assert [m] + Newest(d.tree) + Newest(second.tree) + NewestFirst(second.next)
          == [m] + (Newest(d.tree) + (Newest(second.tree) + NewestFirst(second.next)));
    }
  }

  lemma CompletePositive<T>(t: Tree<T>, weight: nat)
    requires Complete(t, weight)
    ensures weight >= 1
  {
  }

  // --------------------------------------------------- the number of digits

  function DigitCount<T>(d: Digits<T>): nat {
    if d.Nil? then 0 else 1 + DigitCount(d.next)
  }

  /** In a strictly increasing list the last digit is at least as high as the list is long. */
  lemma {:induction false} IncreasingIsLong<T>(d: Digits<T>)
    requires Increasing(d) && d.Digit?
    ensures |NewestFirst(d)| >= Pow2(Height(d.tree) + DigitCount(d) - 1) - 1
  {
    WeightIsPower(d.tree, d.weight);
    if d.next.Digit? {
      HeavierIsDouble(d.tree, d.weight, d.next.tree, d.next.weight);
      IncreasingIsLong(d.next);
      Pow2Monotone(Height(d.tree) + DigitCount(d) - 1, Height(d.next.tree) + DigitCount(d.next) - 1);
    }
  }

  /** d digits over n messages satisfy 2^(d-1) <= n + 1. */
  lemma FewDigits<T>(d: Digits<T>)
    requires Skew(d) && d.Digit?
    ensures Pow2(DigitCount(d) - 1) <= |NewestFirst(d)| + 1
  {
    if d.next.Digit? {
      IncreasingIsLong(d.next);
      Pow2Monotone(DigitCount(d) - 1, Height(d.next.tree) + DigitCount(d.next) - 1);
    }
  }

  // --------------------------------------------------------- random access

  /**
   * _lookup_tree: the message at a newest-first position, one level of the tree
   * for each step.
   */
  method LookupTree<T>(root: Tree<T>, weight0: nat, index0: nat) returns (m: T, ghost steps: nat)
    requires Complete(root, weight0) && index0 < weight0
    ensures index0 < |Newest(root)| && m == Newest(root)[index0]
    ensures Pow2(steps) <= |Newest(root)| + 1
  {
    var tree := root;
    var weight: nat, index: nat := weight0, index0;
    steps := 0;
    WeightIsPower(root, weight0);
    while tree.Node?
      invariant Complete(tree, weight) && index < weight && |Newest(tree)| == weight
      invariant Newest(tree)[index] == Newest(root)[index0]
      invariant steps + Height(tree) <= Height(root)
      decreases tree
    {
      if index == 0 {
        m := tree.message;
        Pow2Monotone(steps, Height(root));
        return;
      }
      var childWeight := (weight - 1) / 2;
      WeightIsPower(tree.left, childWeight);
      WeightIsPower(tree.right, childWeight);
      SameHeight(tree.left, tree.right, childWeight);
      if index <= childWeight {
        assert Newest(tree)[index] == Newest(tree.left)[index - 1];
        tree := tree.left;
        index := index - 1;
      } else {
        assert Newest(tree)[index] == Newest(tree.right)[index - childWeight - 1];
        tree := tree.right;
        index := index - (childWeight + 1);
      }
      weight := childWeight;
      steps := steps + 1;
    }
    m := tree.message;
    Pow2Monotone(steps, Height(root));
  }

  lemma SameHeight<T>(t: Tree<T>, u: Tree<T>, weight: nat)
    requires Complete(t, weight) && Complete(u, weight)
    ensures Height(t) == Height(u)
  {
    WeightIsPower(t, weight);
    WeightIsPower(u, weight);
    if Height(t) < Height(u) { Pow2Strict(Height(t), Height(u)); }
    if Height(u) < Height(t) { Pow2Strict(Height(u), Height(t)); }
  }

  lemma Pow2Strict(a: nat, b: nat)
    requires a < b
    ensures Pow2(a) < Pow2(b)
  {
    Pow2Monotone(a + 1, b);
  }

  lemma TreeIsSmaller<T>(d: Digits<T>)
    requires d.Digit?
    ensures |Newest(d.tree)| <= |NewestFirst(d)| && |NewestFirst(d.next)| <= |NewestFirst(d)|
  {
  }

  /** A position past the first tree is a position in the remaining digits. */
  lemma PastFirstTree<T>(d: Digits<T>, index: nat)
    requires d.Digit? && Complete(d.tree, d.weight) && index < |NewestFirst(d)|
    ensures index < d.weight ==> index < |Newest(d.tree)| && NewestFirst(d)[index] == Newest(d.tree)[index]
    ensures index >= d.weight ==> index - d.weight < |NewestFirst(d.next)|
    ensures index >= d.weight ==> NewestFirst(d)[index] == NewestFirst(d.next)[index - d.weight]
  {
    WeightIsPower(d.tree, d.weight);
  }

  /** _lookup_reverse: walk the digits, then one tree. */
  method LookupReverse<T>(digits: Digits<T>, index0: nat) returns (m: T, ghost hops: nat, ghost levels: nat)
    requires Skew(digits) && index0 < |NewestFirst(digits)|
    ensures m == NewestFirst(digits)[index0]
    ensures Pow2(hops) <= |NewestFirst(digits)| + 1
    ensures Pow2(levels) <= |NewestFirst(digits)| + 1
  {
    var digit := digits;
    var index: nat := index0;
    hops := 0;
    while digit.Digit?
      invariant digit == digits || Increasing(digit)
      invariant index < |NewestFirst(digit)| <= |NewestFirst(digits)|
      invariant NewestFirst(digit)[index] == NewestFirst(digits)[index0]
      invariant hops + DigitCount(digit) == DigitCount(digits)
      decreases digit
    {
      PastFirstTree(digit, index);
      TreeIsSmaller(digit);
      if index < digit.weight {
        m, levels := LookupTree(digit.tree, digit.weight, index);
        FewDigits(digits);
        Pow2Monotone(hops, DigitCount(digits) - 1);
        return;
      }
      index := index - digit.weight;
      digit := digit.next;
      hops := hops + 1;
    }
    assert false;
  }

  // ----------------------------------------------------- windows and tails

  /**
   * _iter_tree_reverse_window: the messages of `item`, which starts at `offset`,
   * that lie in start .. stop - 1, oldest first.
   */
  function Visit<T>(item: Tree<T>, weight: nat, offset: int, start: int, stop: int): seq<T>
    requires Complete(item, weight)
  {
    if stop <= offset || offset + weight <= start then []
    else match item
      case Leaf(m) => [m]
      case Node(m, l, r) =>
        var child := (weight - 1) / 2;
        Visit(r, child, offset + child + 1, start, stop)
        + Visit(l, child, offset + 1, start, stop)
        + (if start <= offset < stop then [m] else [])
  }

  lemma {:induction false} VisitIsClip<T>(item: Tree<T>, weight: nat, offset: int, start: int, stop: int,
                                          lo: int, hi: int)
    requires Complete(item, weight) && lo == start - offset && hi == stop - offset
    ensures Visit(item, weight, offset, start, stop) == Reverse(Clip(Newest(item), lo, hi))
    decreases item
  {
    hide Clip, Reverse, Complete, Pow2, Height, Newest, Visit;
    if stop <= offset || offset + weight <= start {
      VisitOutside(item, weight, offset, start, stop);
    } else if item.Leaf? {
      VisitLeaf(item, weight, offset, start, stop);
    } else {
      var child := VisitNode(item, weight, offset, start, stop);
      VisitIsClip(item.left, child, offset + 1, start, stop, lo - 1, hi - 1);
      VisitIsClip(item.right, child, offset + child + 1, start, stop, lo - 1 - child, hi - 1 - child);
      ClipNode(item.message, Newest(item.left), Newest(item.right), lo, hi);
    }
  }

  lemma VisitOutside<T>(item: Tree<T>, weight: nat, offset: int, start: int, stop: int)
    requires Complete(item, weight) && (stop <= offset || offset + weight <= start)
    ensures Visit(item, weight, offset, start, stop) == Reverse(Clip(Newest(item), start - offset, stop - offset)) == []
  {
    WeightIsPower(item, weight);
    ClipOutside(Newest(item), start - offset, stop - offset);
  }

  lemma VisitLeaf<T>(item: Tree<T>, weight: nat, offset: int, start: int, stop: int)
    requires Complete(item, weight) && item.Leaf? && offset < stop && start < offset + weight
    ensures Visit(item, weight, offset, start, stop) == Reverse(Clip(Newest(item), start - offset, stop - offset))
  {
    ClipOne(item.message, start - offset, stop - offset);
  }

  /** Visiting a node that meets the window. */
  lemma VisitNode<T>(item: Tree<T>, weight: nat, offset: int, start: int, stop: int) returns (child: nat)
    requires Complete(item, weight) && item.Node? && offset < stop && start < offset + weight
    ensures Complete(item.left, child) && Complete(item.right, child) && |Newest(item.left)| == child
    ensures Newest(item) == [item.message] + Newest(item.left) + Newest(item.right)
    ensures Visit(item, weight, offset, start, stop)
         == Visit(item.right, child, offset + child + 1, start, stop) + Visit(item.left, child, offset + 1, start, stop)
            + (if start <= offset < stop then [item.message] else [])
  {
    child := (weight - 1) / 2;
    NodeWeight(item.message, item.left, item.right, weight);
    WeightIsPower(item.left, child);
  }

  /** A window over a node: the part in the right tree, in the left tree, and the root. */
  lemma ClipNode<T>(m: T, left: seq<T>, right: seq<T>, lo: int, hi: int)
    ensures Reverse(Clip([m] + left + right, lo, hi))
         == Reverse(Clip(right, lo - 1 - |left|, hi - 1 - |left|)) + Reverse(Clip(left, lo - 1, hi - 1))
            + (if lo <= 0 < hi then [m] else [])
  {
    ClipConcat([m] + left, right, lo, hi);
    ClipConcat([m], left, lo, hi);
    ClipOne(m, lo, hi);
    ReverseThree(Clip([m], lo, hi), Clip(left, lo - 1, hi - 1), Clip(right, lo - 1 - |left|, hi - 1 - |left|));
  }

  /** One selected tree of a window, with the local positions wanted from it. */
  datatype Selected<T> = Selected(tree: Tree<T>, weight: nat, start: nat, stop: nat)

  predicate Placed<T>(selected: seq<Selected<T>>) {
    forall i :: 0 <= i < |selected| ==> Complete(selected[i].tree, selected[i].weight)
  }

  /** What the selected trees contribute, newest first. */
  function AllSelected<T>(selected: seq<Selected<T>>): seq<T> {
    if selected == [] then []
    else
      var last := selected[|selected| - 1];
      AllSelected(selected[..|selected| - 1]) + Clip(Newest(last.tree), last.start, last.stop)
  }

  /** _iter_window: the messages at chronological positions start .. stop - 1. */
  method Window<T>(digits: Digits<T>, count: nat, start: nat, stop: nat) returns (messages: seq<T>)
    requires Skew(digits) && count == |NewestFirst(digits)| && start <= count && stop <= count
    ensures messages == if start <= stop then Reverse(NewestFirst(digits))[start..stop] else []
  {
    if start == stop { return []; }
    var selected := SelectDigits(digits, count - stop, count - start);
    messages := VisitSelected(selected);
    WindowIsSlice(NewestFirst(digits), start, stop);
  }

  lemma WindowIsSlice<T>(newest: seq<T>, start: nat, stop: nat)
    requires start <= |newest| && stop <= |newest|
    ensures Reverse(Clip(newest, |newest| - stop, |newest| - start))
         == if start <= stop then Reverse(newest)[start..stop] else []
  {
    if start <= stop {
      ClipIsSlice(newest, |newest| - stop, |newest| - start);
      ReverseClip(newest, |newest| - stop, |newest| - start);
    } else {
      ClipOutside(newest, |newest| - stop, |newest| - start);
    }
  }

  lemma VisitLast<T>(selected: seq<Selected<T>>, i: nat)
    requires i < |selected| && Complete(selected[i].tree, selected[i].weight)
    ensures var s := selected[i];
      Reverse(AllSelected(selected[..i + 1]))
      == Visit(s.tree, s.weight, 0, s.start, s.stop) + Reverse(AllSelected(selected[..i]))
  {
    var s := selected[i];
    VisitIsClip(s.tree, s.weight, 0, s.start, s.stop, s.start, s.stop);
    assert selected[..i + 1][..i] == selected[..i];
    ReverseConcat(AllSelected(selected[..i]), Clip(Newest(s.tree), s.start, s.stop));
  }

  /** The selected trees, oldest first. */
  method VisitSelected<T>(selected: seq<Selected<T>>) returns (messages: seq<T>)
    requires Placed(selected)
    ensures messages == Reverse(AllSelected(selected))
  {
    messages := [];
    var i := |selected|;
    assert selected[..i] == selected;
    while i > 0
      invariant 0 <= i <= |selected|
      invariant messages + Reverse(AllSelected(selected[..i])) == Reverse(AllSelected(selected))
    {
      i := i - 1;
      VisitLast(selected, i);
      var s := selected[i];
      messages := messages + Visit(s.tree, s.weight, 0, s.start, s.stop);
    }
    assert messages == Reverse(AllSelected(selected));
  }

  /** The part of a window that one digit holds, with its local bounds. */
  function LocalStart(offset: int, lo: int): nat { if lo > offset then lo - offset else 0 }

  function LocalStop<T>(d: Digits<T>, offset: int, hi: int): int
    requires d.Digit?
  {
    (if hi < offset + d.weight then hi else offset + d.weight) - offset
  }

  /** Clamping a window to the sequence does not change what it shows. */
  lemma {:induction false} ClipClamped<T>(s: seq<T>, lo: int, hi: int)
    ensures Clip(s, lo, hi) == Clip(s, if lo < 0 then 0 else lo, if hi > |s| then |s| else hi)
  {
    var a, b := if lo < 0 then 0 else lo, if hi > |s| then |s| else hi;
    if hi <= 0 || lo >= hi || lo >= |s| {
      ClipOutside(s, lo, hi);
      ClipOutside(s, a, b);
    } else {
      SameClip(s, lo, hi, a, b);
    }
  }

  lemma {:induction false} SameClip<T>(s: seq<T>, lo: int, hi: int, a: int, b: int)
    requires lo == a || (lo <= 0 && a <= 0)
    requires hi == b || (|s| <= hi && |s| <= b)
    ensures Clip(s, lo, hi) == Clip(s, a, b)
  {
    if s != [] { SameClip(s[1..], lo - 1, hi - 1, a - 1, b - 1); }
  }

  /** What is selected so far and what the remaining digits still hold of the window. */
  ghost predicate Selecting<T>(wanted: seq<T>, selected: seq<Selected<T>>, d: Digits<T>, offset: int, lo: int,
                               hi: int) {
    Placed(selected) && wanted == AllSelected(selected) + Clip(NewestFirst(d), lo - offset, hi - offset)
  }

  /** A window over the digits is its part in the first tree, then its part in the rest. */
  lemma DigitSplits<T>(d: Digits<T>, offset: int, lo: int, hi: int)
    requires d.Digit? && Complete(d.tree, d.weight)
    ensures Clip(NewestFirst(d), lo - offset, hi - offset)
         == Clip(Newest(d.tree), lo - offset, hi - offset)
            + Clip(NewestFirst(d.next), lo - (offset + d.weight), hi - (offset + d.weight))
  {
    WeightIsPower(d.tree, d.weight);
    ClipConcat(Newest(d.tree), NewestFirst(d.next), lo - offset, hi - offset);
  }

  lemma LocalPart<T>(d: Digits<T>, offset: int, lo: int, hi: int)
    requires d.Digit? && Complete(d.tree, d.weight)
    ensures Clip(Newest(d.tree), lo - offset, hi - offset)
         == Clip(Newest(d.tree), LocalStart(offset, lo), LocalStop(d, offset, hi))
  {
    WeightIsPower(d.tree, d.weight);
    ClipClamped(Newest(d.tree), lo - offset, hi - offset);
  }

  /** A digit outside the window adds nothing. */
  lemma SkipDigit<T>(wanted: seq<T>, selected: seq<Selected<T>>, d: Digits<T>, offset: int, lo: int, hi: int)
    requires Selecting(wanted, selected, d, offset, lo, hi) && d.Digit? && Complete(d.tree, d.weight)
    requires LocalStart(offset, lo) >= LocalStop(d, offset, hi)
    ensures Selecting(wanted, selected, d.next, offset + d.weight, lo, hi)
  {
    WeightIsPower(d.tree, d.weight);
    DigitSplits(d, offset, lo, hi);
    ClipOutside(Newest(d.tree), lo - offset, hi - offset);
  }

  lemma SelectedGrows<T>(selected: seq<Selected<T>>, last: Selected<T>)
    requires Placed(selected) && Complete(last.tree, last.weight)
    ensures Placed(selected + [last])
    ensures AllSelected(selected + [last]) == AllSelected(selected) + Clip(Newest(last.tree), last.start, last.stop)
  {
    var grown := selected + [last];
    assert grown[..|grown| - 1] == selected;
  }

  /** A digit that meets the window adds its part of it. */
  lemma TakeDigit<T>(wanted: seq<T>, selected: seq<Selected<T>>, d: Digits<T>, offset: int, lo: int, hi: int,
                     local: Selected<T>)
    requires Selecting(wanted, selected, d, offset, lo, hi) && d.Digit? && Complete(d.tree, d.weight)
    requires LocalStart(offset, lo) < LocalStop(d, offset, hi)
    requires local == Selected(d.tree, d.weight, LocalStart(offset, lo), LocalStop(d, offset, hi))
    ensures Selecting(wanted, selected + [local], d.next, offset + d.weight, lo, hi)
  {
    DigitSplits(d, offset, lo, hi);
    LocalPart(d, offset, lo, hi);
    SelectedGrows(selected, local);
  }

  /** The digits a newest-first window meets, each with its local bounds. */
  method SelectDigits<T>(digits: Digits<T>, reverseStart: int, reverseStop: int) returns (selected: seq<Selected<T>>)
    requires Skew(digits)
    ensures Placed(selected)
    ensures AllSelected(selected) == Clip(NewestFirst(digits), reverseStart, reverseStop)
  {
    selected := [];
    var digit := digits;
    var offset := 0;
    ghost var wanted := Clip(NewestFirst(digits), reverseStart, reverseStop);
    while digit.Digit? && offset < reverseStop
      invariant digit.Digit? ==> Complete(digit.tree, digit.weight) && Increasing(digit.next)
      invariant Selecting(wanted, selected, digit, offset, reverseStart, reverseStop)
      decreases digit
    {
      var digitStop := offset + digit.weight;
      var localStart := (if reverseStart > offset then reverseStart else offset) - offset;
      var localStop := (if reverseStop < digitStop then reverseStop else digitStop) - offset;
      if localStart < localStop {
        var local := Selected(digit.tree, digit.weight, localStart, localStop);
        TakeDigit(wanted, selected, digit, offset, reverseStart, reverseStop, local);
        selected := selected + [local];
      } else {
        SkipDigit(wanted, selected, digit, offset, reverseStart, reverseStop);
      }
      offset := digitStop;
      digit := digit.next;
    }
    if digit.Digit? { ClipOutside(NewestFirst(digit), reverseStart - offset, reverseStop - offset); }
  }

  /** The first `count` messages of the newest-first iteration, or all of them. */
  method NewestTake<T>(digits: Digits<T>, count: nat) returns (taken: seq<T>)
    ensures taken == Clip(NewestFirst(digits), 0, count)
  {
    hide Clip, Newest;
    taken := [];
    var digit := digits;
    while digit.Digit? && |taken| < count
      invariant taken + NewestFirst(digit) == NewestFirst(digits)
      decreases digit
    {
      assert taken + (Newest(digit.tree) + NewestFirst(digit.next))
          == taken + Newest(digit.tree) + NewestFirst(digit.next);
      taken := taken + Newest(digit.tree);
      digit := digit.next;
    }
    if |taken| > count { taken := taken[..count]; }
    ClipIsSlice(NewestFirst(digits), 0, |taken|);
    SameClip(NewestFirst(digits), 0, |taken|, 0, count);
  }
}
