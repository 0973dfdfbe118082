/**
 * The persistent set of call ids: a byte trie whose nodes keep their children
 * in byte order (kernel/_history.py, _IdNode and _PersistentIdSet).
 */
module IdSet {
  import opened Wrappers
  import opened Messages

  datatype IdNode = IdNode(terminal: bool, children: seq<Edge>)

  datatype Edge = Edge(octet: char, child: IdNode)

  const EMPTY := IdNode(false, [])

  // ------------------------------------------------------ what a trie holds

  function Lookup(children: seq<Edge>, octet: char): Option<IdNode> {
    if children == [] then None
    else if children[0].octet == octet then Some(children[0].child)
    else Lookup(children[1..], octet)
  }

  predicate Member(node: IdNode, key: Text)
    decreases |key|
  {
    if key == [] then node.terminal
    else match Lookup(node.children, key[0])
      case None => false
      case Some(child) => Member(child, key[1..])
  }

  predicate Ordered(children: seq<Edge>) {
    forall i, j :: 0 <= i < j < |children| ==> children[i].octet < children[j].octet
  }

  /** Children are in strict byte order at every node. */
  predicate Sorted(node: IdNode) {
    && Ordered(node.children)
    && forall i :: 0 <= i < |node.children| ==> Sorted(node.children[i].child)
  }

  /** The children with one of them put in, in order. */
  function Put(children: seq<Edge>, octet: char, child: IdNode): seq<Edge> {
    if children == [] then [Edge(octet, child)]
    else if children[0].octet == octet then [Edge(octet, child)] + children[1..]
    else if children[0].octet > octet then [Edge(octet, child)] + children
    else [children[0]] + Put(children[1..], octet, child)
  }

  /** The trie with one key more. */
  function WithKey(node: IdNode, key: Text): IdNode
    decreases |key|
  {
    if key == [] then IdNode(true, node.children)
    else IdNode(node.terminal, Put(node.children, key[0], WithKey(Below(node, key[0]), key[1..])))
  }

  /** The child of an octet, or the empty trie. */
  function Below(node: IdNode, octet: char): IdNode {
    match Lookup(node.children, octet) case None => EMPTY case Some(child) => child
  }

  // ------------------------------------------------------------ laws of Put

  lemma {:induction false} LookupPut(children: seq<Edge>, octet: char, child: IdNode, x: char)
    ensures Lookup(Put(children, octet, child), x) == if x == octet then Some(child) else Lookup(children, x)
  {
    if children != [] {
      var put := Put(children, octet, child);
      if children[0].octet == octet || children[0].octet > octet {
        assert put[1..] == if children[0].octet == octet then children[1..] else children;
      } else {
        assert put[1..] == Put(children[1..], octet, child);
        LookupPut(children[1..], octet, child, x);
      }
    }
  }

  lemma {:induction false} PutOrdered(children: seq<Edge>, octet: char, child: IdNode)
    requires Ordered(children)
    ensures Ordered(Put(children, octet, child))
    ensures forall i :: 0 <= i < |Put(children, octet, child)| ==>
      Put(children, octet, child)[i] == Edge(octet, child) || Put(children, octet, child)[i] in children
  {
    if children != [] && children[0].octet < octet {
      assert Ordered(children[1..]);
      PutOrdered(children[1..], octet, child);
      var put := Put(children[1..], octet, child);
      forall i | 0 <= i < |put| ensures children[0].octet < put[i].octet {
        assert put[i] == Edge(octet, child) || put[i] in children[1..];
      }
    }
  }

  lemma {:induction false} LookupSorted(children: seq<Edge>, octet: char)
    requires forall i :: 0 <= i < |children| ==> Sorted(children[i].child)
    ensures Lookup(children, octet).Some? ==> Sorted(Lookup(children, octet).value)
  {
    if children != [] && children[0].octet != octet { LookupSorted(children[1..], octet); }
  }

  // ------------------------------------------------- adding a key adds one

  lemma {:induction false} WithKeySorted(node: IdNode, key: Text)
    requires Sorted(node)
    ensures Sorted(WithKey(node, key))
    decreases |key|
  {
    if key != [] {
      LookupSorted(node.children, key[0]);
      var below := Below(node, key[0]);
      WithKeySorted(below, key[1..]);
      var child := WithKey(below, key[1..]);
      PutOrdered(node.children, key[0], child);
      var put := Put(node.children, key[0], child);
      forall i | 0 <= i < |put| ensures Sorted(put[i].child) {
        assert put[i] == Edge(key[0], child) || put[i] in node.children;
      }
    }
  }

  lemma {:induction false} EmptyHoldsNothing(key: Text)
    ensures !Member(EMPTY, key)
  {
  }

  /** The new trie holds the added key and what the old one held, and nothing else. */
  lemma {:induction false} WithKeyAdds(node: IdNode, key: Text, x: Text)
    ensures Member(WithKey(node, key), x) <==> x == key || Member(node, x)
    decreases |key|
  {
    if key != [] && x != [] {
      var below := Below(node, key[0]);
      LookupPut(node.children, key[0], WithKey(below, key[1..]), x[0]);
      if x[0] == key[0] {
        WithKeyAdds(below, key[1..], x[1..]);
        EmptyHoldsNothing(x[1..]);
        assert x == [x[0]] + x[1..] && key == [key[0]] + key[1..];
      }
    }
  }

  // --------------------------------------------------- the program's loops

  lemma {:induction false} OrderedStops(children: seq<Edge>, octet: char)
    requires Ordered(children) && children != [] && children[0].octet > octet
    ensures Lookup(children, octet).None?
  {
    if |children| > 1 {
      assert children[1..][0] == children[1];
      OrderedStops(children[1..], octet);
    }
  }

  /** _child: the scan stops at the first larger byte. */
  method Child(node: IdNode, octet: char) returns (child: Option<IdNode>)
    requires Ordered(node.children)
    ensures child == Lookup(node.children, octet)
  {
    assert node.children[0..] == node.children;
    for i := 0 to |node.children|
      invariant Lookup(node.children, octet) == Lookup(node.children[i..], octet)
    {
      var rest := node.children[i..];
      assert rest[1..] == node.children[i + 1..];
      if node.children[i].octet == octet { return Some(node.children[i].child); }
      if node.children[i].octet > octet {
        OrderedStops(rest, octet);
        break;
      }
    }
    child := None;
  }

  lemma {:induction false} PutAt(before: seq<Edge>, rest: seq<Edge>, octet: char, child: IdNode)
    requires forall i :: 0 <= i < |before| ==> before[i].octet < octet
    ensures Put(before + rest, octet, child) == before + Put(rest, octet, child)
  {
    if before == [] {
      assert before + rest == rest;
    } else {
      assert (before + rest)[1..] == before[1..] + rest;
      PutAt(before[1..], rest, octet, child);
    }
  }

  /** _with_child: replaces, inserts or appends in byte order. */
  method WithChild(node: IdNode, octet: char, child: IdNode) returns (updated: IdNode)
    ensures updated == IdNode(node.terminal, Put(node.children, octet, child))
  {
    var children := node.children;
    for i := 0 to |children|
      invariant forall j :: 0 <= j < i ==> children[j].octet < octet
    {
      assert children == children[..i] + children[i..];
      if children[i].octet == octet {
        PutAt(children[..i], children[i..], octet, child);
        return IdNode(node.terminal, children[..i] + [Edge(octet, child)] + children[i + 1..]);
      }
      if children[i].octet > octet {
        PutAt(children[..i], children[i..], octet, child);
        return IdNode(node.terminal, children[..i] + [Edge(octet, child)] + children[i..]);
      }
    }
    PutAt(children, [], octet, child);
    assert children + [] == children;
    updated := IdNode(node.terminal, children + [Edge(octet, child)]);
  }

  /** __contains__ */
  method Contains(root: IdNode, key: Text) returns (found: bool)
    requires Sorted(root)
    ensures found == Member(root, key)
  {
    var node := root;
    assert key[0..] == key;
    for i := 0 to |key|
      invariant Sorted(node) && Member(root, key) == Member(node, key[i..])
    {
      assert key[i..][1..] == key[i + 1..];
      var child := Child(node, key[i]);
      if child.None? { return false; }
      LookupSorted(node.children, key[i]);
      node := child.value;
    }
    found := node.terminal;
  }

  datatype Step = Step(node: IdNode, octet: char)

  /** The path walked so far leads from the root to `node`, spelling a prefix of the key. */
  ghost predicate Walked(root: IdNode, path: seq<Step>, node: IdNode, key: Text)
    decreases |path|
  {
    if path == [] then node == root
    else
      var last := path[|path| - 1];
      && |path| <= |key| && last.octet == key[|path| - 1]
      && Lookup(last.node.children, last.octet) == Some(node)
      && Walked(root, path[..|path| - 1], last.node, key)
  }

  lemma {:induction false} WalkedMember(root: IdNode, path: seq<Step>, node: IdNode, key: Text)
    requires Walked(root, path, node, key) && |path| <= |key|
    ensures Member(root, key) == Member(node, key[|path|..])
    decreases |path|
  {
    if path == [] {
      assert key[0..] == key;
    } else {
      var k := |path| - 1;
      WalkedMember(root, path[..k], path[k].node, key);
      assert key[k..][1..] == key[k + 1..];
    }
  }

  /** add: the same trie if it holds the key already, else a new one sharing the rest. */
  method Add(root: IdNode, key: Text) returns (updated: IdNode)
    requires Sorted(root)
    ensures updated == if Member(root, key) then root else WithKey(root, key)
  {
    var node := root;
    var path: seq<Step> := [];
    var missing := false;
    var i := 0;
    while i < |key| && !missing
      invariant 0 <= i <= |key| && Sorted(node)
      invariant !missing ==> |path| == i && Walked(root, path, node, key)
      invariant missing ==> |path| == i + 1 <= |key| && path[i] == Step(node, key[i])
      invariant missing ==> Walked(root, path[..i], node, key) && Lookup(node.children, key[i]).None?
      decreases |key| - i, !missing
    {
      path := path + [Step(node, key[i])];
      assert path[..i] == path[..|path| - 1];
      var child := Child(node, key[i]);
      if child.None? {
        missing := true;
      } else {
        LookupSorted(node.children, key[i]);
        node := child.value;
        i := i + 1;
      }
    }
    if missing {
      updated := Chain(key[i + 1..]);
      WalkedMember(root, path[..i], node, key);
    } else {
      WalkedMember(root, path, node, key);
      if node.terminal { return root; }
      updated := IdNode(true, node.children);
    }
    updated := Rebuild(root, path, key, updated);
  }

  /** A fresh chain of single-child nodes spelling `edges`. */
  method Chain(edges: Text) returns (node: IdNode)
    ensures node == WithKey(EMPTY, edges)
  {
    node := IdNode(true, []);
    var j := |edges|;
    while j > 0
      invariant 0 <= j <= |edges| && node == WithKey(EMPTY, edges[j..])
    {
      j := j - 1;
      assert edges[j..][1..] == edges[j + 1..];
      node := IdNode(false, [Edge(edges[j], node)]);
    }
  }

  /** The path leads along the key to its last step's node, whose child may be missing. */
  ghost predicate Leads(root: IdNode, path: seq<Step>, key: Text) {
    path != [] ==>
      var last := path[|path| - 1];
      |path| <= |key| && last.octet == key[|path| - 1] && Walked(root, path[..|path| - 1], last.node, key)
  }

  /** What stands below the path: the rest of the key put into it. */
  ghost predicate Rebuilt(root: IdNode, path: seq<Step>, key: Text, updated: IdNode) {
    && |path| <= |key|
    && var below := if path == [] then root else Below(path[|path| - 1].node, path[|path| - 1].octet);
       updated == WithKey(below, key[|path|..])
  }

  /** The nodes on the path are copied, from the last to the root. */
  method Rebuild(ghost root: IdNode, path: seq<Step>, ghost key: Text, below: IdNode) returns (updated: IdNode)
    requires Leads(root, path, key) && Rebuilt(root, path, key, below)
    ensures updated == WithKey(root, key)
  {
    updated := below;
    var k := |path|;
    assert path[..k] == path;
    while k > 0
      invariant 0 <= k <= |path|
      invariant Leads(root, path[..k], key) && Rebuilt(root, path[..k], key, updated)
    {
      k := k - 1;
      assert path[..k + 1][..k] == path[..k];
      assert key[k..][1..] == key[k + 1..];
      updated := WithChild(path[k].node, path[k].octet, updated);
    }
    assert key[0..] == key;
  }
}
