/** The pending-call cursor with its precomputed suffix digests (kernel/state.py, PendingToolCalls). */
module Pending {
  import opened Wrappers
  import opened Messages
  import opened Digests

  datatype PendingToolCalls = PendingToolCalls(
    calls: seq<ToolCall>, offset: nat, digests: seq<Digest>, idDigests: seq<Digest>)

  /** Position i of both tables digests the calls from i on. */
  predicate Tabulated(calls: seq<ToolCall>, digests: seq<Digest>, idDigests: seq<Digest>) {
    && |digests| == |calls| + 1 && |idDigests| == |calls| + 1
    && forall i :: 0 <= i <= |calls| ==>
         digests[i] == CallsDigest(calls[i..]) && idDigests[i] == IdsDigest(Ids(calls[i..]))
  }

  predicate Valid(p: PendingToolCalls) {
    && p.offset < |p.calls| && Unique(Ids(p.calls))
    && Tabulated(p.calls, p.digests, p.idDigests)
  }

  /** The calls that remain. */
  function Remaining(p: PendingToolCalls): seq<ToolCall>
    requires p.offset <= |p.calls|
  {
    p.calls[p.offset..]
  }

  datatype PendingError = NoPendingCalls | DuplicateIds | OutOfRange

  /** The constructor fills both tables backwards, one step for each call. */
  method Create(calls: seq<ToolCall>) returns (r: Result<PendingToolCalls, PendingError>)
    ensures r.Ok? <==> calls != [] && Unique(Ids(calls))
    ensures r.Ok? ==> Valid(r.value) && Remaining(r.value) == calls
    ensures calls == [] ==> r == Err(NoPendingCalls)
    ensures calls != [] && !Unique(Ids(calls)) ==> r == Err(DuplicateIds)
  {
    if calls == [] { return Err(NoPendingCalls); }
    if |ToSet(Ids(calls))| != |calls| {
      UniqueByCount(Ids(calls));
      return Err(DuplicateIds);
    }
    UniqueByCount(Ids(calls));
    var filled := FillTables(calls);
    r := Ok(filled);
  }

  /** The tables from position `index` on. */
  ghost predicate TabulatedFrom(calls: seq<ToolCall>, index: nat, digests: seq<Digest>, idDigests: seq<Digest>) {
    && index <= |calls| && |digests| == |calls| - index + 1 && |idDigests| == |calls| - index + 1
    && forall i :: 0 <= i <= |calls| - index ==>
         digests[i] == CallsDigest(calls[index + i..]) && idDigests[i] == IdsDigest(Ids(calls[index + i..]))
  }

  lemma FillOne(calls: seq<ToolCall>, index: nat, digests: seq<Digest>, idDigests: seq<Digest>)
    requires 0 < index && TabulatedFrom(calls, index, digests, idDigests)
    ensures TabulatedFrom(calls, index - 1, [CallPrepend(calls[index - 1], digests[0])] + digests,
                          [IdPrepend(calls[index - 1].id, idDigests[0])] + idDigests)
  {
    var call := calls[index - 1];
    assert calls[index - 1..][1..] == calls[index..];
    assert Ids(calls[index - 1..])[1..] == Ids(calls[index..]);
    var d, e := [CallPrepend(call, digests[0])] + digests, [IdPrepend(call.id, idDigests[0])] + idDigests;
    forall i | 0 < i <= |calls| - (index - 1)
      ensures d[i] == CallsDigest(calls[index - 1 + i..]) && e[i] == IdsDigest(Ids(calls[index - 1 + i..]))
    {
      assert d[i] == digests[i - 1] && e[i] == idDigests[i - 1];
    }
  }

  method FillTables(calls: seq<ToolCall>) returns (p: PendingToolCalls)
    requires calls != [] && Unique(Ids(calls))
    ensures Valid(p) && Remaining(p) == calls
  {
    var digests, idDigests := [NoCalls], [NoIds];
    var index: nat := |calls|;
    assert calls[index..] == [] && Ids([]) == [];
    while index > 0
      invariant TabulatedFrom(calls, index, digests, idDigests)
    {
      FillOne(calls, index, digests, idDigests);
      index := index - 1;
      digests := [CallPrepend(calls[index], digests[0])] + digests;
      idDigests := [IdPrepend(calls[index].id, idDigests[0])] + idDigests;
    }
    p := PendingToolCalls(calls, 0, digests, idDigests);
  }

  /** Items are pairwise distinct exactly when their set is as large as they are many. */
  lemma {:induction false} UniqueByCount(ids: seq<Text>)
    ensures |ToSet(ids)| <= |ids|
    ensures Unique(ids) <==> |ToSet(ids)| == |ids|
  {
    if ids != [] {
      var front, last := ids[..|ids| - 1], ids[|ids| - 1];
      UniqueByCount(front);
      assert ToSet(ids) == ToSet(front) + {last};
      assert last in ToSet(front) <==> exists i :: 0 <= i < |front| && front[i] == last;
      if Unique(ids) {
        assert Unique(front);
      } else if Unique(front) {
        assert last in ToSet(front);
      }
    }
  }

  /** advance: the rest of the calls, sharing the tables; None once no call is left. */
  method Advance(p: PendingToolCalls, count: int) returns (r: Result<Option<PendingToolCalls>, PendingError>)
    requires Valid(p)
    ensures r.Ok? <==> 0 <= count <= |Remaining(p)|
    ensures r.Ok? ==> (r.value.None? <==> count == |Remaining(p)|)
    ensures r.Ok? && r.value.Some? ==> Valid(r.value.value) && Remaining(r.value.value) == Remaining(p)[count..]
    ensures r.Err? ==> r.error == OutOfRange
  {
    if count < 0 || count > |p.calls| - p.offset { return Err(OutOfRange); }
    if count == 0 { return Ok(Some(p)); }
    var offset := p.offset + count;
    if offset == |p.calls| { return Ok(None); }
    assert p.calls[offset..] == p.calls[p.offset..][count..];
    r := Ok(Some(p.(offset := offset)));
  }

  /** prefix and limit: at most `count` leading calls. */
  method Prefix(p: PendingToolCalls, count: int) returns (r: Result<seq<ToolCall>, PendingError>)
    requires Valid(p)
    ensures r.Ok? <==> count >= 0
    ensures r.Ok? ==> r.value == if count <= |Remaining(p)| then Remaining(p)[..count] else Remaining(p)
    ensures r.Err? ==> r.error == OutOfRange
  {
    if count < 0 { return Err(OutOfRange); }
    var left := |p.calls| - p.offset;
    var taken := if count < left then count else left;
    assert p.calls[p.offset..p.offset + taken] == p.calls[p.offset..][..taken];
    r := Ok(p.calls[p.offset..p.offset + taken]);
  }

  /** What the two digests say about the remaining calls. */
  lemma DigestsCompare(a: PendingToolCalls, b: PendingToolCalls)
    requires Valid(a) && Valid(b)
    ensures a.digests[a.offset] == b.digests[b.offset] <==> Remaining(a) == Remaining(b)
  {
    if a.digests[a.offset] == b.digests[b.offset] { CallsDigestInjective(Remaining(a), Remaining(b)); }
  }

  /** __eq__: same length and digest, then call by call. */
  method Equal(a: PendingToolCalls, b: PendingToolCalls) returns (same: bool)
    requires Valid(a) && Valid(b)
    ensures same <==> Remaining(a) == Remaining(b)
  {
    DigestsCompare(a, b);
    hide Tabulated, Unique;
    if |a.calls| - a.offset != |b.calls| - b.offset || a.digests[a.offset] != b.digests[b.offset] {
      return false;
    }
    same := true;
    for i := 0 to |a.calls| - a.offset
      invariant same
    {
      assert Remaining(a)[i] == Remaining(b)[i];
      if a.calls[a.offset + i] != b.calls[b.offset + i] { return false; }
    }
  }

  /** Taking the first `count` ids off the front of the digest leaves the rest's digest. */
  lemma DigestAdvances(calls: seq<ToolCall>, count: nat)
    requires count <= |calls|
    ensures ComposeIds(Ids(calls[..count]), IdsDigest(Ids(calls[count..]))) == IdsDigest(Ids(calls))
  {
    ComposeTwice(Ids(calls[..count]), Ids(calls[count..]), NoIds);
    assert Ids(calls[..count]) + Ids(calls[count..]) == Ids(calls);
  }
}
