/**
 * The three incremental digests of the kernel (_digest.py), as terms: a
 * digest is the way it was built. Module DigestStream shows that the bytes
 * the program hashes determine these terms.
 */
module Digests {
  import opened Messages

  datatype Digest =
    | EmptyHistory
    | HistoryAppend(previous: Digest, message: Message)
    | NoCalls
    | CallPrepend(call: ToolCall, suffix: Digest)
    | NoIds
    | IdPrepend(id: Text, suffix: Digest)

  function ExtendHistory(digest: Digest, messages: seq<Message>): Digest {
    if messages == [] then digest
    else HistoryAppend(ExtendHistory(digest, messages[..|messages| - 1]), messages[|messages| - 1])
  }

  function HistoryDigest(messages: seq<Message>): Digest { ExtendHistory(EmptyHistory, messages) }

  function CallsDigest(calls: seq<ToolCall>): Digest {
    if calls == [] then NoCalls else CallPrepend(calls[0], CallsDigest(calls[1..]))
  }

  /** compose_call_id_digest: the ids of a prefix in front of a suffix digest. */
  function ComposeIds(prefix: seq<Text>, suffix: Digest): Digest {
    if prefix == [] then suffix else IdPrepend(prefix[0], ComposeIds(prefix[1..], suffix))
  }

  function IdsDigest(ids: seq<Text>): Digest { ComposeIds(ids, NoIds) }

  lemma {:induction false} ExtendTwice(digest: Digest, a: seq<Message>, b: seq<Message>)
    ensures ExtendHistory(ExtendHistory(digest, a), b) == ExtendHistory(digest, a + b)
  {
    if b == [] {
      assert a + b == a;
    } else {
      assert (a + b)[..|a + b| - 1] == a + b[..|b| - 1];
      ExtendTwice(digest, a, b[..|b| - 1]);
    }
  }

  /** Two histories have one digest only if they are one history. */
  lemma {:induction false} HistoryDigestInjective(a: seq<Message>, b: seq<Message>)
    requires HistoryDigest(a) == HistoryDigest(b)
    ensures a == b
  {
    if a != [] && b != [] {
      HistoryDigestInjective(a[..|a| - 1], b[..|b| - 1]);
      assert a == a[..|a| - 1] + [a[|a| - 1]];
      assert b == b[..|b| - 1] + [b[|b| - 1]];
    }
  }

  lemma {:induction false} CallsDigestInjective(a: seq<ToolCall>, b: seq<ToolCall>)
    requires CallsDigest(a) == CallsDigest(b)
    ensures a == b
  {
    if a != [] && b != [] {
      CallsDigestInjective(a[1..], b[1..]);
      assert a == [a[0]] + a[1..] && b == [b[0]] + b[1..];
    }
  }

  lemma {:induction false} ComposeTwice(a: seq<Text>, b: seq<Text>, suffix: Digest)
    ensures ComposeIds(a, ComposeIds(b, suffix)) == ComposeIds(a + b, suffix)
  {
    if a == [] {
      assert a + b == b;
    } else {
      assert (a + b)[1..] == a[1..] + b;
      ComposeTwice(a[1..], b, suffix);
    }
  }

  /**
   * A prefix that composes to the digest of a known id list, and is no longer
   * than that list, is its prefix; what it was composed with is the digest of
   * the rest.
   */
  lemma {:induction false} ComposedPrefix(prefix: seq<Text>, suffix: Digest, ids: seq<Text>)
    requires ComposeIds(prefix, suffix) == IdsDigest(ids) && |prefix| <= |ids|
    ensures prefix == ids[..|prefix|] && suffix == IdsDigest(ids[|prefix|..])
  {
    if prefix == [] {
      assert ids[0..] == ids;
    } else {
      ComposedPrefix(prefix[1..], suffix, ids[1..]);
      assert ids[1..][|prefix| - 1..] == ids[|prefix|..];
      assert prefix == [prefix[0]] + prefix[1..] && ids[..|prefix|] == [ids[0]] + ids[1..][..|prefix| - 1];
    }
  }
}
