/** The default batch policy (kernel/tools.py, DefaultBatchPolicy). */
module Policy {
  import opened Wrappers
  import opened Messages
  import opened State
  import opened Changes
  import opened Rounds

  /** The longest leading run of parallel-safe calls, up to a size. */
  function SafeRun(calls: seq<ToolCall>, safe: set<Text>, limit: nat): (n: nat)
    ensures n <= |calls| && n <= limit
    ensures forall i :: 0 <= i < n ==> calls[i].name in safe
    ensures n < |calls| && n < limit ==> calls[n].name !in safe
  {
    if calls == [] || limit == 0 || calls[0].name !in safe then 0 else 1 + SafeRun(calls[1..], safe, limit - 1)
  }

  /** There is only one such number. */
  lemma SafeRunIs(calls: seq<ToolCall>, safe: set<Text>, limit: nat, n: nat)
    requires n <= |calls| && n <= limit && (forall i :: 0 <= i < n ==> calls[i].name in safe)
    requires n < |calls| && n < limit ==> calls[n].name !in safe
    ensures SafeRun(calls, safe, limit) == n
  {
  }

  /**
   * select: the longest leading run of parallel-safe calls, or the first call
   * alone; always a batch the tool step accepts from the same selectable calls.
   */
  method Select(cfg: Config, pending: seq<ToolCall>) returns (b: Option<Batch>)
    requires ValidLimits(cfg.limits) && Unique(Ids(pending))
    ensures b.None? <==> pending == []
    ensures b.Some? ==> Selected(cfg, pending, b.value)
    ensures b.Some? ==> var n := SafeRun(pending, cfg.parallelSafe, cfg.limits.maxToolBatchSize);
      b.value.calls == pending[..if n == 0 then 1 else n] && (b.value.parallel <==> n > 1)
  {
    if pending == [] { return None; }
    var id := "tool-batch-" + pending[0].id;
    PrefixUnique(pending, 1);
    if pending[0].name !in cfg.parallelSafe { return Some(Batch(id, [pending[0]], false)); }
    var selected := [pending[0]];
    var capacity := Min(|pending|, cfg.limits.maxToolBatchSize);
    var index := 1;
    while index < capacity && pending[index].name in cfg.parallelSafe
      invariant 1 <= index <= capacity && selected == pending[..index]
      invariant forall i :: 0 <= i < index ==> pending[i].name in cfg.parallelSafe
    {
      selected := selected + [pending[index]];
      index := index + 1;
    }
    SafeRunIs(pending, cfg.parallelSafe, cfg.limits.maxToolBatchSize, index);
    PrefixUnique(pending, index);
    b := Some(Batch(id, selected, |selected| > 1));
  }

  lemma PrefixUnique(calls: seq<ToolCall>, n: nat)
    requires n <= |calls| && Unique(Ids(calls))
    ensures Unique(Ids(calls[..n]))
  {
    var all, some := Ids(calls), Ids(calls[..n]);
    forall i, j | 0 <= i < j < n ensures some[i] != some[j] { assert all[i] != all[j]; }
  }
}
