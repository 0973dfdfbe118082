/** The dynamic-programming glob matcher (filesystem/_common.py, glob_matches). */
module Glob {

  /** The component that stands for any number of path components. */
  const ANY_DEPTH := "**"

  /**
   * What a pattern means: `**` takes zero or more path components, any other
   * component takes exactly one, which `fits` (fnmatchcase) must accept.
   */
  predicate Matches(path: seq<string>, pattern: seq<string>, fits: (string, string) -> bool)
    decreases |pattern|, |path|
  {
    if pattern == [] then path == []
    else if pattern[0] == ANY_DEPTH then
      Matches(path, pattern[1..], fits) || (path != [] && Matches(path[1..], pattern, fits))
    else
      path != [] && fits(path[0], pattern[0]) && Matches(path[1..], pattern[1..], fits)
  }

  /** A trailing `**` takes the last component, or lets the rest of the pattern end here. */
  lemma {:induction false} MatchesAtEndDeep(path: seq<string>, front: seq<string>, fits: (string, string) -> bool)
    ensures Matches(path, front + [ANY_DEPTH], fits)
       <==> Matches(path, front, fits) || (path != [] && Matches(path[..|path| - 1], front + [ANY_DEPTH], fits))
    decreases |front|, |path|
  {
    var pattern := front + [ANY_DEPTH];
    if front == [] {
      assert pattern == [ANY_DEPTH];
      DeepMatchesAll(path, fits);
      if path != [] {
        DeepMatchesAll(path[..|path| - 1], fits);
      }
    } else {
      assert pattern[1..] == front[1..] + [ANY_DEPTH];
      if front[0] == ANY_DEPTH { MatchesAtEndDeep(path, front[1..], fits); }
      if path != [] {
        MatchesAtEndDeep(path[1..], if front[0] == ANY_DEPTH then front else front[1..], fits);
        if |path| > 1 {
          assert path[1..][..|path| - 2] == path[..|path| - 1][1..];
        } else {
          assert path[..0] == [] && path[1..] == [];
        }
      }
    }
  }

  lemma {:induction false} DeepMatchesAll(path: seq<string>, fits: (string, string) -> bool)
    ensures Matches(path, [ANY_DEPTH], fits)
  {
    assert [ANY_DEPTH][1..] == [];
    if path != [] { DeepMatchesAll(path[1..], fits); }
  }

  /** A trailing ordinary component takes exactly the last path component. */
  lemma {:induction false} MatchesAtEndOne(path: seq<string>, front: seq<string>, last: string,
                                           fits: (string, string) -> bool)
    requires last != ANY_DEPTH
    ensures Matches(path, front + [last], fits)
       <==> path != [] && fits(path[|path| - 1], last) && Matches(path[..|path| - 1], front, fits)
    decreases |front|, |path|
  {
    var pattern := front + [last];
    if front == [] {
      assert pattern[1..] == [];
      if path != [] {
        assert path[1..] == [] <==> |path| == 1;
        assert path[..|path| - 1] == [] <==> |path| == 1;
      }
    } else {
      assert pattern[1..] == front[1..] + [last];
      if front[0] == ANY_DEPTH { MatchesAtEndOne(path, front[1..], last, fits); }
      if path != [] {
        MatchesAtEndOne(path[1..], if front[0] == ANY_DEPTH then front else front[1..], last, fits);
        if |path| > 1 {
          assert path[1..][..|path| - 2] == path[..|path| - 1][1..];
        } else {
          assert path[..0] == [] && path[1..] == [];
        }
      }
    }
  }

  /** No prefix of the path matches `front`, so no path prefix matches a longer pattern. */
  lemma {:induction false} DeadStaysDead(path: seq<string>, front: seq<string>, rest: seq<string>,
                                         fits: (string, string) -> bool)
    requires forall i :: 0 <= i <= |path| ==> !Matches(path[..i], front, fits)
    ensures !Matches(path, front + rest, fits)
    decreases |rest|
  {
    if rest == [] {
      assert front + rest == front && path[..|path|] == path;
    } else {
      var next := front + [rest[0]];
      forall i | 0 <= i <= |path| ensures !Matches(path[..i], next, fits) {
        DeadPrefix(path, front, rest[0], i, fits);
      }
      DeadStaysDead(path, next, rest[1..], fits);
      assert next + rest[1..] == front + rest;
    }
  }

  lemma {:induction false} DeadPrefix(path: seq<string>, front: seq<string>, c: string, i: nat,
                                      fits: (string, string) -> bool)
    requires i <= |path|
    requires forall j :: 0 <= j <= |path| ==> !Matches(path[..j], front, fits)
    ensures !Matches(path[..i], front + [c], fits)
    decreases i
  {
    if i > 0 { assert path[..i][..i - 1] == path[..i - 1]; }
    if c == ANY_DEPTH {
      MatchesAtEndDeep(path[..i], front, fits);
      if i > 0 { DeadPrefix(path, front, c, i - 1, fits); }
    } else {
      MatchesAtEndOne(path[..i], front, c, fits);
    }
  }

  /** reachable[i] says that the components read so far match the first i path components. */
  ghost predicate Reached(reachable: array<bool>, path: seq<string>, front: seq<string>,
                          fits: (string, string) -> bool)
    reads reachable
  {
    && reachable.Length == |path| + 1
    && forall i :: 0 <= i <= |path| ==> reachable[i] == Matches(path[..i], front, fits)
  }

  method GlobMatches(path: seq<string>, pattern: seq<string>, fits: (string, string) -> bool)
    returns (matched: bool)
    ensures matched == Matches(path, pattern, fits)
  {
    var reachable := new bool[|path| + 1](i => i == 0);
    for c := 0 to |pattern|
      invariant Reached(reachable, path, pattern[..c], fits)
    {
      assert pattern[..c + 1] == pattern[..c] + [pattern[c]];
      var next := new bool[|path| + 1](i => false);
      if pattern[c] == ANY_DEPTH {
        SpreadReachable(reachable, next, path, pattern[..c], fits);
      } else {
        StepReachable(reachable, next, path, pattern[..c], pattern[c], fits);
      }
      reachable := next;
      var live := AnyTrue(reachable);
      if !live {
        forall i | 0 <= i <= |path| ensures !Matches(path[..i], pattern[..c + 1], fits) {
          assert !reachable[i];
        }
        DeadStaysDead(path, pattern[..c + 1], pattern[c + 1..], fits);
        assert pattern[..c + 1] + pattern[c + 1..] == pattern;
        return false;
      }
    }
    assert pattern[..|pattern|] == pattern && path[..|path|] == path;
    return reachable[|path|];
  }

  /** The `**` row: reachable from here on once anything before was. */
  method SpreadReachable(reachable: array<bool>, next: array<bool>, ghost path: seq<string>,
                         ghost front: seq<string>, ghost fits: (string, string) -> bool)
    requires Reached(reachable, path, front, fits)
    requires next.Length == reachable.Length && next != reachable
    modifies next
    ensures Reached(next, path, front + [ANY_DEPTH], fits)
  {
    var seen := false;
    for i := 0 to reachable.Length
      invariant seen == (i > 0 && Matches(path[..i - 1], front + [ANY_DEPTH], fits))
      invariant forall j :: 0 <= j < i ==> next[j] == Matches(path[..j], front + [ANY_DEPTH], fits)
    {
      seen := seen || reachable[i];
      next[i] := seen;
      MatchesAtEndDeep(path[..i], front, fits);
      if i > 0 { assert path[..i][..i - 1] == path[..i - 1]; }
    }
  }

  /** The row of an ordinary component: reachable one further where the component fits. */
  method StepReachable(reachable: array<bool>, next: array<bool>, path: seq<string>,
                       ghost front: seq<string>, component: string, fits: (string, string) -> bool)
    requires Reached(reachable, path, front, fits) && component != ANY_DEPTH
    requires next.Length == reachable.Length && next != reachable
    requires forall i :: 0 <= i < next.Length ==> !next[i]
    modifies next
    ensures Reached(next, path, front + [component], fits)
  {
    MatchesAtEndOne(path[..0], front, component, fits);
    for i := 0 to |path|
      invariant forall j :: 0 <= j <= i ==> next[j] == Matches(path[..j], front + [component], fits)
      invariant forall j :: i < j <= |path| ==> !next[j]
    {
      if reachable[i] && fits(path[i], component) {
        next[i + 1] := true;
      }
      MatchesAtEndOne(path[..i + 1], front, component, fits);
      assert path[..i + 1][..i] == path[..i];
    }
  }

  method AnyTrue(flags: array<bool>) returns (live: bool)
    ensures live == exists i :: 0 <= i < flags.Length && flags[i]
  {
    live := false;
    for i := 0 to flags.Length
      invariant live == exists j :: 0 <= j < i && flags[j]
    {
      live := live || flags[i];
    }
  }
}
