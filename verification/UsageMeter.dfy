// What a run reports as used, and what its provider said was used.
module UsageMeter {
  import opened Conversation

  const U32_MAX := 0xFFFF_FFFF

  function SaturatingReplace(total: nat, previous: nat, next: nat): nat {
    var kept := if previous <= total then total - previous else 0;
    if kept + next <= U32_MAX then kept + next else U32_MAX
  }

  function ReplaceUsage(total: Usage, previous: Usage, next: Usage): Usage {
    Usage(
      SaturatingReplace(total.input, previous.input, next.input),
      SaturatingReplace(total.output, previous.output, next.output),
      SaturatingReplace(total.cacheHit, previous.cacheHit, next.cacheHit),
      SaturatingReplace(total.cacheMiss, previous.cacheMiss, next.cacheMiss))
  }

  // ------------------------------------------------------------------- snapshots by iteration

  datatype Counter = InputTokens | OutputTokens | CacheHits | CacheMisses

  function Count(u: Usage, c: Counter): nat {
    match c
    case InputTokens => u.input
    case OutputTokens => u.output
    case CacheHits => u.cacheHit
    case CacheMisses => u.cacheMiss
  }

  /** The last of an iteration's snapshots. */
  function Last(snapshots: seq<Usage>): Usage {
    if snapshots == [] then NO_USAGE else snapshots[|snapshots| - 1]
  }

  function Current(log: seq<seq<Usage>>): Usage {
    if log == [] then NO_USAGE else Last(Open(log))
  }

  /** The snapshots of the current iteration. */
  function Open(log: seq<seq<Usage>>): seq<Usage>
    requires log != []
  {
    log[|log| - 1]
  }

  /** From `before` to `after` only the current iteration went on; its snapshots now are `heard`. */
  predicate Heard(before: seq<seq<Usage>>, after: seq<seq<Usage>>, heard: seq<Usage>) {
    before != [] && after == before[..|before| - 1] + [heard]
  }

  /** The log one moment earlier: without its last snapshot, or without the iteration that has none yet. */
  function Before(log: seq<seq<Usage>>): seq<seq<Usage>>
    requires log != []
  {
    var done, open := log[..|log| - 1], Open(log);
    if open == [] then done else done + [open[..|open| - 1]]
  }

  /** The total a run carries after these snapshots, each of which replaced the one before it in its iteration. */
  function Metered(log: seq<seq<Usage>>): Usage
    decreases |log|, |if log == [] then [] else Open(log)|
  {
    if log == [] then NO_USAGE
    else if Open(log) == [] then Metered(Before(log))
    else ReplaceUsage(Metered(Before(log)), Current(Before(log)), Current(log))
  }

  /** What was really used: every iteration's last snapshot, added up. */
  function Used(log: seq<seq<Usage>>, c: Counter): nat {
    if log == [] then 0 else Used(log[..|log| - 1], c) + Count(Last(Open(log)), c)
  }

  /** At no moment so far was more used than a 32-bit counter holds. */
  predicate NeverOver(log: seq<seq<Usage>>, c: Counter)
    decreases |log|, |if log == [] then [] else Open(log)|
  {
    Used(log, c) <= U32_MAX && (log != [] ==> NeverOver(Before(log), c))
  }

  /** Every count a provider sends is a 32-bit number. */
  ghost predicate In32Bits(log: seq<seq<Usage>>) {
    forall open <- log, u <- open :: forall c: Counter :: Count(u, c) <= U32_MAX
  }

  lemma BeforeIn32Bits(log: seq<seq<Usage>>)
    requires log != [] && In32Bits(log)
    ensures In32Bits(Before(log))
    ensures forall c: Counter :: Count(Current(log), c) <= U32_MAX
  {
    var done, open := log[..|log| - 1], Open(log);
    forall s, u, c: Counter | s in Before(log) && u in s ensures Count(u, c) <= U32_MAX {
      assert open in log;
      if s in done {
        assert s in log;
      } else {
        assert s == open[..|open| - 1] && u in open;
      }
    }
    if open != [] {
      assert Last(open) in open && open in log;
    }
  }

  lemma UsedBefore(log: seq<seq<Usage>>, c: Counter)
    requires log != []
    ensures Used(log, c) + Count(Current(Before(log)), c)
         == Used(Before(log), c) + if Open(log) == [] then Count(Current(Before(log)), c) else Count(Current(log), c)
  {
    var done, open := log[..|log| - 1], Open(log);
    if open != [] {
      assert Before(log)[..|log| - 1] == done;
    }
  }

  /**
   * The reported total is never more than what was really used, and it is exactly that if and only if the real sum
   * never left 32 bits on the way: once a sum was cut off, what a later, smaller snapshot takes back is missing.
   */
  lemma {:induction false} UsageIsSum(log: seq<seq<Usage>>, c: Counter)
    requires In32Bits(log)
    ensures Count(Current(log), c) <= Count(Metered(log), c) <= U32_MAX
    ensures Count(Metered(log), c) <= Used(log, c)
    ensures Count(Metered(log), c) == Used(log, c) <==> NeverOver(log, c)
    decreases |log|, |if log == [] then [] else Open(log)|
  {
    hide In32Bits;
    if log != [] {
      BeforeIn32Bits(log);
      UsageIsSum(Before(log), c);
      UsedBefore(log, c);
      if Open(log) != [] {
        ReplacedCount(Metered(Before(log)), Current(Before(log)), Current(log), c);
      }
    }
  }

  lemma ReplacedCount(total: Usage, previous: Usage, next: Usage, c: Counter)
    ensures Count(ReplaceUsage(total, previous, next), c)
         == SaturatingReplace(Count(total, c), Count(previous, c), Count(next, c))
  {
  }

  /** A sum that was cut off and then falls is reported too low, although it fits by then. */
  lemma CutOffSumIsLost() returns (log: seq<seq<Usage>>)
    ensures In32Bits(log) && !NeverOver(log, InputTokens)
    ensures Used(log, InputTokens) == U32_MAX && Count(Metered(log), InputTokens) == U32_MAX - 1
  {
    var full, one := NO_USAGE.(input := U32_MAX), NO_USAGE.(input := 1);
    var first, second, third := [[full]], [[full], []], [[full], [one]];
    log := [[full], [one, NO_USAGE]];
    assert Before(log) == third by {
      assert [one, NO_USAGE][..1] == [one];
      assert log[..1] == first && third == first + [[one]];
    }
    assert Before(third) == second by {
      assert [one][..0] == [];
      assert third[..1] == first && second == first + [[]];
    }
    assert Before(second) == first by {
      assert second[..1] == first;
    }
    assert Before(first) == [[]] by {
      assert [full][..0] == [];
      assert first[..0] == [];
    }
    var empty: seq<seq<Usage>> := [[]];
    assert Before(empty) == [] && Metered(empty) == NO_USAGE;
    assert Metered(first) == full && Metered(second) == full && Metered(third) == full;
    assert log[..1] == first && first[..0] == [] && third[..1] == first;
    assert Used(first, InputTokens) == U32_MAX && Used(third, InputTokens) == U32_MAX + 1;
  }
}
