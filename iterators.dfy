/**
 * The three `yield` iterators. Each is modelled by the sequence a full
 * enumeration of it produces.
 */
module Iterators {
  import opened Numbers

  /** 0, 1, ..., n - 1 in increasing order; empty when n <= 0. */
  function Naturals(n: int): (r: seq<int>)
    ensures |r| == if n <= 0 then 0 else n
    ensures forall k :: 0 <= k < |r| ==> r[k] == k
  {
    if n <= 0 then [] else Naturals(n - 1) + [n - 1]
  }

  /** Counting up to a smaller bound enumerates a prefix of counting up to a larger one. */
  lemma NaturalsPrefix(m: int, n: int)
    requires m <= n
    ensures Naturals(m) <= Naturals(n)
  {
    var a, b := Naturals(m), Naturals(n);
    assert a == b[..|a|];
  }

  /** YieldCounter: yields i for i = 0, 1, ... while i < limit. */
  method YieldCounter(limit: int32 := 10) returns (yielded: seq<int>)
    ensures yielded == Naturals(limit as int)
  {
    yielded := [];
    var i := 0;
    while i < limit as int
      invariant 0 <= i <= if limit < 0 then 0 else limit as int
      invariant yielded == Naturals(i)
    {
      yielded := yielded + [i];
      i := i + 1;
    }
  }

  /** ManyYieldCounter: four yield statements, the same as YieldCounter(4). */
  function ManyYieldCounter(): (r: seq<int>)
    ensures r == Naturals(4)
  {
    [0, 1, 2, 3]
  }

  /** The number of values YieldCounterWithBreak(limit) yields before it stops. */
  function BreakCount(limit: int): int {
    Min(limit, HalfTruncated(limit) + 1)
  }

  /** YieldCounterWithBreak: like YieldCounter, but stops for good at the first i above limit / 2. */
  method YieldCounterWithBreak(limit: int32 := 10) returns (yielded: seq<int>)
    ensures yielded == Naturals(BreakCount(limit as int))
  {
    yielded := [];
    var i := 0;
    while i < limit as int
      invariant 0 <= i <= if BreakCount(limit as int) < 0 then 0 else BreakCount(limit as int)
      invariant yielded == Naturals(i)
    {
      if i > HalfTruncated(limit as int) {
        break;
      }
      yielded := yielded + [i];
      i := i + 1;
    }
  }

  /**
   * For a positive limit the iterator yields 0 .. limit / 2, one more than half
   * of them, and always a prefix of what YieldCounter(limit) yields.
   */
  lemma BreakYieldsLowerHalf(limit: int)
    ensures limit > 0 ==> BreakCount(limit) == limit / 2 + 1
    ensures limit <= 0 ==> Naturals(BreakCount(limit)) == []
    ensures Naturals(BreakCount(limit)) <= Naturals(limit)
  {
    NaturalsPrefix(BreakCount(limit), limit);
  }

  /** With the default limit 10, YieldCounterWithBreak yields 0 to 5. */
  lemma BreakWithDefaultLimit()
    ensures Naturals(BreakCount(10)) == [0, 1, 2, 3, 4, 5]
  {
    var r := Naturals(BreakCount(10));
    assert |r| == 6;
  }
}
