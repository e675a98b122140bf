/**
 * Class DelegateTest: a static counter, the IncrementDelegate delegate type,
 * composition of delegates with `+`, and the event MyEvent.
 */
module Delegates {
  import opened Wrappers
  import opened Numbers

  /**
   * A value of delegate type IncrementDelegate, given by the length of its
   * invocation list: every delegate in the program refers to Increment, so
   * the list is that many references to it. A null delegate has an empty list.
   */
  datatype IncrementDelegate = IncrementDelegate(invocations: nat)

  const NullDelegate := IncrementDelegate(0)

  /**
   * Delegate addition `a + b`: a's invocation list followed by b's; a null
   * operand leaves the other operand as the result.
   */
  function Combine(a: IncrementDelegate, b: IncrementDelegate): (r: IncrementDelegate)
    ensures a == NullDelegate ==> r == b
    ensures b == NullDelegate ==> r == a
    ensures r.invocations == a.invocations + b.invocations
  {
    IncrementDelegate(a.invocations + b.invocations)
  }

  /** Combining is associative, so a chain of `+=` is one flat invocation list. */
  lemma CombineAssociative(a: IncrementDelegate, b: IncrementDelegate, c: IncrementDelegate)
    ensures Combine(Combine(a, b), c) == Combine(a, Combine(b, c))
  {
  }

  /** The static members of DelegateTest: the counter and the event's delegate. */
  class DelegateTest {
    var count: int32
    var myEvent: IncrementDelegate

    /** The state at program start: count = 0 and no subscriber. */
    constructor ()
      ensures count == 0 && myEvent == NullDelegate
    {
      count := 0;
      myEvent := NullDelegate;
    }

    /** `return ++count;` */
    method Increment() returns (r: int32)
      modifies this`count
      ensures count == Wrap(old(count) as int + 1)
      ensures r == count
    {
      count := Wrap(count as int + 1);
      r := count;
    }

    /**
     * Invoking a delegate runs its invocation list in order and answers with
     * the last call's result; invoking a null delegate is a
     * NullReferenceException, here None, and changes nothing.
     */
    method Invoke(d: IncrementDelegate) returns (r: Option<int32>)
      modifies this`count
      ensures count == Wrap(old(count) as int + d.invocations)
      ensures r == if d.invocations == 0 then None else Some(count)
    {
      r := None;
      var k := 0;
      while k < d.invocations
        invariant 0 <= k <= d.invocations
        invariant count == Wrap(old(count) as int + k)
        invariant r == if k == 0 then None else Some(count)
      {
        var last := Increment();
        WrapAdd(old(count) as int + k, 1);
        r := Some(last);
        k := k + 1;
      }
      if d.invocations == 0 {
        WrapCongruent(old(count) as int, old(count) as int + 0);
      }
    }

    /** `MyEvent += d`. */
    method Subscribe(d: IncrementDelegate)
      modifies this`myEvent
      ensures myEvent == Combine(old(myEvent), d)
    {
      myEvent := Combine(myEvent, d);
    }

    /** Raising MyEvent: invoking every subscribed delegate. */
    method RaiseMyEvent() returns (r: Option<int32>)
      modifies this`count
      ensures count == Wrap(old(count) as int + myEvent.invocations)
      ensures r == if myEvent.invocations == 0 then None else Some(count)
    {
      r := Invoke(myEvent);
    }

    /**
     * NotMain: from the initial state, the three printed results are 1, 4
     * and 6 (a single call, a delegate composed of three copies, then an event
     * with two subscribers).
     */
    method NotMain() returns (printed: seq<Option<int32>>)
      requires count == 0 && myEvent == NullDelegate
      modifies this
      ensures printed == [Some(1), Some(4), Some(6)]
    {
      var inc := IncrementDelegate(1);
      var first := Invoke(inc);
      var composedInc := inc;
      composedInc := Combine(composedInc, inc);
      composedInc := Combine(composedInc, inc);
      var second := Invoke(composedInc);
      Subscribe(IncrementDelegate(1));
      Subscribe(IncrementDelegate(1));
      var third := RaiseMyEvent();
      printed := [first, second, third];
    }
  }
}
