/**
 * The counter of the component-state demo: one `counter` stepped by the
 * "plus", "zero" and "minus" buttons. It has no lower bound.
 */
module CounterDemo {

  class Counter {
    var counter: int

    constructor ()
      ensures counter == 0
    {
      counter := 0;
    }

    /** `increaseByOne` */
    method IncreaseByOne()
      modifies this
      ensures counter == old(counter) + 1
    {
      counter := counter + 1;
    }

    /** `setToZero`: zero whatever the value was, so a second click changes nothing. */
    method SetToZero()
      modifies this
      ensures counter == 0
    {
      counter := 0;
    }

    /** `decreaseByOne`: no lower bound, the counter may go negative. */
    method DecreaseByOne()
      modifies this
      ensures counter == old(counter) - 1
    {
      counter := counter - 1;
    }
  }

  /** The buttons of the demo. */
  datatype Button = Plus | Zero | Minus

  /** The counter after `clicks`, starting from `start`. */
  function After(start: int, clicks: seq<Button>): int {
    if clicks == [] then start
    else
      var before := After(start, clicks[..|clicks| - 1]);
      match clicks[|clicks| - 1]
      case Plus => before + 1
      case Zero => 0
      case Minus => before - 1
  }

  /** Clicking the buttons of the rendered page one after another. */
  method Replay(clicks: seq<Button>) returns (c: Counter)
    ensures c.counter == After(0, clicks)
  {
    c := new Counter();
    var i := 0;
    while i < |clicks|
      invariant 0 <= i <= |clicks|
      invariant c.counter == After(0, clicks[..i])
    {
      assert clicks[..i + 1][..i] == clicks[..i];
      match clicks[i] {
        case Plus => c.IncreaseByOne();
        case Zero => c.SetToZero();
        case Minus => c.DecreaseByOne();
      }
      i := i + 1;
    }
    assert clicks[..i] == clicks;
  }

  /** Without "zero", the counter is the number of "plus" clicks minus the number of "minus" clicks. */
  lemma {:induction false} NetClicks(start: int, clicks: seq<Button>)
    requires forall i :: 0 <= i < |clicks| ==> clicks[i] != Zero
    ensures After(start, clicks) == start + multiset(clicks)[Plus] - multiset(clicks)[Minus]
  {
    if clicks != [] {
      var init := clicks[..|clicks| - 1];
      assert clicks == init + [clicks[|clicks| - 1]];
      NetClicks(start, init);
    }
  }

  /** One "minus" from the start leaves the counter below zero. */
  lemma GoesNegative()
    ensures After(0, [Minus]) == -1
  {
  }

  /** "zero" forgets everything clicked before it, and clicking it twice is clicking it once. */
  lemma {:induction false} ZeroForgets(start: int, before: seq<Button>, after: seq<Button>)
    ensures After(start, before + [Zero] + after) == After(0, after)
    ensures After(start, before + [Zero, Zero] + after) == After(start, before + [Zero] + after)
  {
    ZeroThenAfter(start, before + [Zero], after);
    ZeroThenAfter(start, before + [Zero, Zero], after);
  }

  lemma {:induction false} ZeroThenAfter(start: int, prefix: seq<Button>, after: seq<Button>)
    requires |prefix| > 0 && prefix[|prefix| - 1] == Zero
    ensures After(start, prefix + after) == After(0, after)
  {
    if after == [] {
      assert prefix + after == prefix;
    } else {
      var init := after[..|after| - 1];
      assert (prefix + after)[..|prefix + after| - 1] == prefix + init;
      ZeroThenAfter(start, prefix, init);
    }
  }
}
