/**
 * The unicafe feedback form: three counters, each raised by its own button.
 */
module Unicafe {

  class Feedback {
    var good: nat
    var neutral: nat
    var bad: nat

    constructor ()
      ensures good == 0 && neutral == 0 && bad == 0
    {
      good, neutral, bad := 0, 0, 0;
    }

    /** `handleGoodClick` */
    method HandleGoodClick()
      modifies this
      ensures good == old(good) + 1
      ensures neutral == old(neutral) && bad == old(bad)
    {
      good := good + 1;
    }

    /** `handleNeutralClick` */
    method HandleNeutralClick()
      modifies this
      ensures neutral == old(neutral) + 1
      ensures good == old(good) && bad == old(bad)
    {
      neutral := neutral + 1;
    }

    /** `handleBadClick` */
    method HandleBadClick()
      modifies this
      ensures bad == old(bad) + 1
      ensures good == old(good) && neutral == old(neutral)
    {
      bad := bad + 1;
    }
  }

  /** The buttons of the form. */
  datatype Button = Good | Neutral | Bad

  /** How many times `b` occurs in a sequence of clicks. */
  function CountOf(clicks: seq<Button>, b: Button): (n: nat)
    ensures n <= |clicks|
  {
    if clicks == [] then 0
    else CountOf(clicks[..|clicks| - 1], b) + (if clicks[|clicks| - 1] == b then 1 else 0)
  }

  /**
   * After any sequence of clicks from the initial state, each counter is
   * the number of clicks on its button; counters therefore never decrease.
   */
  method Replay(clicks: seq<Button>) returns (f: Feedback)
    ensures f.good == CountOf(clicks, Good)
    ensures f.neutral == CountOf(clicks, Neutral)
    ensures f.bad == CountOf(clicks, Bad)
  {
    f := new Feedback();
    var i := 0;
    while i < |clicks|
      invariant 0 <= i <= |clicks|
      invariant f.good == CountOf(clicks[..i], Good)
      invariant f.neutral == CountOf(clicks[..i], Neutral)
      invariant f.bad == CountOf(clicks[..i], Bad)
    {
      assert clicks[..i + 1][..i] == clicks[..i];
      match clicks[i] {
        case Good => f.HandleGoodClick();
        case Neutral => f.HandleNeutralClick();
        case Bad => f.HandleBadClick();
      }
      i := i + 1;
    }
    assert clicks[..i] == clicks;
  }

  /** Every click is counted by exactly one counter. */
  lemma {:induction false} CountsAddUp(clicks: seq<Button>)
    ensures CountOf(clicks, Good) + CountOf(clicks, Neutral) + CountOf(clicks, Bad) == |clicks|
  {
    if clicks != [] {
      CountsAddUp(clicks[..|clicks| - 1]);
    }
  }

  /** More clicks never lower a count. */
  lemma {:induction false} CountMonotone(clicks: seq<Button>, more: seq<Button>, b: Button)
    ensures CountOf(clicks, b) <= CountOf(clicks + more, b)
  {
    if more == [] {
      assert clicks + more == clicks;
    } else {
      assert (clicks + more)[..|clicks + more| - 1] == clicks + more[..|more| - 1];
      CountMonotone(clicks, more[..|more| - 1], b);
    }
  }
}
