/**
 * The complex-state demo: two click counters kept three ways at once (as
 * `left`/`right`, as the `clicks` object and as the `allClicks` history),
 * a running `total`, and an independent `value` set by three buttons.
 * `History` renders the click history.
 */
module ComplexState {

  /** The `clicks` object. */
  datatype Clicks = Clicks(left: nat, right: nat)

  const UsageMessage: string := "the app is used by pressing the buttons"
  const HistoryPrefix: string := "button press history: "

  /** `cs.join(' ')` for a history of one-letter clicks. */
  function JoinWithSpaces(cs: seq<char>): (r: string)
    ensures |cs| == 0 ==> r == ""
    ensures |cs| > 0 ==> |r| == 2 * |cs| - 1
    ensures forall i :: 0 <= i < |cs| ==> r[2 * i] == cs[i]
    ensures forall i :: 0 <= i < |cs| - 1 ==> r[2 * i + 1] == ' '
  {
    if |cs| <= 1 then cs
    else JoinWithSpaces(cs[..|cs| - 1]) + [' ', cs[|cs| - 1]]
  }

  /** The text `History` renders: the usage message for an empty history, otherwise the joined clicks. */
  function History(allClicks: seq<char>): string {
    if |allClicks| == 0 then UsageMessage else HistoryPrefix + JoinWithSpaces(allClicks)
  }

  /** The usage message appears exactly when nothing has been clicked yet. */
  lemma HistoryShowsUsageIffEmpty(allClicks: seq<char>)
    ensures History(allClicks) == UsageMessage <==> allClicks == []
    ensures allClicks != [] ==>
              |History(allClicks)| == |HistoryPrefix| + 2 * |allClicks| - 1 &&
              History(allClicks)[|HistoryPrefix| + 2 * (|allClicks| - 1)] == allClicks[|allClicks| - 1]
  {
    if allClicks != [] {
      assert History(allClicks)[0] == 'b' != UsageMessage[0];
    }
  }

  lemma HistoryExample()
    ensures History(['L', 'R', 'R']) == "button press history: L R R"
    ensures History([]) == "the app is used by pressing the buttons"
  {
    assert JoinWithSpaces(['L', 'R']) == "L R" by {
      assert ['L', 'R'][..1] == ['L'];
    }
    assert ['L', 'R', 'R'][..2] == ['L', 'R'];
  }

  class ComplexStateApp {
    var left: nat
    var right: nat
    var allClicks: seq<char>
    var total: nat
    var clicks: Clicks
    var value: int

    /**
     * The three views of the click count agree: `total` is their sum, the
     * `clicks` object mirrors the counters, and the history holds one 'L'
     * per left click and one 'R' per right click.
     */
    ghost predicate Valid()
      reads this
    {
      && total == left + right
      && clicks == Clicks(left, right)
      && |allClicks| == left + right
      && multiset(allClicks)['L'] == left
      && multiset(allClicks)['R'] == right
    }

    constructor ()
      ensures Valid()
      ensures left == 0 && right == 0 && allClicks == [] && total == 0 && value == 10
    {
      left, right, allClicks, total := 0, 0, [], 0;
      clicks := Clicks(0, 0);
      value := 10;
    }

    /** `handleLeftClick`: the left counters go up by one; the right ones and `value` stay. */
    method HandleLeftClick()
      requires Valid()
      modifies this
      ensures Valid()
      ensures left == old(left) + 1 && clicks.left == old(clicks.left) + 1
      ensures right == old(right) && clicks.right == old(clicks.right)
      ensures allClicks == old(allClicks) + ['L'] && total == old(total) + 1
      ensures value == old(value)
    {
      clicks := clicks.(left := clicks.left + 1);
      allClicks := allClicks + ['L'];
      var updatedLeft := left + 1;
      left := updatedLeft;
      total := updatedLeft + right;
    }

    /** `handleRightClick`: the right counters go up by one; the left ones and `value` stay. */
    method HandleRightClick()
      requires Valid()
      modifies this
      ensures Valid()
      ensures right == old(right) + 1 && clicks.right == old(clicks.right) + 1
      ensures left == old(left) && clicks.left == old(clicks.left)
      ensures allClicks == old(allClicks) + ['R'] && total == old(total) + 1
      ensures value == old(value)
    {
      clicks := clicks.(right := clicks.right + 1);
      allClicks := allClicks + ['R'];
      var updatedRight := right + 1;
      right := updatedRight;
      total := updatedRight + left;
    }

    /** `setToValue1(v)` and `setToValue2(v)`: `value` becomes `v`, the click state stays. */
    method SetToValue(v: int)
      requires Valid()
      modifies this
      ensures Valid()
      ensures value == v
      ensures left == old(left) && right == old(right) && allClicks == old(allClicks)
      ensures total == old(total) && clicks == old(clicks)
    {
      value := v;
    }

    /** The "thousand" button. */
    method Thousand()
      requires Valid()
      modifies this
      ensures Valid() && value == 1000
      ensures left == old(left) && right == old(right) && allClicks == old(allClicks)
    {
      SetToValue(1000);
    }

    /** The "reset" button. */
    method Reset()
      requires Valid()
      modifies this
      ensures Valid() && value == 0
      ensures left == old(left) && right == old(right) && allClicks == old(allClicks)
    {
      SetToValue(0);
    }

    /** The "increment" button: the value rendered when it was clicked, plus one. */
    method Increment()
      requires Valid()
      modifies this
      ensures Valid() && value == old(value) + 1
      ensures left == old(left) && right == old(right) && allClicks == old(allClicks)
    {
      SetToValue(value + 1);
    }
  }
}
