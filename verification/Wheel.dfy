/** Scrolling by wheel events of bounded size (wheelUp in e2e/helpers.ts:421-436), for whole deltas. */
module Wheel {

  /** `Math.ceil(a / b)`. */
  function Ceil(a: int, b: int): int
    requires b > 0
  {
    -((-a) / b)
  }

  lemma CeilBounds(a: int, b: int)
    requires b > 0
    ensures a <= Ceil(a, b) * b < a + b
  {
    var q := (-a) / b;
    assert -a == q * b + (-a) % b;
    assert (-q) * b == -(q * b);
  }

  function Sum(steps: seq<int>): int {
    if steps == [] then 0 else Sum(steps[..|steps| - 1]) + steps[|steps| - 1]
  }

  lemma {:induction false} SumEqual(steps: seq<int>, d: int)
    requires forall i :: 0 <= i < |steps| ==> steps[i] == d
    ensures Sum(steps) == |steps| * d
  {
    if steps != [] {
      SumEqual(steps[..|steps| - 1], d);
      assert (|steps| - 1) * d + d == |steps| * d;
    }
  }

  lemma Scaled(x: int, y: int, n: int)
    requires n > 0
    ensures x <= y ==> x * n <= y * n
  {
    if x <= y {
      assert (y - x) * n >= 0;
      assert (y - x) * n == y * n - x * n;
    }
  }

  lemma AtMost(s: int, n: int, delta: int, cap: int)
    requires n > 0 && 0 < delta <= s * n < delta + n && delta <= cap * n
    ensures 0 < s <= cap
  {
    Scaled(cap + 1, s, n);
    assert (cap + 1) * n == cap * n + n;
    Scaled(s, 0, n);
  }

  /**
   The wheel events sent, all upwards. A positive delta takes as few as 100 pixels an event allow, all equal, none larger,
   and together they cover it and overshoot by less than one pixel an event; any other is sent as it is.
   */
  method WheelUp(delta: int) returns (events: seq<int>)
    ensures delta <= 0 ==> events == [-delta]
    ensures delta > 0 ==>
            && 0 < |events| && 100 * (|events| - 1) < delta <= 100 * |events|
            && (forall i :: 0 <= i < |events| ==> events[i] == events[0] && -100 <= events[i] < 0)
            && delta <= -Sum(events) < delta + |events|
  {
    var steps := if Ceil(delta, 100) > 1 then Ceil(delta, 100) else 1;
    var stepDelta := -Ceil(delta, steps);
    CeilBounds(delta, 100);
    CeilBounds(delta, steps);
    events := [];
    for i := 0 to steps
      invariant |events| == i && forall k :: 0 <= k < i ==> events[k] == stepDelta
    {
      events := events + [stepDelta];
    }
    SumEqual(events, stepDelta);
    if delta > 0 {
      AtMost(-stepDelta, steps, delta, 100);
      assert -(steps * stepDelta) == -stepDelta * steps;
    }
  }
}
