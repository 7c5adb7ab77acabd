/** The firmware's one rounding rule, `(int)(w + (w >= 0 ? 0.5f : -0.5f))`,
    written out at every place a weight leaves the device: the OLED, the
    status endpoint, both push payloads and the WebSocket broadcasts. */
module Rounding {

  /** C's conversion of a floating value to `int`: truncation toward zero. */
  function TruncateTowardZero(x: real): (r: int)
    ensures x >= 0.0 ==> 0 <= r && r as real <= x < r as real + 1.0
    ensures x < 0.0 ==> r <= 0 && r as real - 1.0 < x <= r as real
  {
    if x >= 0.0 then x.Floor else -((-x).Floor)
  }

  /** Round half away from zero. */
  function RoundHalfAway(w: real): int {
    TruncateTowardZero(w + (if w >= 0.0 then 0.5 else -0.5))
  }

  /** The rounded value is within half a gram of the weight. */
  lemma RoundWithinHalf(w: real)
    ensures -0.5 <= RoundHalfAway(w) as real - w <= 0.5
  {
  }

  /** No integer is closer to the weight than the rounded value. */
  lemma RoundIsNearest(w: real, k: int)
    ensures Abs(RoundHalfAway(w) as real - w) <= Abs(k as real - w)
  {
    RoundWithinHalf(w);
    var r := RoundHalfAway(w);
    if k != r {
      assert k <= r - 1 || k >= r + 1;
    }
  }

  /** Rounding is symmetric about zero. */
  lemma RoundOdd(w: real)
    ensures RoundHalfAway(-w) == -RoundHalfAway(w)
  {
    if w > 0.0 {
      assert -w + -0.5 == -(w + 0.5);
    }
  }

  /** Halves are rounded away from zero. */
  lemma RoundHalfUp(k: nat)
    ensures RoundHalfAway(k as real + 0.5) == k + 1
    ensures RoundHalfAway(-(k as real + 0.5)) == -(k + 1)
  {
    RoundOdd(k as real + 0.5);
  }

  /** Whole grams are left as they are. */
  lemma RoundOfInteger(k: int)
    ensures RoundHalfAway(k as real) == k
  {
  }

  /** Rounding never reverses the order of two weights. */
  lemma RoundMonotonic(a: real, b: real)
    requires a <= b
    ensures RoundHalfAway(a) <= RoundHalfAway(b)
  {
  }

  function Abs(x: real): real {
    if x >= 0.0 then x else -x
  }
}
