/**
 The calculator converts floating values to integers with Python's `int()`,
 which truncates toward zero. This module defines that conversion over exact
 reals and proves how it relates to the integers around its argument.
 */
module Numeric {

  /** `int(x)` for a float `x`: the integer part, rounded toward zero. */
  function Trunc(x: real): (n: int)
    ensures 0.0 <= x ==> n as real <= x < n as real + 1.0
    ensures x < 0.0 ==> n as real - 1.0 < x <= n as real
  {
    if x >= 0.0 then x.Floor else -((-x).Floor)
  }

  /** Absolute value of an integer. */
  function Abs(n: int): (a: nat)
    ensures a == n || a == -n
  {
    if n < 0 then -n else n
  }

  /** The two ensures of `Trunc` pin its result down: no other integer meets them. */
  lemma TruncUnique(x: real, n: int)
    requires 0.0 <= x ==> n as real <= x < n as real + 1.0
    requires x < 0.0 ==> n as real - 1.0 < x <= n as real
    ensures n == Trunc(x)
  {
  }

  /** `int()` leaves a value that is already integral unchanged. */
  lemma TruncOfInt(n: int)
    ensures Trunc(n as real) == n
  {
    TruncUnique(n as real, n);
  }

  /** Truncation never moves a value away from zero and never by a whole unit. */
  lemma TruncTowardZero(x: real)
    ensures 0.0 <= x ==> 0 <= Trunc(x) && Trunc(x) as real <= x
    ensures x <= 0.0 ==> Trunc(x) <= 0 && x <= Trunc(x) as real
    ensures Abs(Trunc(x)) as real <= (if x < 0.0 then -x else x)
  {
  }

  /** Truncation is odd: `int(-x) == -int(x)`, unlike flooring. */
  lemma TruncOdd(x: real)
    ensures Trunc(-x) == -Trunc(x)
  {
    var n := Trunc(x);
    if x > 0.0 {
      TruncUnique(-x, -n);
    } else if x < 0.0 {
      TruncUnique(-x, -n);
    } else {
      TruncOfInt(0);
    }
  }

  /** Truncation is monotone. */
  lemma TruncMonotone(x: real, y: real)
    requires x <= y
    ensures Trunc(x) <= Trunc(y)
  {
  }

  /** On a negative non-integral value truncation is one above the floor. */
  lemma TruncAboveFloorWhenNegative(x: real)
    requires x < 0.0 && x.Floor as real != x
    ensures Trunc(x) == x.Floor + 1
  {
    var n := x.Floor + 1;
    assert x.Floor as real < x;
    TruncUnique(x, n);
  }
}
