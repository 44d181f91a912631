/** The out-of-pocket policy (`outOfPocket`, src/App.tsx) and the rounding
    the form applies to its result. */
module Policy {

  /** The uncovered part of a per-person request, by the first tier that
      matches: all of it below 10, 5 below 25, 10 below 35, a quarter below
      100, an eighth plus 12.50 below 700, and beyond that all but 600.
      For a non-negative request it lies between 0 and the request, and the
      organisation never covers more than 600. */
  function OutOfPocket(x: real): (r: real)
    ensures x >= 0.0 ==> 0.0 <= r <= x
    ensures x - r <= 600.0
  {
    if x < 10.00 then x
    else if x < 25.00 then 5.00
    else if x < 35.00 then 10.00
    else if x < 100.00 then x * 0.25
    else if x < 700.00 then x * 0.125 + 12.50
    else x - 600.00
  }

  /** The policy's tier boundaries, value by value. */
  lemma OutOfPocketBoundaryValues()
    ensures OutOfPocket(9.99) == 9.99
    ensures OutOfPocket(10.00) == 5.00
    ensures OutOfPocket(24.99) == 5.00
    ensures OutOfPocket(25.00) == 10.00
    ensures OutOfPocket(34.99) == 10.00
    ensures OutOfPocket(35.00) == 8.75
    ensures OutOfPocket(99.99) == 24.9975
    ensures OutOfPocket(100.00) == 25.00
    ensures OutOfPocket(699.99) == 99.99875
    ensures OutOfPocket(700.00) == 100.00
  {
  }

  /** From 35 on the policy never charges less for a larger request, and it
      moves by at most as much as the request does: the pieces meet at 100
      and at 700. */
  lemma OutOfPocketMonotoneFrom35(x: real, y: real)
    requires 35.0 <= x <= y
    ensures OutOfPocket(x) <= OutOfPocket(y)
    ensures OutOfPocket(y) - OutOfPocket(x) <= y - x
  {
  }

  /** The pieces on both sides of 100 and of 700 give the same value there. */
  lemma OutOfPocketPiecesMeet()
    ensures OutOfPocket(100.0) == 100.0 * 0.25 == 100.0 * 0.125 + 12.50
    ensures OutOfPocket(700.0) == 700.0 * 0.125 + 12.50 == 700.0 - 600.00
  {
  }

  /** Below 35 the tiers jump, but a larger request is never charged 5 or
      more less than a smaller one. */
  lemma OutOfPocketDropsLessThanFive(x: real, y: real)
    requires x <= y
    ensures OutOfPocket(x) - OutOfPocket(y) < 5.0
  {
  }

  /** From 700 on the organisation covers exactly 600. */
  lemma CoverageCapped(x: real)
    requires x >= 700.0
    ensures x - OutOfPocket(x) == 600.0
  {
  }

  /** `decimalPlaces(0, BN.ROUND_UP)`: to a whole number, away from zero —
      the ceiling for a non-negative value, the floor for a negative one. */
  function RoundUp(x: real): (r: int)
    ensures x >= 0.0 ==> x <= r as real < x + 1.0
    ensures x < 0.0 ==> x - 1.0 < r as real <= x
  {
    if x >= 0.0 then -((-x).Floor) else x.Floor
  }

  /** A whole number stays as it is. */
  lemma RoundUpWhole(n: int)
    ensures RoundUp(n as real) == n
  {
  }

  /** For a non-negative request the rounded out-of-pocket amount is a whole
      number from the raw tier value up to, but not including, one more;
      it is 0 for a request of 0 and never more than the request rounded up. */
  lemma RoundedOutOfPocketBounds(x: real)
    requires x >= 0.0
    ensures OutOfPocket(x) <= RoundUp(OutOfPocket(x)) as real < OutOfPocket(x) + 1.0
    ensures 0 <= RoundUp(OutOfPocket(x)) <= RoundUp(x)
    ensures x == 0.0 ==> RoundUp(OutOfPocket(x)) == 0
  {
  }
}
