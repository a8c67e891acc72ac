/**
 * The booking price rule: a stay is charged for the number of days between check-in
 * and check-out, rounded up to a whole day, times the hotel's nightly price.
 * Times are integer milliseconds since the epoch (what subtracting two `Date`s yields)
 * and prices are integers, so the arithmetic is exact.
 */
module Pricing {

  /** `1000 * 60 * 60 * 24`, the length of a day in milliseconds. */
  const MS_PER_DAY: int := 1000 * 60 * 60 * 24

  /** `Math.ceil(a / b)` for a positive divisor. Dafny's `/` on `int` floors when `b > 0`. */
  function CeilDiv(a: int, b: int): (r: int)
    requires b > 0
    ensures (r - 1) * b < a <= r * b
  {
    var q := (-a) / b;
    assert -a == q * b + (-a) % b;
    -q
  }

  /** The day count of a stay: the least whole number of days that covers `checkOut - checkIn`. */
  function Days(checkIn: int, checkOut: int): (days: int)
    ensures (days - 1) * MS_PER_DAY < checkOut - checkIn <= days * MS_PER_DAY
  {
    CeilDiv(checkOut - checkIn, MS_PER_DAY)
  }

  /** `totalPrice = days * hotel.price`. */
  function TotalPrice(checkIn: int, checkOut: int, price: int): int {
    Days(checkIn, checkOut) * price
  }

  /** The bracketing in the contract of `Days` pins the day count down: no other whole number satisfies it. */
  lemma DaysUnique(checkIn: int, checkOut: int, n: int)
    requires (n - 1) * MS_PER_DAY < checkOut - checkIn <= n * MS_PER_DAY
    ensures Days(checkIn, checkOut) == n
  {
  }

  /** A stay of exactly `n` whole days is charged `n` nights. */
  lemma WholeDays(checkIn: int, n: int, price: int)
    ensures Days(checkIn, checkIn + n * MS_PER_DAY) == n
    ensures TotalPrice(checkIn, checkIn + n * MS_PER_DAY, price) == n * price
  {
  }

  /** A partial day is charged as a whole one. */
  lemma PartialDayRoundsUp(checkIn: int, n: int, extra: int)
    requires 0 < extra < MS_PER_DAY
    ensures Days(checkIn, checkIn + n * MS_PER_DAY + extra) == n + 1
  {
  }

  /** A check-out at or before check-in is not rejected: it yields a day count of zero or less. */
  lemma BackwardsStayNotPositive(checkIn: int, checkOut: int)
    requires checkOut <= checkIn
    ensures Days(checkIn, checkOut) <= 0
    ensures checkOut == checkIn ==> Days(checkIn, checkOut) == 0
  {
  }

  /** Check-in 2024-01-01, check-out 2024-01-04 (midnight UTC) at 100 a night costs 300. */
  lemma ThreeNightsAtOneHundred()
    ensures TotalPrice(1_704_067_200_000, 1_704_326_400_000, 100) == 300
  {
  }
}
