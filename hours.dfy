/**
 * Time arithmetic of the estimator. Instants are integer milliseconds since
 * the epoch, as JavaScript's `Date` values compare and subtract.
 */
module Hours {

  /** Milliseconds in one hour (`36e5`). */
  const MsPerHour: nat := 3_600_000

  /** DigitalOcean bills at most this many hours in a month (28 days of 24 hours). */
  const MonthlyCap: nat := 672

  function Abs(x: int): (a: nat)
    ensures a == x || a == -x
  {
    if x < 0 then -x else x
  }

  /**
   * `calcHours`: the whole number of hours, rounded up, between `now` and
   * `date`: the least `h` with `|now - date| <= h * MsPerHour`.
   */
  function CalcHours(now: int, date: int): (h: nat)
    ensures Abs(now - date) <= h * MsPerHour
    ensures h > 0 ==> (h - 1) * MsPerHour < Abs(now - date)
  {
    (Abs(now - date) + MsPerHour - 1) / MsPerHour
  }

  /** The difference is taken in absolute value, so argument order does not matter. */
  lemma CalcHoursSymmetric(a: int, b: int)
    ensures CalcHours(a, b) == CalcHours(b, a)
  {
    assert Abs(a - b) == Abs(b - a);
  }

  /** No hours pass exactly when the two instants coincide. */
  lemma CalcHoursZeroIff(now: int, date: int)
    ensures CalcHours(now, date) == 0 <==> now == date
  {
  }

  /** Any positive gap of at most one hour is charged as one whole hour. */
  lemma CalcHoursWithinOneHour(now: int, date: int)
    requires 0 < Abs(now - date) <= MsPerHour
    ensures CalcHours(now, date) == 1
  {
  }

  /** A larger gap never yields fewer hours. */
  lemma CalcHoursMonotone(now: int, a: int, b: int)
    requires Abs(now - a) <= Abs(now - b)
    ensures CalcHours(now, a) <= CalcHours(now, b)
  {
  }
}
