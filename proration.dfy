/**
 * The per-resource arithmetic that `calcDropletsCost` and `calcDBCosts`
 * both perform inside their loops: pick the instant to count from, count
 * and cap the hours, and price them.
 */
module Proration {
  import opened Hours
  import opened Money

  /**
   * The instant billing is counted from: the creation time when the
   * resource was created strictly after the first of the month, otherwise
   * the first of the month.
   */
  function StartInstant(createdAt: int, firstOfThisMonth: int): (s: int)
    ensures s >= createdAt && s >= firstOfThisMonth
    ensures s == createdAt || s == firstOfThisMonth
  {
    if createdAt > firstOfThisMonth then createdAt else firstOfThisMonth
  }

  /** Hours limited to the monthly cap. */
  function Capped(hours: nat): (h: nat)
    ensures h <= hours && h <= MonthlyCap
    ensures h == hours || h == MonthlyCap
  {
    if hours > MonthlyCap then MonthlyCap else hours
  }

  /** The billed hours of a resource so far this month. */
  function HoursRun(createdAt: int, now: int, firstOfThisMonth: int): (h: nat)
    ensures h <= MonthlyCap
  {
    Capped(CalcHours(now, StartInstant(createdAt, firstOfThisMonth)))
  }

  /**
   * A resource created on or before the first of the month is billed the
   * capped hours since the first of the month, whatever its creation date.
   */
  lemma HoursRunBeforeMonth(createdAt: int, other: int, now: int, firstOfThisMonth: int)
    requires createdAt <= firstOfThisMonth && other <= firstOfThisMonth
    ensures HoursRun(createdAt, now, firstOfThisMonth) == Capped(CalcHours(now, firstOfThisMonth))
    ensures HoursRun(createdAt, now, firstOfThisMonth) == HoursRun(other, now, firstOfThisMonth)
  {
  }

  /** A resource created strictly after the first of the month is billed from its creation. */
  lemma HoursRunThisMonth(createdAt: int, now: int, firstOfThisMonth: int)
    requires createdAt > firstOfThisMonth
    ensures HoursRun(createdAt, now, firstOfThisMonth) == Capped(CalcHours(now, createdAt))
  {
  }

  /**
   * One resource's contribution: the billed hours and the full capped
   * month priced at the hourly rate, each rounded to cents on its own.
   * With a non-negative rate both amounts are non-negative and the current
   * one does not exceed the projected one.
   */
  function ItemCost(createdAt: int, hourlyPrice: int, now: int, firstOfThisMonth: int): (c: Cost)
    ensures hourlyPrice >= 0 ==> Ordered(c)
  {
    var hoursRun := HoursRun(createdAt, now, firstOfThisMonth);
    ChargeOrdered(hoursRun, hourlyPrice);
    Cost(Round2(hoursRun * hourlyPrice), Round2(MonthlyCap * hourlyPrice))
  }

  /** Fewer hours at a non-negative rate never cost more once rounded. */
  lemma ChargeOrdered(hours: nat, hourlyPrice: int)
    requires hours <= MonthlyCap
    ensures hourlyPrice >= 0 ==> 0 <= Round2(hours * hourlyPrice) <= Round2(MonthlyCap * hourlyPrice)
  {
    if hourlyPrice >= 0 {
      assert 0 <= hours * hourlyPrice <= MonthlyCap * hourlyPrice;
      Round2Monotone(0, hours * hourlyPrice);
      Round2Monotone(hours * hourlyPrice, MonthlyCap * hourlyPrice);
    }
  }

  /**
   * The projected contribution is the rounded price of a full capped month,
   * whenever the resource was created; the current one is the rounded price
   * of the billed hours.
   */
  lemma ItemCostAmounts(createdAt: int, other: int, hourlyPrice: int, now: int, firstOfThisMonth: int)
    ensures ItemCost(createdAt, hourlyPrice, now, firstOfThisMonth).projected == Round2(MonthlyCap * hourlyPrice)
    ensures ItemCost(createdAt, hourlyPrice, now, firstOfThisMonth).projected
         == ItemCost(other, hourlyPrice, now, firstOfThisMonth).projected
    ensures ItemCost(createdAt, hourlyPrice, now, firstOfThisMonth).current
         == Round2(HoursRun(createdAt, now, firstOfThisMonth) * hourlyPrice)
  {
  }
}
