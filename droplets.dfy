/** `calcDropletsCost`: droplets carry their own hourly price. */
module Droplets {
  import opened Hours
  import opened Money
  import opened Proration

  /** The part of a droplet's `size` record the estimator reads. */
  datatype Size = Size(priceHourly: int)

  /** A droplet: its creation instant (`created_at`, in ms) and its size. */
  datatype Droplet = Droplet(createdAt: int, size: Size)

  /** What the loop accumulates: every droplet's rounded contribution, in list order. */
  function DropletsCost(droplets: seq<Droplet>, now: int, firstOfThisMonth: int): (r: Cost)
  {
    Total(droplets, (d: Droplet) => ItemCost(d.createdAt, d.size.priceHourly, now, firstOfThisMonth))
  }

  predicate NonNegativePrices(droplets: seq<Droplet>) {
    forall i :: 0 <= i < |droplets| ==> droplets[i].size.priceHourly >= 0
  }

  /**
   * The estimator's loop: for each droplet count the billed hours from its
   * creation or from the first of the month, cap them at 672, and add the
   * rounded current and full-month amounts to the running totals.
   */
  method CalcDropletsCost(droplets: seq<Droplet>, now: int, firstOfThisMonth: int) returns (cost: Cost)
    ensures cost == DropletsCost(droplets, now, firstOfThisMonth)
    ensures droplets == [] ==> cost == Zero
    ensures NonNegativePrices(droplets) ==> Ordered(cost)
  {
    var currentCost := 0;
    var projectedCost := 0;
    for i := 0 to |droplets|
      invariant Cost(currentCost, projectedCost) == DropletsCost(droplets[..i], now, firstOfThisMonth)
    {
      var dropletCreatedDate := droplets[i].createdAt;
      var hourlyPrice := droplets[i].size.priceHourly;
      var hoursRun;
      if dropletCreatedDate > firstOfThisMonth {
        hoursRun := CalcHours(now, dropletCreatedDate);
      } else {
        hoursRun := CalcHours(now, firstOfThisMonth);
      }
      hoursRun := if hoursRun > MonthlyCap then MonthlyCap else hoursRun;
      currentCost := currentCost + Round2(hoursRun * hourlyPrice);
      projectedCost := projectedCost + Round2(MonthlyCap * hourlyPrice);
      assert droplets[..i + 1][..i] == droplets[..i];
    }
    assert droplets[..|droplets|] == droplets;
    cost := Cost(currentCost, projectedCost);
    if NonNegativePrices(droplets) {
      DropletsCostOrdered(droplets, now, firstOfThisMonth);
    }
  }

  /** With non-negative prices the current total never exceeds the projected one. */
  lemma DropletsCostOrdered(droplets: seq<Droplet>, now: int, firstOfThisMonth: int)
    requires NonNegativePrices(droplets)
    ensures Ordered(DropletsCost(droplets, now, firstOfThisMonth))
  {
    var cost := (d: Droplet) => ItemCost(d.createdAt, d.size.priceHourly, now, firstOfThisMonth);
    assert forall i :: 0 <= i < |droplets| ==> Ordered(cost(droplets[i]));
    TotalOrdered(droplets, cost);
  }

  /** Reordering the droplets does not change the totals. */
  lemma DropletsCostPermutation(droplets: seq<Droplet>, others: seq<Droplet>, now: int, firstOfThisMonth: int)
    requires multiset(droplets) == multiset(others)
    ensures DropletsCost(droplets, now, firstOfThisMonth) == DropletsCost(others, now, firstOfThisMonth)
  {
    TotalPermutation(droplets, others,
      (d: Droplet) => ItemCost(d.createdAt, d.size.priceHourly, now, firstOfThisMonth));
  }

  /** Appending droplets adds their totals to the earlier ones. */
  lemma DropletsCostAppend(droplets: seq<Droplet>, more: seq<Droplet>, now: int, firstOfThisMonth: int)
    ensures DropletsCost(droplets + more, now, firstOfThisMonth)
         == DropletsCost(droplets, now, firstOfThisMonth).Plus(DropletsCost(more, now, firstOfThisMonth))
  {
    TotalAppend(droplets, more,
      (d: Droplet) => ItemCost(d.createdAt, d.size.priceHourly, now, firstOfThisMonth));
  }

  /**
   * The projected total depends only on the droplets' sizes: lists that
   * agree on every droplet's size are projected the same, whatever the
   * droplets' creation dates.
   */
  lemma {:induction false} DropletsProjectedIgnoresCreation(droplets: seq<Droplet>, others: seq<Droplet>, now: int, firstOfThisMonth: int)
    requires |droplets| == |others|
    requires forall i :: 0 <= i < |droplets| ==> droplets[i].size == others[i].size
    ensures DropletsCost(droplets, now, firstOfThisMonth).projected == DropletsCost(others, now, firstOfThisMonth).projected
  {
    if droplets != [] {
      var n := |droplets| - 1;
      assert droplets == droplets[..n] + [droplets[n]];
      assert others == others[..n] + [others[n]];
      DropletsProjectedIgnoresCreation(droplets[..n], others[..n], now, firstOfThisMonth);
      DropletsCostAppend(droplets[..n], [droplets[n]], now, firstOfThisMonth);
      DropletsCostAppend(others[..n], [others[n]], now, firstOfThisMonth);
      DropletsCostSingle(droplets[n], now, firstOfThisMonth);
      DropletsCostSingle(others[n], now, firstOfThisMonth);
      ItemCostAmounts(droplets[n].createdAt, others[n].createdAt, droplets[n].size.priceHourly, now, firstOfThisMonth);
    }
  }

  /** A single droplet contributes exactly its own rounded amounts. */
  lemma DropletsCostSingle(d: Droplet, now: int, firstOfThisMonth: int)
    ensures DropletsCost([d], now, firstOfThisMonth) == ItemCost(d.createdAt, d.size.priceHourly, now, firstOfThisMonth)
  {
    TotalSingle(d, (d: Droplet) => ItemCost(d.createdAt, d.size.priceHourly, now, firstOfThisMonth));
  }

  /**
   * The priced example of a droplet at 0.05 dollar an hour, evaluated at hour
   * 100 of the month: 5.00 so far and 33.60 for the month.
   */
  lemma DropletExample(firstOfThisMonth: int)
    ensures DropletsCost([Droplet(firstOfThisMonth, Size(5_000))], firstOfThisMonth + 100 * MsPerHour, firstOfThisMonth)
         == Cost(500, 3360)
  {
    var d := Droplet(firstOfThisMonth, Size(5_000));
    var now := firstOfThisMonth + 100 * MsPerHour;
    assert [d][..0] == [];
    assert CalcHours(now, firstOfThisMonth) == 100;
    assert HoursRun(d.createdAt, now, firstOfThisMonth) == 100;
    assert Round2(100 * 5_000) == 500;
    assert Round2(MonthlyCap * 5_000) == 3360;
    ItemCostAmounts(d.createdAt, d.createdAt, 5_000, now, firstOfThisMonth);
    assert ItemCost(d.createdAt, 5_000, now, firstOfThisMonth) == Cost(500, 3360);
    DropletsCostSingle(d, now, firstOfThisMonth);
  }

  /**
   * Rounding happens per droplet, before summation: two droplets at
   * 0.00001 dollar an hour are projected at one cent each, two cents in
   * all, where the unrounded month would round to one cent.
   */
  lemma RoundingBeforeSummation(now: int, firstOfThisMonth: int)
    ensures DropletsCost([Droplet(0, Size(1)), Droplet(0, Size(1))], now, firstOfThisMonth).projected == 2
    ensures Round2(2 * MonthlyCap * 1) == 1
  {
    var d := Droplet(0, Size(1));
    var one := DropletsCost([d], now, firstOfThisMonth);
    DropletsCostSingle(d, now, firstOfThisMonth);
    ItemCostAmounts(0, 0, 1, now, firstOfThisMonth);
    assert Round2(MonthlyCap * 1) == 1;
    assert one.projected == 1;
    DropletsCostAppend([d], [d], now, firstOfThisMonth);
    assert [d, d] == [d] + [d];
  }
}
