/**
 * Fixed-point money. An hourly price is an integer number of price units
 * (one price unit is 0.00001 dollar); a rounded amount is an integer number
 * of cents.
 */
module Money {

  /** Price units in one dollar. */
  const UnitsPerDollar: nat := 100_000

  /** Price units in one cent. */
  const UnitsPerCent: nat := 1_000

  /**
   * `Number(x.toFixed(2))`: round an amount given in price units to the
   * nearest cent, a tie going away from zero (`toFixed` rounds the magnitude
   * and then restores the sign).
   */
  function Round2(x: int): (c: int)
    ensures x >= 0 ==> c * UnitsPerCent - UnitsPerCent / 2 <= x < c * UnitsPerCent + UnitsPerCent / 2
    ensures x < 0 ==> c * UnitsPerCent - UnitsPerCent / 2 < x <= c * UnitsPerCent + UnitsPerCent / 2
  {
    if x >= 0 then (x + UnitsPerCent / 2) / UnitsPerCent
    else -((-x + UnitsPerCent / 2) / UnitsPerCent)
  }

  /** Rounding to cents preserves order. */
  lemma Round2Monotone(x: int, y: int)
    requires x <= y
    ensures Round2(x) <= Round2(y)
  {
  }

  /** Rounding is symmetric about zero. */
  lemma Round2Odd(x: int)
    ensures Round2(-x) == -Round2(x)
  {
  }

  /** A whole number of cents is left unchanged. */
  lemma Round2Exact(c: int)
    ensures Round2(c * UnitsPerCent) == c
  {
  }

  /** A `{current, projected}` pair, in cents. */
  datatype Cost = Cost(current: int, projected: int) {
    /** The component-wise sum of two pairs. */
    function Plus(other: Cost): Cost
    {
      Cost(current + other.current, projected + other.projected)
    }
  }

  const Zero: Cost := Cost(0, 0)

  /**
   * Adding pairs is commutative and associative and has `Zero` as its
   * identity, so a grand total does not depend on how its parts are grouped.
   */
  lemma PlusLaws(a: Cost, b: Cost, c: Cost)
    ensures a.Plus(b) == b.Plus(a)
    ensures a.Plus(b).Plus(c) == a.Plus(b.Plus(c))
    ensures Zero.Plus(a) == a && a.Plus(Zero) == a
  {
  }

  /** A pair whose amounts are non-negative and whose current part does not exceed its projected part. */
  predicate Ordered(c: Cost) {
    0 <= c.current <= c.projected
  }

  /**
   * The accumulated pair for a list: each item's (already rounded) cost is
   * added to the running totals in list order, starting from zero.
   */
  function Total<T>(xs: seq<T>, cost: T -> Cost): (r: Cost)
  {
    if xs == [] then Zero else Total(xs[..|xs| - 1], cost).Plus(cost(xs[|xs| - 1]))
  }

  /** A one-item list totals to that item's cost. */
  lemma TotalSingle<T>(x: T, cost: T -> Cost)
    ensures Total([x], cost) == cost(x)
  {
    assert [x][..0] == [];
    var c := cost(x);
    assert Zero.Plus(c) == Cost(c.current, c.projected) == c;
  }

  lemma {:induction false} TotalAppend<T>(xs: seq<T>, ys: seq<T>, cost: T -> Cost)
    ensures Total(xs + ys, cost) == Total(xs, cost).Plus(Total(ys, cost))
    decreases |ys|
  {
    if ys == [] {
      assert xs + ys == xs;
    } else {
      var n := |ys| - 1;
      assert (xs + ys)[..|xs + ys| - 1] == xs + ys[..n];
      assert (xs + ys)[|xs + ys| - 1] == ys[n];
      TotalAppend(xs, ys[..n], cost);
    }
  }

  /** An item's cost can be moved from the middle of a list to its end. */
  lemma TotalMiddle<T>(left: seq<T>, y: T, right: seq<T>, cost: T -> Cost)
    ensures Total(left + [y] + right, cost) == Total(left + right, cost).Plus(cost(y))
  {
    var l, r := Total(left, cost), Total(right, cost);
    calc {
      Total(left + [y] + right, cost);
      { TotalAppend(left + [y], right, cost); }
      Total(left + [y], cost).Plus(r);
      { TotalAppend(left, [y], cost); TotalSingle(y, cost); }
      l.Plus(cost(y)).Plus(r);
      l.Plus(r).Plus(cost(y));
      { TotalAppend(left, right, cost); }
      Total(left + right, cost).Plus(cost(y));
    }
  }

  /** Taking one item out of a list and adding its cost afterwards gives the same total. */
  lemma TotalRemove<T>(ys: seq<T>, k: nat, cost: T -> Cost)
    requires k < |ys|
    ensures Total(ys, cost) == Total(ys[..k] + ys[k + 1..], cost).Plus(cost(ys[k]))
  {
    SplitAt(ys, k);
    TotalMiddle(ys[..k], ys[k], ys[k + 1..], cost);
  }

  lemma SplitAt<T>(ys: seq<T>, k: nat)
    requires k < |ys|
    ensures ys == ys[..k] + [ys[k]] + ys[k + 1..]
  {
  }

  /** Totals do not depend on the order of the items: only rounded amounts are summed. */
  lemma {:induction false} TotalPermutation<T>(xs: seq<T>, ys: seq<T>, cost: T -> Cost)
    requires multiset(xs) == multiset(ys)
    ensures Total(xs, cost) == Total(ys, cost)
    decreases |xs|
  {
    if xs == [] {
      assert |ys| == |multiset(ys)| == 0;
    } else {
      var n := |xs| - 1;
      var x := xs[n];
      assert xs == xs[..n] + [x];
      assert x in multiset(ys);
      var k :| 0 <= k < |ys| && ys[k] == x;
      var rest := ys[..k] + ys[k + 1..];
      assert ys == ys[..k] + [x] + ys[k + 1..];
      assert multiset(xs[..n]) == multiset(rest) by {
        assert multiset(xs) == multiset(xs[..n]) + multiset{x};
        assert multiset(ys) == multiset(ys[..k]) + multiset{x} + multiset(ys[k + 1..]);
        assert multiset(rest) == multiset(ys[..k]) + multiset(ys[k + 1..]);
        assert multiset(xs[..n]) == multiset(xs) - multiset{x};
        assert multiset(rest) == multiset(ys) - multiset{x};
      }
      TotalPermutation(xs[..n], rest, cost);
      TotalRemove(ys, k, cost);
    }
  }

  /** Summing ordered pairs gives an ordered pair. */
  lemma {:induction false} TotalOrdered<T>(xs: seq<T>, cost: T -> Cost)
    requires forall i :: 0 <= i < |xs| ==> Ordered(cost(xs[i]))
    ensures Ordered(Total(xs, cost))
  {
    if xs != [] {
      var n := |xs| - 1;
      assert forall i :: 0 <= i < n ==> xs[..n][i] == xs[i];
      TotalOrdered(xs[..n], cost);
    }
  }
}
