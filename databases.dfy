/**
 * `calcDBCosts`: database clusters are priced from a rate table keyed by
 * size slug and node count, because the provider's API does not report
 * their hourly price.
 */
module Databases {
  import opened Wrappers
  import opened Hours
  import opened Money
  import opened Proration

  /** A managed database cluster: `created_at` (in ms), `size` and `num_nodes`. */
  datatype Database = Database(createdAt: int, size: string, numNodes: int)

  /** A cluster the rate table has no price for. */
  datatype PriceError =
    | UnknownSize(size: string)
    | UnknownNodeCount(size: string, numNodes: int)

  /** Price units in one thousandth of a dollar. */
  const UnitsPerMill: nat := 100

  /** `dbPriceIndex`: hourly prices in thousandths of a dollar, by size slug and node count. */
  const DbPriceIndex: map<string, map<int, nat>> := map[
    "db-s-1vcpu-1gb" := map[1 := 22],
    "db-s-1vcpu-2gb" := map[1 := 45, 2 := 74, 3 := 104],
    "db-s-2vcpu-4gb" := map[1 := 89, 2 := 149, 3 := 208],
    "db-s-4vcpu-8gb" := map[1 := 179, 2 := 298, 3 := 417],
    "db-s-6vcpu-16gb" := map[1 := 357, 2 := 595, 3 := 833],
    "db-s-8vcpu-32gb" := map[1 := 714, 2 := 1190, 3 := 1667],
    "db-s-16vcpu-64gb" := map[1 := 2381, 2 := 3333]
  ]

  /**
   * `dbPriceIndex[size][num_nodes]`, in price units. An unknown size fails
   * with `UnknownSize`, a known size without that node count with
   * `UnknownNodeCount`; every price the table holds is positive.
   */
  function HourlyPrice(size: string, numNodes: int): (r: Result<int, PriceError>)
    ensures r.Ok? <==> size in DbPriceIndex && numNodes in DbPriceIndex[size]
    ensures r.Ok? ==> r.value == DbPriceIndex[size][numNodes] * UnitsPerMill && r.value > 0
    ensures size !in DbPriceIndex ==> r == Err(UnknownSize(size))
    ensures size in DbPriceIndex && numNodes !in DbPriceIndex[size] ==> r == Err(UnknownNodeCount(size, numNodes))
  {
    if size !in DbPriceIndex then Err(UnknownSize(size))
    else if numNodes !in DbPriceIndex[size] then Err(UnknownNodeCount(size, numNodes))
    else Ok(DbPriceIndex[size][numNodes] * UnitsPerMill)
  }

  predicate Priced(db: Database) {
    HourlyPrice(db.size, db.numNodes).Ok?
  }

  predicate AllPriced(databases: seq<Database>) {
    forall db :: db in databases ==> Priced(db)
  }

  /**
   * What the loop computes: the clusters' rounded contributions added in
   * list order, or the pricing error of the first cluster the table cannot
   * price (the lookup throws and no partial totals are returned).
   */
  function DatabasesCost(databases: seq<Database>, now: int, firstOfThisMonth: int): (r: Result<Cost, PriceError>)
  {
    if databases == [] then Ok(Zero)
    else
      var earlier :- DatabasesCost(databases[..|databases| - 1], now, firstOfThisMonth);
      var last := databases[|databases| - 1];
      var hourlyPrice :- HourlyPrice(last.size, last.numNodes);
      Ok(earlier.Plus(ItemCost(last.createdAt, hourlyPrice, now, firstOfThisMonth)))
  }

  /** A priced cluster's contribution; clusters without a price contribute nothing. */
  function ClusterCost(db: Database, now: int, firstOfThisMonth: int): (c: Cost)
  {
    match HourlyPrice(db.size, db.numNodes)
    case Ok(hourlyPrice) => ItemCost(db.createdAt, hourlyPrice, now, firstOfThisMonth)
    case Err(_) => Zero
  }

  /**
   * The estimator's loop: look each cluster's price up (failing on the
   * first cluster without one), count and cap its billed hours, and add
   * the rounded current and full-month amounts to the running totals.
   */
  method CalcDBCosts(databases: seq<Database>, now: int, firstOfThisMonth: int) returns (r: Result<Cost, PriceError>)
    ensures r == DatabasesCost(databases, now, firstOfThisMonth)
    ensures r.Ok? <==> AllPriced(databases)
    ensures r.Ok? ==> Ordered(r.value)
    ensures databases == [] ==> r == Ok(Zero)
  {
    var currentCost := 0;
    var projectedCost := 0;
    for i := 0 to |databases|
      invariant DatabasesCost(databases[..i], now, firstOfThisMonth) == Ok(Cost(currentCost, projectedCost))
    {
      var hoursRun;
      var price := HourlyPrice(databases[i].size, databases[i].numNodes);
      DatabasesCostStep(databases, i, now, firstOfThisMonth);
      if price.Err? {
        DatabasesCostErrExtends(databases, i + 1, now, firstOfThisMonth);
        DatabasesCostOkIff(databases, now, firstOfThisMonth);
        return Err(price.error);
      }
      var hourlyPrice := price.value;
      var databaseCreatedDate := databases[i].createdAt;
      if databaseCreatedDate > firstOfThisMonth {
        hoursRun := CalcHours(now, databaseCreatedDate);
      } else {
        hoursRun := CalcHours(now, firstOfThisMonth);
      }
      hoursRun := if hoursRun > MonthlyCap then MonthlyCap else hoursRun;
      assert hoursRun == HoursRun(databaseCreatedDate, now, firstOfThisMonth);
      ItemCostAmounts(databaseCreatedDate, databaseCreatedDate, hourlyPrice, now, firstOfThisMonth);
      currentCost := currentCost + Round2(hoursRun * hourlyPrice);
      projectedCost := projectedCost + Round2(MonthlyCap * hourlyPrice);
    }
    assert databases[..|databases|] == databases;
    r := Ok(Cost(currentCost, projectedCost));
    DatabasesCostOkIff(databases, now, firstOfThisMonth);
    DatabasesCostOrdered(databases, now, firstOfThisMonth);
  }

  /** Costing one more cluster: its price is looked up and its pair added, or its error is reported. */
  lemma DatabasesCostStep(databases: seq<Database>, i: nat, now: int, firstOfThisMonth: int)
    requires i < |databases|
    requires DatabasesCost(databases[..i], now, firstOfThisMonth).Ok?
    ensures HourlyPrice(databases[i].size, databases[i].numNodes).Err? ==>
      DatabasesCost(databases[..i + 1], now, firstOfThisMonth) == Err(HourlyPrice(databases[i].size, databases[i].numNodes).error)
    ensures HourlyPrice(databases[i].size, databases[i].numNodes).Ok? ==>
      DatabasesCost(databases[..i + 1], now, firstOfThisMonth)
      == Ok(DatabasesCost(databases[..i], now, firstOfThisMonth).value.Plus(
              ItemCost(databases[i].createdAt, HourlyPrice(databases[i].size, databases[i].numNodes).value, now, firstOfThisMonth)))
  {
    assert databases[..i + 1][..i] == databases[..i];
  }

  /**
   * Whether the clusters can be costed, and their projected total, depend
   * only on their sizes and node counts, not on when they were created.
   */
  lemma {:induction false} DatabasesProjectedIgnoresCreation(databases: seq<Database>, others: seq<Database>, now: int, firstOfThisMonth: int)
    requires |databases| == |others|
    requires forall i :: 0 <= i < |databases| ==>
      databases[i].size == others[i].size && databases[i].numNodes == others[i].numNodes
    ensures DatabasesCost(databases, now, firstOfThisMonth).Ok? == DatabasesCost(others, now, firstOfThisMonth).Ok?
    ensures DatabasesCost(databases, now, firstOfThisMonth).Ok? ==>
      DatabasesCost(databases, now, firstOfThisMonth).value.projected == DatabasesCost(others, now, firstOfThisMonth).value.projected
  {
    if databases != [] {
      var n := |databases| - 1;
      assert databases[..n + 1] == databases;
      assert others[..n + 1] == others;
      DatabasesProjectedIgnoresCreation(databases[..n], others[..n], now, firstOfThisMonth);
      if DatabasesCost(databases[..n], now, firstOfThisMonth).Ok? {
        DatabasesCostStep(databases, n, now, firstOfThisMonth);
        DatabasesCostStep(others, n, now, firstOfThisMonth);
        var price := HourlyPrice(databases[n].size, databases[n].numNodes);
        if price.Ok? {
          ItemCostAmounts(databases[n].createdAt, others[n].createdAt, price.value, now, firstOfThisMonth);
        }
      } else {
        DatabasesCostErrExtends(databases, n, now, firstOfThisMonth);
        DatabasesCostErrExtends(others, n, now, firstOfThisMonth);
      }
    }
  }

  /** Once a prefix fails to price, the whole list fails with the same error. */
  lemma {:induction false} DatabasesCostErrExtends(databases: seq<Database>, k: nat, now: int, firstOfThisMonth: int)
    requires k <= |databases|
    requires DatabasesCost(databases[..k], now, firstOfThisMonth).Err?
    ensures DatabasesCost(databases, now, firstOfThisMonth) == DatabasesCost(databases[..k], now, firstOfThisMonth)
    decreases |databases|
  {
    if k == |databases| {
      assert databases[..k] == databases;
    } else {
      var n := |databases| - 1;
      assert databases[..n][..k] == databases[..k];
      DatabasesCostErrExtends(databases[..n], k, now, firstOfThisMonth);
    }
  }

  /** The clusters are costed exactly when the table prices every one of them. */
  lemma {:induction false} DatabasesCostOkIff(databases: seq<Database>, now: int, firstOfThisMonth: int)
    ensures DatabasesCost(databases, now, firstOfThisMonth).Ok? <==> AllPriced(databases)
  {
    if databases != [] {
      var n := |databases| - 1;
      assert databases == databases[..n] + [databases[n]];
      assert forall db :: db in databases <==> db in databases[..n] || db == databases[n];
      DatabasesCostOkIff(databases[..n], now, firstOfThisMonth);
      var last := databases[n];
      if DatabasesCost(databases[..n], now, firstOfThisMonth).Err? {
        assert DatabasesCost(databases, now, firstOfThisMonth).Err?;
      } else if !Priced(last) {
        assert DatabasesCost(databases, now, firstOfThisMonth).Err?;
      } else {
        assert DatabasesCost(databases, now, firstOfThisMonth).Ok?;
      }
    }
  }

  /**
   * A failure carries the error of the first cluster without a price: every
   * cluster before it is priced.
   */
  lemma {:induction false} DatabasesCostFirstError(databases: seq<Database>, now: int, firstOfThisMonth: int)
    requires DatabasesCost(databases, now, firstOfThisMonth).Err?
    ensures exists i :: (0 <= i < |databases|
      && HourlyPrice(databases[i].size, databases[i].numNodes) == Err(DatabasesCost(databases, now, firstOfThisMonth).error)
      && AllPriced(databases[..i]))
  {
    var n := |databases| - 1;
    var e := DatabasesCost(databases, now, firstOfThisMonth).error;
    if DatabasesCost(databases[..n], now, firstOfThisMonth).Err? {
      DatabasesCostFirstError(databases[..n], now, firstOfThisMonth);
      var i :| 0 <= i < n
        && HourlyPrice(databases[..n][i].size, databases[..n][i].numNodes) == Err(DatabasesCost(databases[..n], now, firstOfThisMonth).error)
        && AllPriced(databases[..n][..i]);
      assert databases[..n][..i] == databases[..i];
      assert HourlyPrice(databases[i].size, databases[i].numNodes) == Err(e);
    } else {
      DatabasesCostOkIff(databases[..n], now, firstOfThisMonth);
      assert HourlyPrice(databases[n].size, databases[n].numNodes) == Err(e);
      assert AllPriced(databases[..n]);
    }
  }

  /** When every cluster is priced, the result is the plain sum of the clusters' contributions. */
  lemma {:induction false} DatabasesCostAsTotal(databases: seq<Database>, now: int, firstOfThisMonth: int)
    requires AllPriced(databases)
    ensures DatabasesCost(databases, now, firstOfThisMonth)
         == Ok(Total(databases, (db: Database) => ClusterCost(db, now, firstOfThisMonth)))
  {
    if databases != [] {
      var n := |databases| - 1;
      assert databases == databases[..n] + [databases[n]];
      assert AllPriced(databases[..n]);
      DatabasesCostAsTotal(databases[..n], now, firstOfThisMonth);
      var last := databases[n];
      assert last in databases;
      var hourlyPrice := HourlyPrice(last.size, last.numNodes).value;
      assert ClusterCost(last, now, firstOfThisMonth) == ItemCost(last.createdAt, hourlyPrice, now, firstOfThisMonth);
    }
  }

  /** Every successful total is non-negative and its current part does not exceed the projected one. */
  lemma DatabasesCostOrdered(databases: seq<Database>, now: int, firstOfThisMonth: int)
    requires DatabasesCost(databases, now, firstOfThisMonth).Ok?
    ensures Ordered(DatabasesCost(databases, now, firstOfThisMonth).value)
  {
    DatabasesCostOkIff(databases, now, firstOfThisMonth);
    DatabasesCostAsTotal(databases, now, firstOfThisMonth);
    var cost := (db: Database) => ClusterCost(db, now, firstOfThisMonth);
    forall i | 0 <= i < |databases|
      ensures Ordered(cost(databases[i]))
    {
      assert databases[i] in databases;
    }
    TotalOrdered(databases, cost);
  }

  /**
   * Reordering the clusters changes neither whether they can be costed
   * nor, when they can, the totals.
   */
  lemma DatabasesCostPermutation(databases: seq<Database>, others: seq<Database>, now: int, firstOfThisMonth: int)
    requires multiset(databases) == multiset(others)
    ensures DatabasesCost(databases, now, firstOfThisMonth).Ok? == DatabasesCost(others, now, firstOfThisMonth).Ok?
    ensures DatabasesCost(databases, now, firstOfThisMonth).Ok? ==>
      DatabasesCost(databases, now, firstOfThisMonth).value == DatabasesCost(others, now, firstOfThisMonth).value
  {
    assert forall db :: db in databases <==> db in others by {
      forall db ensures db in databases <==> db in others {
        assert db in databases <==> db in multiset(databases);
        assert db in others <==> db in multiset(others);
      }
    }
    DatabasesCostOkIff(databases, now, firstOfThisMonth);
    DatabasesCostOkIff(others, now, firstOfThisMonth);
    if AllPriced(databases) {
      DatabasesCostAsTotal(databases, now, firstOfThisMonth);
      DatabasesCostAsTotal(others, now, firstOfThisMonth);
      TotalPermutation(databases, others, (db: Database) => ClusterCost(db, now, firstOfThisMonth));
    }
  }

  /**
   * The smallest cluster, one node of `db-s-1vcpu-1gb` at 0.022 dollar an
   * hour, created before this month, is projected at 14.78.
   */
  lemma SmallestClusterExample(createdAt: int, now: int, firstOfThisMonth: int)
    requires createdAt <= firstOfThisMonth
    ensures HourlyPrice("db-s-1vcpu-1gb", 1) == Ok(2_200)
    ensures DatabasesCost([Database(createdAt, "db-s-1vcpu-1gb", 1)], now, firstOfThisMonth).Ok?
    ensures DatabasesCost([Database(createdAt, "db-s-1vcpu-1gb", 1)], now, firstOfThisMonth).value.projected == 1478
  {
    var db := Database(createdAt, "db-s-1vcpu-1gb", 1);
    assert [db][..0] == [];
    ItemCostAmounts(createdAt, createdAt, 2_200, now, firstOfThisMonth);
    assert Round2(MonthlyCap * 2_200) == 1478;
  }
}
