/**
 * The cost part of the command handler `main`: without an API key nothing
 * is fetched; otherwise the droplet and database lists are costed and the
 * two pairs are added up, and any failure becomes a single error reply with
 * no partial totals.
 */
module Report {
  import opened Wrappers
  import opened Money
  import opened Droplets
  import opened Databases

  /**
   * What fetching and parsing one endpoint produced: the failure message,
   * or the list field of the parsed body (`None` when the body has none, in
   * which case the estimator's default `[]` applies).
   */
  datatype Fetched<T> = FetchFailed(message: string) | Parsed(list: Option<seq<T>>)

  datatype Failure =
    | Transport(message: string)
    | Pricing(error: PriceError)

  /** The reply: the instruction to create the secret, an error, or the totals and their two parts. */
  datatype Response =
    | SecretMissing
    | Failed(failure: Failure)
    | Summary(total: Cost, droplets: Cost, databases: Cost)

  /** `digitaloceanApiKey` is truthy: present and not empty. */
  predicate HasKey(apiKey: Option<string>) {
    apiKey.Some? && apiKey.value != ""
  }

  function Items<T>(fetched: Fetched<T>): (items: seq<T>)
    requires fetched.Parsed?
  {
    fetched.list.GetOr([])
  }

  method Respond(apiKey: Option<string>, droplets: Fetched<Droplet>, databases: Fetched<Database>,
                 now: int, firstOfThisMonth: int) returns (r: Response)
    ensures !HasKey(apiKey) <==> r == SecretMissing
    ensures HasKey(apiKey) && droplets.FetchFailed? ==> r == Failed(Transport(droplets.message))
    ensures HasKey(apiKey) && droplets.Parsed? && databases.FetchFailed? ==> r == Failed(Transport(databases.message))
    ensures r.Summary? <==> HasKey(apiKey) && droplets.Parsed? && databases.Parsed? && AllPriced(Items(databases))
    ensures (HasKey(apiKey) && droplets.Parsed? && databases.Parsed?
             && DatabasesCost(Items(databases), now, firstOfThisMonth).Err?) ==>
            r == Failed(Pricing(DatabasesCost(Items(databases), now, firstOfThisMonth).error))
    ensures r.Summary? ==> r.droplets == DropletsCost(Items(droplets), now, firstOfThisMonth)
    ensures r.Summary? ==> Ok(r.databases) == DatabasesCost(Items(databases), now, firstOfThisMonth)
    ensures r.Summary? ==> r.total == r.droplets.Plus(r.databases)
    ensures r.Summary? && NonNegativePrices(Items(droplets)) ==> Ordered(r.total)
    ensures (HasKey(apiKey) && droplets.Parsed? && databases.Parsed?
             && Items(droplets) == [] && Items(databases) == []) ==>
            r == Summary(Zero, Zero, Zero)
  {
    if !HasKey(apiKey) {
      return SecretMissing;
    }
    if droplets.FetchFailed? {
      return Failed(Transport(droplets.message));
    }
    if databases.FetchFailed? {
      return Failed(Transport(databases.message));
    }
    var dropletsCost := CalcDropletsCost(Items(droplets), now, firstOfThisMonth);
    var databasesCost := CalcDBCosts(Items(databases), now, firstOfThisMonth);
    if databasesCost.Err? {
      return Failed(Pricing(databasesCost.error));
    }
    var totalCurrentCosts := dropletsCost.current + databasesCost.value.current;
    var totalProjectedCosts := dropletsCost.projected + databasesCost.value.projected;
    r := Summary(Cost(totalCurrentCosts, totalProjectedCosts), dropletsCost, databasesCost.value);
  }
}
