# DigitalOcean bill estimator, modelled in Dafny

This project models the cost estimator of the `/dobill` chat command
(`src/dobill.js`). For the droplets and the managed database clusters of an
account, the command estimates what has been spent so far this month and what
the whole month will cost. For each resource it:

- counts the hours since the resource was created, or since the first of the
  month when the resource is older than that;
- caps those hours at DigitalOcean's 672-hour monthly cap;
- adds the billed hours times the hourly price, rounded to cents, to the
  *current* total;
- adds 672 hours times the hourly price, rounded to cents, to the *projected*
  total.

Droplets carry their own hourly price (`size.price_hourly`). Database
clusters are priced from the embedded rate table `dbPriceIndex`, keyed by
size slug and node count. A cluster the table cannot price makes the whole
command reply with one error. `main` adds the droplet pair and the database
pair component by component.

Units and conventions of the model:

- Instants are integer milliseconds. `now` and the first of the month are
  parameters, and one `now` is used for a whole invocation.
- Hourly prices are integers in *price units* of 0.00001 dollar, which is
  enough for DigitalOcean's five-decimal droplet prices. The rate table keeps
  the source's thousandths of a dollar, and the lookup multiplies by 100.
- Amounts are integers in cents, so sums are exact.
- `Number(x.toFixed(2))` is `Money.Round2`. It rounds to the nearest cent and
  sends a tie away from zero, which is half-up for the non-negative amounts
  that occur.

Modules, one per component:

- `Hours`: `calcHours` and the constants.
- `Money`: rounding, the `{current, projected}` pair and accumulation over a
  list.
- `Proration`: the per-resource steps both loops perform.
- `Droplets`: `calcDropletsCost`.
- `Databases`: `calcDBCosts` and the rate table.
- `Report`: the cost path of `main`.
- `Wrappers`: `Option` and `Result`.

Both estimator loops are methods. Each is proved equal to a recursive
specification function: `Droplets.DropletsCost` for droplets, and
`Databases.DatabasesCost` for clusters, whose result is an error value or a
pair. The properties are then proved as lemmas about those functions.

What `src/dobill.js` does and does not do:

- The projected amount is always 672 hours at the hourly price (lines 62
  and 101), even for a resource created this month.
- Only droplets and databases are priced.
- A known size slug with an unknown node count does not throw (see
  "Left out").

## Model

| member | source | states |
|---|---|---|
| `Hours.CalcHours` | src/dobill.js:32-34 | the result is the ceiling of the absolute gap over one hour: the least whole number of hours covering the gap |
| `Hours.CalcHoursSymmetric` | src/dobill.js:33 | swapping the two instants gives the same hours |
| `Hours.CalcHoursZeroIff` | src/dobill.js:33 | zero hours exactly when the instants coincide |
| `Hours.CalcHoursWithinOneHour` | src/dobill.js:33 | any positive gap of at most one hour counts as exactly one hour |
| `Hours.CalcHoursMonotone` | src/dobill.js:33 | a larger gap never gives fewer hours |
| `Money.Round2` | src/dobill.js:61-62 | the result in cents is within half a cent of the amount; ties go away from zero |
| `Money.Round2Monotone` | src/dobill.js:61-62 | rounding to cents preserves order |
| `Money.Round2Odd` | src/dobill.js:61 | rounding is symmetric about zero |
| `Money.Round2Exact` | src/dobill.js:61 | a whole number of cents is unchanged by rounding |
| `Money.PlusLaws` | src/dobill.js:137-139 | adding `{current, projected}` pairs is commutative and associative, with {0, 0} as identity |
| `Money.TotalSingle` | src/dobill.js:45-63 | a one-item list accumulates to that item's cost |
| `Money.TotalAppend` | src/dobill.js:45-63 | the accumulation over a concatenation is the sum of the two accumulations |
| `Money.TotalMiddle` | src/dobill.js:45-63 | an item's cost added in the middle of the list contributes the same as when added last |
| `Money.TotalRemove` | src/dobill.js:45-63 | an item's cost can be taken out of the accumulation wherever the item sits in the list |
| `Money.TotalPermutation` | src/dobill.js:61-62 | accumulating rounded per-item amounts gives the same pair for any ordering of the items |
| `Money.TotalOrdered` | src/dobill.js:61-62 | if every item has 0 <= current <= projected, so does the total |
| `Proration.StartInstant` | src/dobill.js:51-56 | billing starts at the later of the creation instant and the first of the month |
| `Proration.Capped` | src/dobill.js:58-59 | the capped hours are the smaller of the hours and 672 |
| `Proration.HoursRun` | src/dobill.js:52-59 | billed hours always lie in [0, 672], however old the resource |
| `Proration.HoursRunBeforeMonth` | src/dobill.js:52-56 | a resource created on or before the first of the month is billed min(672, hours since the first of the month), whatever its creation date |
| `Proration.HoursRunThisMonth` | src/dobill.js:52-53 | a resource created strictly after the first of the month is billed min(672, hours since its creation) |
| `Proration.ChargeOrdered` | src/dobill.js:58-62 | at a non-negative rate, at most 672 hours cost between zero and the rounded full-month amount |
| `Proration.ItemCost` | src/dobill.js:61-62 | with a non-negative hourly price, 0 <= current <= projected for one resource |
| `Droplets.CalcDropletsCost` | src/dobill.js:40-66 | the loop's pair equals the accumulation of every droplet's rounded amounts; an empty list gives {0, 0}; with non-negative prices 0 <= current <= projected |
| `Droplets.DropletsCostOrdered` | src/dobill.js:58-62 | with non-negative prices the current total never exceeds the projected total |
| `Droplets.DropletsCostPermutation` | src/dobill.js:61-62 | the droplet totals do not depend on list order |
| `Droplets.DropletsProjectedIgnoresCreation` | src/dobill.js:62 | two droplet lists that agree on every droplet's size have the same projected total, whatever the creation dates |
| `Droplets.DropletsCostAppend` | src/dobill.js:45-63 | the totals of two droplet lists add up |
| `Droplets.DropletsCostSingle` | src/dobill.js:45-63 | one droplet contributes exactly its own rounded pair |
| `Droplets.DropletExample` | src/dobill.js:52-62 | a droplet at 0.05 dollar an hour, created at the month's start and evaluated at hour 100, costs 5.00 so far and 33.60 projected |
| `Droplets.RoundingBeforeSummation` | src/dobill.js:61-62 | rounding happens per droplet before summing: two droplets at 0.00001 dollar an hour are projected at 0.02, where the rounded sum would be 0.01 |
| `Databases.HourlyPrice` | src/dobill.js:70-78 | succeeds exactly for table entries and then gives `dbPriceIndex[size][num_nodes]`, always positive; an unknown slug fails with UnknownSize, an unknown node count with UnknownNodeCount |
| `Databases.CalcDBCosts` | src/dobill.js:68-105 | the loop's result equals the specification; it succeeds exactly when every cluster is priced; a success has 0 <= current <= projected; an empty list gives {0, 0} |
| `Databases.DatabasesCostStep` | src/dobill.js:85-101 | costing one more cluster either fails with its lookup error or adds its rounded pair to the totals so far |
| `Databases.DatabasesCostErrExtends` | src/dobill.js:85-88 | once a prefix fails to price, the whole list fails with that error |
| `Databases.DatabasesCostOkIff` | src/dobill.js:88 | costing succeeds if and only if the rate table prices every cluster |
| `Databases.DatabasesCostFirstError` | src/dobill.js:85-88 | a failure carries the error of the first unpriced cluster; every cluster before it is priced |
| `Databases.DatabasesCostAsTotal` | src/dobill.js:85-102 | when every cluster is priced, the result is the sum of the clusters' rounded pairs |
| `Databases.DatabasesCostOrdered` | src/dobill.js:97-101 | every successful database pair has 0 <= current <= projected |
| `Databases.DatabasesCostPermutation` | src/dobill.js:100-101 | reordering the clusters changes neither success nor the totals |
| `Databases.DatabasesProjectedIgnoresCreation` | src/dobill.js:88-101 | two cluster lists that agree on every cluster's size and node count either both fail or both succeed with the same projected total, whatever the creation dates |
| `Databases.SmallestClusterExample` | src/dobill.js:71-101 | `db-s-1vcpu-1gb` with 1 node is priced 0.022 dollar an hour and, when created before this month, projected at 14.78 |
| `Report.Respond` | src/dobill.js:107-157 | no API key gives the secret instruction and no costing; a fetch failure or an unpriced cluster gives one error and no totals; otherwise the totals are the component-wise sums of the droplet and database pairs, with 0 <= current <= projected for non-negative droplet prices, and {0, 0} for empty lists |

## Left out

- `getContent` (src/dobill.js:6-26): HTTPS I/O and promises. `Report.Respond` takes each endpoint's outcome as a parameter instead: a failure message, or the parsed list (absent when the body has no such field).
- From `main`: looking up the secret, `JSON.parse`, the request URLs and headers, the message template and the response envelope. The missing-key branch is modelled; `Respond` returns the three parts of the summary in place of the text.
- Reading the clock and computing the local-time first of the month (`Date.now()`, `new Date(...)`). They depend on the system clock and time zone, so `now` and `firstOfThisMonth` are parameters. The source calls `Date.now()` once per `calcHours` call; the model uses one `now` for the whole invocation.
- Parsing `created_at` strings into instants; the model takes the instant in milliseconds.
- Floating point: `Number(x.toFixed(2))` and JavaScript's sums of doubles are modelled as exact fixed-point arithmetic. Binary effects at half-cent boundaries and summation drift are not modelled.
- Prices that are not a whole number of 0.00001 dollar cannot be represented.
- Databases.HourlyPrice: for a known size slug with an unknown node count, the source reads `undefined`, and the totals silently become `NaN` without an exception. The model reports this as the `UnknownNodeCount` failure. An unknown slug throws in the source, which the model's `UnknownSize` failure matches.
- Property names inherited by JavaScript objects, such as looking up the slug `constructor`, are treated like any other unknown slug.
- The error text of a failure, such as the `TypeError` message behind `*ERROR:*`, is not modelled. The reply carries the error value instead.
