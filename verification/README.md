# Cash-flow report: `recalculate`

This project models how the desktop client's cash-flow report builds its chart
data. `recalculate` takes five query results:
- the balance before the range;
- four sparse per-period sums of transaction amounts, one each for cleared
  income, uncleared income, cleared expense and uncleared expense.

It folds over the ordered periods of the range, which are days or months.
For each period it looks up the four amounts, counting a missing period as 0.
It updates a running balance and running income and expense totals. It
appends one point to each of five aligned series: `income`,
`income_uncleared`, `expenses`, `expenses_uncleared` and `balances`. At the
end it returns:
- the final balance;
- the two totals;
- `totalChange`, the last balance point minus the first.

Periods are an opaque key type `K`. The range is a `seq<K>`. Each indexed
query result is a `map<K, int>`. All amounts are integer minor currency units
(`int`).

The project has four modules:
- `Wrappers`: `Option` and `Result`.
- `Sums`: `Sum` over `seq<int>` and its algebra.
- `CashFlow`: the fold itself (`Step`, `Fold`, `Recalculate`). It also holds
  the closed forms the fold is compared against: the per-period net, income
  and expense sequences `Nets`, `Incomes` and `Expenses`, and the balance
  points `BalancePoints`.
- `Queries`: the four bucket filters applied to transactions, and a reference
  meaning for the query layer's grouped `sum(amount)` (`GroupSum`). It also
  models how `recalculate` unpacks the five results, and the composition with
  `cashFlowByDate` once the queries have returned.

The source reads `balances[0]` and the last balance point without a guard.
On an empty range that read throws. The model returns `Failure(EmptyRange)`
there instead of assuming a non-empty range. Every property of a successful
result is stated for a non-empty range.

## Model

All source cells refer to `packages/desktop-client/src/components/reports/graphs/cash-flow-spreadsheet.tsx`.

| member | source | states |
|---|---|---|
| CashFlow.Lookup | packages/desktop-client/src/components/reports/graphs/cash-flow-spreadsheet.tsx:172-183 | The zero default of a sparse index: a present period gives its amount, an absent one gives 0. No contract of its own; AbsentKeyCountsAsZero and SeriesFollowPeriods state its effect on the result. |
| CashFlow.Start | packages/desktop-client/src/components/reports/graphs/cash-flow-spreadsheet.tsx:162-164 | The fold's starting state: empty series (the reduce's initial value, lines 223–229), balance seeded with the starting balance, both totals 0. No contract of its own; BalancesArePrefixSums, TotalsAreSums and FinalBalance state what the fold builds from it. |
| CashFlow.Step | packages/desktop-client/src/components/reports/graphs/cash-flow-spreadsheet.tsx:166-222 | The reduce callback: four lookups, both totals and the balance updated, one point appended to each series. No contract of its own; FoldPoints, FoldBalances, FoldTotals and FoldKeepsLedger state its effect. |
| Queries.Selects | packages/desktop-client/src/components/reports/graphs/cash-flow-spreadsheet.tsx:103-118 | The extra amount-sign and cleared filter of each of the four flow queries. No contract of its own; Classify states that exactly one filter selects a non-zero transaction and none a zero one, and EveryTransactionCountedOnce that the four buckets split each period's total. |
| Queries.Dispatch | packages/desktop-client/src/components/reports/graphs/cash-flow-spreadsheet.tsx:94-119 | The five query results in the order they are issued: opening balance, then uncleared income, cleared income, uncleared expense, cleared expense. No contract of its own; WiringMatchesFilters states how its positions reach the indexes. |
| Queries.Unpack | packages/desktop-client/src/components/reports/graphs/cash-flow-spreadsheet.tsx:128-160 | The destructuring of the five results and the result each `index` call reads. No contract of its own; WiringMatchesFilters states that each index is the grouped sum of the filter it is named after. |
| CashFlow.Fold | packages/desktop-client/src/components/reports/graphs/cash-flow-spreadsheet.tsx:165-230 | The reduce adds exactly one point per period to the balance series and to each of the four flow series. |
| CashFlow.Recalculate | packages/desktop-client/src/components/reports/graphs/cash-flow-spreadsheet.tsx:232-240 | The result is a failure exactly when the range is empty. On success all five series have one point per period. |
| CashFlow.FoldPoints | packages/desktop-client/src/components/reports/graphs/cash-flow-spreadsheet.tsx:167-183 | For any carried state, the fold keeps the existing points of each flow series. After them it appends, per period in order, the bucket's amount for that period, or 0 when the period has no key. |
| CashFlow.BalancePointsArePrefixSums | packages/desktop-client/src/components/reports/graphs/cash-flow-spreadsheet.tsx:189-220 | When balance points are built from a base balance, point i is dated with period i and holds the base plus the net flows of periods 0..i. |
| CashFlow.FoldBalances | packages/desktop-client/src/components/reports/graphs/cash-flow-spreadsheet.tsx:189-220 | The fold keeps the existing balance points and appends one point per period, carrying the running balance onward from the carried balance. |
| CashFlow.FoldTotals | packages/desktop-client/src/components/reports/graphs/cash-flow-spreadsheet.tsx:185-189 | The running balance, income total and expense total each grow by the sum of their per-period amounts over the periods folded. |
| CashFlow.FoldKeepsLedger | packages/desktop-client/src/components/reports/graphs/cash-flow-spreadsheet.tsx:185-189 | Balance minus income total minus expense total does not change in any step: every amount added to the balance is added to exactly one total. |
| CashFlow.FoldAgrees | packages/desktop-client/src/components/reports/graphs/cash-flow-spreadsheet.tsx:172-183 | Bucket sets that give the same four amounts at every period of the range produce the same fold. |
| CashFlow.SeriesFollowPeriods | packages/desktop-client/src/components/reports/graphs/cash-flow-spreadsheet.tsx:211-220 | In the result, point i of every flow series is dated with period i and holds that bucket's amount for the period (0 when absent). Balance point i is dated with period i. |
| CashFlow.BalancesArePrefixSums | packages/desktop-client/src/components/reports/graphs/cash-flow-spreadsheet.tsx:162-189 | Balance point i equals the starting balance plus the net flows of periods 0..i. |
| CashFlow.ConsecutiveBalances | packages/desktop-client/src/components/reports/graphs/cash-flow-spreadsheet.tsx:189-220 | The first balance point is the starting balance plus period 0's net flow. Each later point is the previous one plus its own period's net flow. |
| CashFlow.TotalsAreSums | packages/desktop-client/src/components/reports/graphs/cash-flow-spreadsheet.tsx:163-188 | `totalIncome` is the sum over the periods of cleared plus uncleared income. `totalExpenses` is the same sum for expenses. |
| CashFlow.FinalBalance | packages/desktop-client/src/components/reports/graphs/cash-flow-spreadsheet.tsx:236 | The returned balance is the last balance point. It equals the starting balance plus all net flows, and also the starting balance plus `totalIncome` plus `totalExpenses`. |
| CashFlow.TotalChangeSkipsFirstPeriod | packages/desktop-client/src/components/reports/graphs/cash-flow-spreadsheet.tsx:239 | `totalChange` is the last balance point minus the first. It equals the net flows of periods 1..n-1 only, because the first point already includes period 0. |
| CashFlow.SignedBucketsGiveSignedTotals | packages/desktop-client/src/components/reports/graphs/cash-flow-spreadsheet.tsx:185-188 | Income buckets holding no negative amount give `totalIncome` >= 0. Expense buckets holding no positive amount give `totalExpenses` <= 0. |
| CashFlow.OnlyListedPeriodsMatter | packages/desktop-client/src/components/reports/graphs/cash-flow-spreadsheet.tsx:165-183 | The result depends on the buckets only through their amounts at the range's periods. |
| CashFlow.AbsentKeyCountsAsZero | packages/desktop-client/src/components/reports/graphs/cash-flow-spreadsheet.tsx:167-183 | Adding an explicit 0 entry for a period missing from the buckets leaves the whole result unchanged. |
| CashFlow.OutsideRangeIgnored | packages/desktop-client/src/components/reports/graphs/cash-flow-spreadsheet.tsx:172-183 | Dropping every bucket entry for a period outside the range leaves the whole result unchanged. |
| CashFlow.WorkedExample | packages/desktop-client/src/components/reports/graphs/cash-flow-spreadsheet.tsx:127-241 | Worked example: three periods, opening balance 1000, income 500 in period 2, expense −200 in period 3. Balances are 1000, 1500, 1300; totals are 500 and −200; change is 300; final balance is 1300. |
| Queries.Classify | packages/desktop-client/src/components/reports/graphs/cash-flow-spreadsheet.tsx:103-118 | Exactly one of the four filters selects a transaction with non-zero amount. None selects a zero-amount transaction. |
| Queries.GroupSum | packages/desktop-client/src/components/reports/graphs/cash-flow-spreadsheet.tsx:80-91 | The grouped sum (by day or by month; the period key `K` covers both) of a bucket has an entry for a period exactly when a transaction it selects is dated there. The entry's value is the total of those amounts. It is positive for an income bucket and negative for an expense bucket. |
| Queries.EveryTransactionCountedOnce | packages/desktop-client/src/components/reports/graphs/cash-flow-spreadsheet.tsx:103-118 | In each period, the four bucket sums add up to the total of all transactions dated in that period. |
| Queries.WiringMatchesFilters | packages/desktop-client/src/components/reports/graphs/cash-flow-spreadsheet.tsx:128-160 | Result position 0 is the opening balance. Positions 1–4 are bound to uncleared income, cleared income, uncleared expense and cleared expense, matching the order the queries are issued in. Each index is the grouped sum of the filter it is named after. |
| Queries.CashFlowByDate | packages/desktop-client/src/components/reports/graphs/cash-flow-spreadsheet.tsx:94-123 | The result of running the queries and then `recalculate` fails exactly when the range is empty. |
| Queries.CashFlowByDateTotals | packages/desktop-client/src/components/reports/graphs/cash-flow-spreadsheet.tsx:94-123 | End to end: `totalIncome` >= 0 and `totalExpenses` <= 0. The final balance is the opening balance plus every transaction dated in the range's periods. |

## Left out

- Query construction and dispatch are not modelled: `q(...)`, the `make-filters-from-conditions` request, `runAll`, `simpleCashFlow` and the async callbacks. They are foreign calls into the query layer. `GroupSum` gives the grouped `sum(amount)` a reference meaning instead. The common filters of `makeQuery` (lines 61–78) are assumed already applied to the transaction sequence: the month range, on-budget accounts, the transfer condition and the user's conditions.
- Queries.CashFlowByDate: the opening balance is a parameter. The query at lines 96–102 that computes it is not modelled. That query has no transfer condition, unlike the four flow queries.
- The range of periods is an input. Its generation by `monthUtils.rangeInclusive` and `dayRangeInclusive` (lines 135–140) is not modelled, and neither is the month/day choice between them.
- `index`, `fromDateRepr` and `fromDateReprToDay` (lines 141–160) are not modelled. Their results are the four `map<K, int>` inputs.
- `integerToAmount` and `integerToCurrency` are display conversions, as are `d.parseISO` and `d.format`. A point carries the period key and an integer `amount`. On the four flow series that `amount` is the integer the source converts into `y` (lines 211–214); on the balance series it is the source's own `amount` field (line 219). The converted `y` values themselves are not modelled.
- The tooltip label (lines 192–209) and `CashFlowGraph.tsx` are presentation only and are not modelled.
- The source's arithmetic on JavaScript numbers is modelled as exact integers. Sums beyond 2^53 minor units would round in the source, and the model does not capture that.
- CashFlow.Recalculate: on an empty range the source throws a `TypeError` on the unguarded balance read. The model returns `Failure(EmptyRange)` instead.
