# Fintrack transaction store, modelled in Dafny

Fintrack is a small HTTP service. It keeps every financial transaction in one
process-wide slice, `transactions`. It answers four requests over that slice:
list all, add one, delete one by id, and a monthly summary that groups the
transactions by (month, year) and totals income and expenses per group. At
startup it seeds three records.

The model has three modules:

- `Transaction` (transaction.dfy) holds the entities: `Transaction`, `Date`,
  `MonthlySummary`, the `Month` enumeration with its printed names, the
  grouping key `GroupKey`, and the values that stand for request bodies and
  responses (`Payload`, `AddResponse`, `DeleteResponse`). It also models the
  source's string grouping key `month + "-" + string(year)` (`SourceKey`).
- `Ledger` (ledger.dfy) holds pure specification functions over a
  `seq<Transaction>`. `FirstIndexOf`, `RemoveAt` and `DeleteById` say what a
  delete does. `GroupKeys`, `SumWhere` and `SummaryFor` say what the summary
  reports. The lemmas about them are here too.
- `Store` (store.dfy) holds the class `TransactionStore`. Its field
  `transactions` is the global slice.
  - `List`, `Add`, `Delete` and `Summaries` are the four handlers.
    `AddTestData` is the startup routine that seeds the slice.
  - `Delete` is the scan loop. Its result and new state are proved equal to
    `Ledger.DeleteById` of the old collection.
  - `Summaries` is stated with `Ledger.GroupKeys`, `Ledger.SumWhere` and
    `Ledger.SummaryFor`. Its two passes are the module-level methods
    `GroupByMonth` (the accumulating loop) and `Flatten` (the map-to-list
    loop). Each has its own loop invariants.
  - `Add` states its new state directly: the old collection plus the stored
    record. The stored record has the new id and agrees with the payload on
    every other field (`SameExceptId`).
  - `AddTestData` is stated against `SeedTransactions`.
  - `List` only returns the field, so its contract is that equality.

Modelling choices:

- Amounts are `real`, so sums are exact. The source uses `float64`.
- A date is a year, a `Month` and a day. Only the month and year are ever
  read.
- The request body's parse result is an input, `Payload`, which is either
  `Parsed(t)` or `Malformed(reason)`. The fresh id and the seed dates are
  inputs too. In the source they come from the wall clock.
- The summary groups by the pair `GroupKey(month, year)`. The source groups
  by the string `month + "-" + string(year)`. Go turns the integer into one
  rune: the year itself when it is a Unicode scalar value, otherwise U+FFFD.
  `SourceKeyInjective` proves that the string key and the pair agree for every
  year that is a scalar value. Every year from 0 to 9999 is one, and an
  RFC 3339 date in a JSON body has a year in that range. `SourceKeyCollision`
  shows that years outside that set would merge. For example, year -1 and year
  0xFFFD get the same key.
- Go's map iteration order is unspecified. `Flatten` takes the pending keys
  in an arbitrary order (`:|`). That is why `Summaries` states its result as
  one record per group and not as an ordered list.
- The accumulator pointers in the source's `map[string]*MonthlySummary` are
  modelled as map values. The loop writes each value back after updating it.

## Model

| member | source | states |
|---|---|---|
| `Transaction.MonthNameInjective` | main.go:123 | two months get the same printed name exactly when they are the same month, so a summary's month string identifies its month |
| `Transaction.RuneOfInjective` | main.go:125 | Go's `string(year)` gives distinct runes for distinct scalar-value years, and every other year gives the rune of year 0xFFFD |
| `Transaction.SourceKeyInjective` | main.go:125 | for scalar-value years, the source's string keys are equal exactly when the (month, year) pairs are equal |
| `Transaction.SourceKeyCollision` | main.go:125 | the years -1 and 0xFFFD give the same string key although the pairs differ |
| `Ledger.FirstIndexOf` | main.go:106-107 | the result is the first index whose id matches; the result is None exactly when no element has the id |
| `Ledger.RemoveAt` | main.go:109 | the splice is one shorter; earlier elements stay in place; later elements move down one place in order; the removed element is the only thing lost from the multiset |
| `Ledger.DeleteById` | main.go:106-115 | the answer is Deleted exactly when some element has the id; NotFound leaves the sequence unchanged; Deleted shortens it by one |
| `Ledger.DeleteRemovesOne` | main.go:106-111 | a successful delete removes exactly one element carrying the id |
| `Ledger.DeleteKeepsLaterDuplicates` | main.go:106-111 | every element carrying the id, other than the first one, is still present after the delete |
| `Ledger.DeleteTwice` | main.go:103-116 | if the id is unique, the first delete succeeds and leaves no element with that id; a second delete answers NotFound and changes nothing |
| `Ledger.AddedOnce` | main.go:96-99 | when no stored element has the fresh id, exactly one element has it after the append |
| `Ledger.AddThenDelete` | main.go:89-116 | deleting the fresh id of a just-appended record answers Deleted and restores the collection as it was before the add |
| `Ledger.GroupKeysAppend` | main.go:127-134 | one more transaction adds its own (month, year) group and no other |
| `Ledger.GroupKeysBound` | main.go:120-134 | there are never more groups than transactions |
| `Ledger.SumWhereAppend` | main.go:122-140 | a group's total over two concatenated sequences is the sum of its totals over each |
| `Ledger.SumWhereAbsent` | main.go:128-133 | a group nobody belongs to has totals of zero, which are the values a new accumulator starts with |
| `Ledger.SummaryStep` | main.go:122-140 | processing one more transaction adds its group and changes only that group's total for its own kind, by its amount |
| `Ledger.SumWhereRemove` | main.go:109 | removing the element at an index takes exactly that element's amount out of the total of its group and kind |
| `Ledger.SumWherePermutation` | main.go:122-143 | a group's total depends only on the multiset of stored transactions |
| `Ledger.SummaryOrderIndependent` | main.go:118-152 | permuting the collection leaves the set of groups and every group's record unchanged |
| `Ledger.OtherKindOnlyCreatesGroup` | main.go:127-142 | a transaction whose type is neither "income" nor "expense" still creates its group, with zero totals when the group is new, and changes no total |
| `Store.TransactionStore.constructor` | main.go:30 | the global slice starts out empty |
| `Store.TransactionStore.AddTestData` | main.go:58-83 | the three seed records are appended in order, with ids "1", "2" and "3" and the given dates |
| `Store.TransactionStore.List` | main.go:85-87 | the answer is the whole collection in storage order |
| `Store.TransactionStore.Add` | main.go:89-101 | a malformed body is answered with its error and changes nothing; otherwise the stored record has the new id and every other field of the payload, it is appended at the end, and the same record is returned |
| `Store.TransactionStore.Delete` | main.go:103-116 | the scan-and-splice loop answers and leaves behind exactly `DeleteById` of the old collection: the first match is removed, or NotFound with nothing changed |
| `Store.TransactionStore.Summaries` | main.go:118-152 | one record per (month, year) present and none for any other pair; each record's totals are its group's income and expense sums and its net is their difference; no more records than transactions; an empty collection gives an empty list |
| `Store.GroupByMonth` | main.go:120-143 | after the grouping pass, the map's keys are exactly the groups present and each value is that group's summary |
| `Store.Flatten` | main.go:146-149 | the list has one entry per key of the map; every entry is a value of the map and every value appears; the order is unspecified |
| `Store.GroupStep` | main.go:127-142 | one iteration of the grouping loop keeps the map equal to the summary of the transactions processed so far |
| `Store.FlattenedSummaries` | main.go:146-149 | a list holding each map value once has one record per group, and its records have distinct (month, year) pairs |
| `Store.SeedSummarySameMonth` | main.go:58-83 | if the three seed dates fall in one month, the seed forms a single group with income 1500, expenses 70.99 and net 1429.01 |
| `Store.SeedSummaryAcrossMonths` | main.go:58-83 | if a month boundary falls between the income record and the expenses, there are two groups: (1500, 0, 1500) and (0, 70.99, -70.99) |
| `Store.SeedSummaryAcrossMonthsLate` | main.go:58-83 | if a month boundary falls between the grocery record and the last expense, there are two groups: (1500, 45.99, 1454.01) and (0, 25, -25) |
| `Store.StartupSummary` | main.go:46-53 | startup seeding followed by a summary request, with all seed dates in one month, answers exactly one record (1500, 70.99, 1429.01) |

## Left out

- HTTP routing, JSON binding and serialisation, status codes, CORS settings and the listening port (main.go:33-55). They are framework plumbing. The responses are modelled as `AddResponse` and `DeleteResponse` values.
- `time.Now()` (main.go:64, 72, 80, 97). The clock is I/O. The new id and the three seed dates are parameters.
- Store.TransactionStore.Add: does not promise that the new id is non-empty or different from every stored id. The id comes from the second-precision clock, which is not modelled. `AddedOnce` and `AddThenDelete` take freshness as a hypothesis.
- `float64` rounding (main.go:14, 25-27). Amounts are exact reals. The source's float sums can differ in the last bits from the real sums. They can also depend on the order in which transactions are added.
- `time.Format("January")` and `Date.Year()` (main.go:123-124). These library calls are replaced by the date's `Month` and year fields.
- Store.TransactionStore.Summaries: keeps groups apart for years that are not Unicode scalar values, where the source's string key (main.go:125) would merge them into one record carrying the first transaction's month and year. No input reaches this case: years bound from JSON dates and the seed's clock-relative years are in 0..9999 (`Transaction.SourceKeyInjective`).
- The order of the summary list (main.go:147-149). Go's map iteration order is unspecified, so the model states the result up to order.
- Concurrent handlers racing on the unsynchronised slice. Concurrency is not modelled. Every operation is one atomic step.
