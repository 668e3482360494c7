/** The process-wide transaction collection and the four request handlers over
    it: list, add, delete by id and the monthly summary. */
module Store {
  import opened Transaction
  import opened Ledger

  /** The three records the service seeds at startup, dated five, three and
      one day before the current time. */
  function SeedTransactions(fiveDaysAgo: Date, threeDaysAgo: Date, oneDayAgo: Date): seq<Transaction>
  {
    [ Transaction("1", 1500.0, "Salary", "Monthly salary", fiveDaysAgo, Income),
      Transaction("2", 45.99, "Groceries", "Weekly shopping", threeDaysAgo, Expense),
      Transaction("3", 25.00, "Entertainment", "Movie tickets", oneDayAgo, Expense) ]
  }

  /** The global slice of transactions, in storage order. */
  class TransactionStore {
    var transactions: seq<Transaction>

    /** The slice starts out empty. */
    constructor ()
      ensures transactions == []
    {
      transactions := [];
    }

    /** Appends the three seed records, one at a time. */
    method AddTestData(fiveDaysAgo: Date, threeDaysAgo: Date, oneDayAgo: Date)
      modifies this
      ensures transactions == old(transactions) + SeedTransactions(fiveDaysAgo, threeDaysAgo, oneDayAgo)
    {
      var seed := SeedTransactions(fiveDaysAgo, threeDaysAgo, oneDayAgo);
      transactions := transactions + [seed[0]];
      transactions := transactions + [seed[1]];
      transactions := transactions + [seed[2]];
    }

    /** The full collection, in storage order. */
    method List() returns (all: seq<Transaction>)
      ensures all == transactions
    {
      all := transactions;
    }

    /** A body that did not parse is answered with the parse error and changes
        nothing; otherwise the record gets `newId` in place of whatever id the
        client sent, is appended, and is returned as stored. */
    method Add(payload: Payload, newId: string) returns (response: AddResponse)
      modifies this
      ensures payload.Malformed? ==>
        response == MalformedInput(payload.reason) && transactions == old(transactions)
      ensures payload.Parsed? ==>
        && response.Created?
        && response.record.id == newId
        && SameExceptId(response.record, payload.t)
        && transactions == old(transactions) + [response.record]
    {
      if payload.Malformed? {
        return MalformedInput(payload.reason);
      }
      var t := payload.t.(id := newId);
      transactions := transactions + [t];
      response := Created(t);
    }

    /** Scans in order for the first transaction with `id` and splices it out;
        without a match answers NotFound and leaves the collection as it was. */
    method Delete(id: string) returns (response: DeleteResponse)
      modifies this
      ensures (response, transactions) == DeleteById(old(transactions), id)
    {
      var i := 0;
      while i < |transactions|
        invariant 0 <= i <= |transactions|
        invariant transactions == old(transactions)
        invariant forall j :: 0 <= j < i ==> transactions[j].id != id
      {
        if transactions[i].id == id {
          transactions := transactions[..i] + transactions[i + 1..];
          return Deleted;
        }
        i := i + 1;
      }
      return NotFound;
    }

    /** One pass groups the transactions by (month, year) into a map of running
        totals; the map is then flattened in an unspecified order. The result
        holds one record per group present, each with the group's income and
        expense totals and their difference. */
    method Summaries() returns (summaries: seq<MonthlySummary>)
      ensures |summaries| == |GroupKeys(transactions)| <= |transactions|
      ensures transactions == [] ==> summaries == []
      ensures forall i :: 0 <= i < |summaries| ==>
        exists key :: key in GroupKeys(transactions) && summaries[i] == SummaryFor(transactions, key)
      ensures forall key :: key in GroupKeys(transactions) ==> SummaryFor(transactions, key) in summaries
      ensures forall i, j :: 0 <= i < j < |summaries| ==>
        summaries[i].month != summaries[j].month || summaries[i].year != summaries[j].year
      ensures forall i :: 0 <= i < |summaries| ==>
        summaries[i].netAmount == summaries[i].totalIncome - summaries[i].totalExpenses
    {
      var summaryMap := GroupByMonth(transactions);
      ghost var order;
      summaries, order := Flatten(summaryMap);
      GroupKeysBound(transactions);
      FlattenedSummaries(transactions, summaryMap, order, summaries);
    }
  }

  /** The grouping pass: a map from each (month, year) present to its running
      summary, advanced transaction by transaction. */
  method GroupByMonth(txs: seq<Transaction>) returns (summaryMap: map<GroupKey, MonthlySummary>)
    ensures summaryMap.Keys == GroupKeys(txs)
    ensures forall key :: key in summaryMap ==> summaryMap[key] == SummaryFor(txs, key)
  {
    summaryMap := map[];
    for i := 0 to |txs|
      invariant summaryMap.Keys == GroupKeys(txs[..i])
      invariant forall key :: key in summaryMap ==> summaryMap[key] == SummaryFor(txs[..i], key)
    {
      ghost var before := summaryMap;
      var t := txs[i];
      var key := KeyOf(t);
      var summary: MonthlySummary;
      if key in summaryMap {
        summary := summaryMap[key];
      } else {
        summary := MonthlySummary(MonthName(key.month), key.year, 0.0, 0.0, 0.0);
        summaryMap := summaryMap[key := summary];
        SumWhereAbsent(txs[..i], key, Income);
        SumWhereAbsent(txs[..i], key, Expense);
      }
      assert summary == SummaryFor(txs[..i], key);
      if t.kind == Income {
        summary := summary.(totalIncome := summary.totalIncome + t.amount);
      } else if t.kind == Expense {
        summary := summary.(totalExpenses := summary.totalExpenses + t.amount);
      }
      summary := summary.(netAmount := summary.totalIncome - summary.totalExpenses);
      summaryMap := summaryMap[key := summary];
      assert txs[..i + 1] == txs[..i] + [t];
      GroupStep(txs[..i], t, before, summary, summaryMap);
    }
    assert txs[..|txs|] == txs;
  }

  /** The flattening pass: the map's values in some order, one per key; `order`
      records which key each position came from. */
  method Flatten(summaryMap: map<GroupKey, MonthlySummary>)
    returns (summaries: seq<MonthlySummary>, ghost order: seq<GroupKey>)
    ensures |summaries| == |summaryMap.Keys|
    ensures forall s :: s in summaries ==> s in summaryMap.Values
    ensures forall key :: key in summaryMap ==> summaryMap[key] in summaries
    ensures |order| == |summaries|
    ensures forall i :: 0 <= i < |order| ==> order[i] in summaryMap && summaries[i] == summaryMap[order[i]]
    ensures forall key :: key in summaryMap ==> key in order
    ensures forall i, j :: 0 <= i < j < |order| ==> order[i] != order[j]
  {
    summaries := [];
    order := [];
    var pending := summaryMap.Keys;
    while pending != {}
      invariant pending <= summaryMap.Keys
      invariant |order| == |summaries|
      invariant |summaries| + |pending| == |summaryMap.Keys|
      invariant forall i :: 0 <= i < |order| ==>
        order[i] in summaryMap && order[i] !in pending && summaries[i] == summaryMap[order[i]]
      invariant forall key :: key in summaryMap && key !in pending ==> key in order
      invariant forall i, j :: 0 <= i < j < |order| ==> order[i] != order[j]
      decreases |pending|
    {
      var key :| key in pending;
      summaries := summaries + [summaryMap[key]];
      order := order + [key];
      pending := pending - {key};
    }
    forall key | key in summaryMap
      ensures summaryMap[key] in summaries
    {
      var i :| 0 <= i < |order| && order[i] == key;
      assert summaries[i] == summaryMap[key];
    }
  }

  /** One iteration of the grouping loop: if the map summarised `prefix` and the
      accumulator for `t`'s group was advanced by `t` (its income or its
      expense total, then the net), the updated map summarises `prefix + [t]`. */
  lemma GroupStep(prefix: seq<Transaction>, t: Transaction, before: map<GroupKey, MonthlySummary>,
                  summary: MonthlySummary, after: map<GroupKey, MonthlySummary>)
    requires before.Keys == GroupKeys(prefix)
    requires forall key :: key in before ==> before[key] == SummaryFor(prefix, key)
    requires
      var acc := SummaryFor(prefix, KeyOf(t));
      var income := acc.totalIncome + (if t.kind == Income then t.amount else 0.0);
      var expenses := acc.totalExpenses + (if t.kind == Expense then t.amount else 0.0);
      summary == MonthlySummary(acc.month, acc.year, income, expenses, income - expenses)
    requires after == before[KeyOf(t) := summary]
    ensures after.Keys == GroupKeys(prefix + [t])
    ensures forall key :: key in after ==> after[key] == SummaryFor(prefix + [t], key)
  {
    SummaryStep(prefix, t);
  }

  /** What the flattening loop establishes: the list holds the map's values,
      one per key. */
  lemma FlattenedSummaries(txs: seq<Transaction>, summaryMap: map<GroupKey, MonthlySummary>,
                           order: seq<GroupKey>, summaries: seq<MonthlySummary>)
    requires summaryMap.Keys == GroupKeys(txs)
    requires forall key :: key in summaryMap ==> summaryMap[key] == SummaryFor(txs, key)
    requires |order| == |summaries| == |summaryMap.Keys|
    requires forall i :: 0 <= i < |order| ==> order[i] in summaryMap && summaries[i] == summaryMap[order[i]]
    requires forall key :: key in summaryMap ==> key in order
    requires forall i, j :: 0 <= i < j < |order| ==> order[i] != order[j]
    ensures forall i :: 0 <= i < |summaries| ==>
      exists key :: key in GroupKeys(txs) && summaries[i] == SummaryFor(txs, key)
    ensures forall key :: key in GroupKeys(txs) ==> SummaryFor(txs, key) in summaries
    ensures forall i, j :: 0 <= i < j < |summaries| ==>
      summaries[i].month != summaries[j].month || summaries[i].year != summaries[j].year
  {
    forall i | 0 <= i < |summaries|
      ensures order[i] in GroupKeys(txs) && summaries[i] == SummaryFor(txs, order[i])
    {
    }
    forall key | key in GroupKeys(txs)
      ensures SummaryFor(txs, key) in summaries
    {
      var i :| 0 <= i < |order| && order[i] == key;
      assert summaries[i] == SummaryFor(txs, key);
    }
    forall i, j | 0 <= i < j < |summaries|
      ensures summaries[i].month != summaries[j].month || summaries[i].year != summaries[j].year
    {
      MonthNameInjective(order[i].month, order[j].month);
    }
  }

  /** When all three seed dates fall in the same month of the same year, the
      seeded collection summarises to a single group: income 1500, expenses
      70.99, net 1429.01. */
  lemma SeedSummarySameMonth(fiveDaysAgo: Date, threeDaysAgo: Date, oneDayAgo: Date)
    requires fiveDaysAgo.month == threeDaysAgo.month == oneDayAgo.month
    requires fiveDaysAgo.year == threeDaysAgo.year == oneDayAgo.year
    ensures GroupKeys(SeedTransactions(fiveDaysAgo, threeDaysAgo, oneDayAgo))
      == {GroupKey(fiveDaysAgo.month, fiveDaysAgo.year)}
    ensures SummaryFor(SeedTransactions(fiveDaysAgo, threeDaysAgo, oneDayAgo), GroupKey(fiveDaysAgo.month, fiveDaysAgo.year))
      == MonthlySummary(MonthName(fiveDaysAgo.month), fiveDaysAgo.year, 1500.0, 70.99, 1429.01)
  {
    SeedSums(fiveDaysAgo, threeDaysAgo, oneDayAgo, GroupKey(fiveDaysAgo.month, fiveDaysAgo.year));
  }

  /** When the month changes between the income record and the two expenses,
      the seeded collection summarises to two groups instead. This is one of
      the two ways a month boundary can split the seed; the other is
      SeedSummaryAcrossMonthsLate. */
  lemma SeedSummaryAcrossMonths(fiveDaysAgo: Date, threeDaysAgo: Date, oneDayAgo: Date)
    requires GroupKey(fiveDaysAgo.month, fiveDaysAgo.year) != GroupKey(threeDaysAgo.month, threeDaysAgo.year)
    requires threeDaysAgo.month == oneDayAgo.month && threeDaysAgo.year == oneDayAgo.year
    ensures GroupKeys(SeedTransactions(fiveDaysAgo, threeDaysAgo, oneDayAgo))
      == {GroupKey(fiveDaysAgo.month, fiveDaysAgo.year), GroupKey(threeDaysAgo.month, threeDaysAgo.year)}
    ensures SummaryFor(SeedTransactions(fiveDaysAgo, threeDaysAgo, oneDayAgo), GroupKey(fiveDaysAgo.month, fiveDaysAgo.year))
      == MonthlySummary(MonthName(fiveDaysAgo.month), fiveDaysAgo.year, 1500.0, 0.0, 1500.0)
    ensures SummaryFor(SeedTransactions(fiveDaysAgo, threeDaysAgo, oneDayAgo), GroupKey(threeDaysAgo.month, threeDaysAgo.year))
      == MonthlySummary(MonthName(threeDaysAgo.month), threeDaysAgo.year, 0.0, 70.99, -70.99)
  {
    SeedSums(fiveDaysAgo, threeDaysAgo, oneDayAgo, GroupKey(fiveDaysAgo.month, fiveDaysAgo.year));
    SeedSums(fiveDaysAgo, threeDaysAgo, oneDayAgo, GroupKey(threeDaysAgo.month, threeDaysAgo.year));
  }

  /** When the month changes between the grocery record and the last expense,
      the income and the groceries form one group and the movie tickets
      another. */
  lemma SeedSummaryAcrossMonthsLate(fiveDaysAgo: Date, threeDaysAgo: Date, oneDayAgo: Date)
    requires fiveDaysAgo.month == threeDaysAgo.month && fiveDaysAgo.year == threeDaysAgo.year
    requires GroupKey(threeDaysAgo.month, threeDaysAgo.year) != GroupKey(oneDayAgo.month, oneDayAgo.year)
    ensures GroupKeys(SeedTransactions(fiveDaysAgo, threeDaysAgo, oneDayAgo))
      == {GroupKey(fiveDaysAgo.month, fiveDaysAgo.year), GroupKey(oneDayAgo.month, oneDayAgo.year)}
    ensures SummaryFor(SeedTransactions(fiveDaysAgo, threeDaysAgo, oneDayAgo), GroupKey(fiveDaysAgo.month, fiveDaysAgo.year))
      == MonthlySummary(MonthName(fiveDaysAgo.month), fiveDaysAgo.year, 1500.0, 45.99, 1454.01)
    ensures SummaryFor(SeedTransactions(fiveDaysAgo, threeDaysAgo, oneDayAgo), GroupKey(oneDayAgo.month, oneDayAgo.year))
      == MonthlySummary(MonthName(oneDayAgo.month), oneDayAgo.year, 0.0, 25.00, -25.00)
  {
    SeedSums(fiveDaysAgo, threeDaysAgo, oneDayAgo, GroupKey(fiveDaysAgo.month, fiveDaysAgo.year));
    SeedSums(fiveDaysAgo, threeDaysAgo, oneDayAgo, GroupKey(oneDayAgo.month, oneDayAgo.year));
  }

  /** The seed's totals for any group, record by record. */
  lemma SeedSums(fiveDaysAgo: Date, threeDaysAgo: Date, oneDayAgo: Date, key: GroupKey)
    ensures GroupKeys(SeedTransactions(fiveDaysAgo, threeDaysAgo, oneDayAgo))
      == {GroupKey(fiveDaysAgo.month, fiveDaysAgo.year), GroupKey(threeDaysAgo.month, threeDaysAgo.year),
          GroupKey(oneDayAgo.month, oneDayAgo.year)}
    ensures
      var s := SeedTransactions(fiveDaysAgo, threeDaysAgo, oneDayAgo);
      && SumWhere(s, key, Income) == Contribution(s[0], key, Income)
      && SumWhere(s, key, Expense) == Contribution(s[1], key, Expense) + Contribution(s[2], key, Expense)
  {
    var s := SeedTransactions(fiveDaysAgo, threeDaysAgo, oneDayAgo);
    assert s == [s[0]] + [s[1]] + [s[2]];
    GroupKeysAppend([s[0]], s[1]);
    GroupKeysAppend([s[0]] + [s[1]], s[2]);
    assert GroupKeys([s[0]]) == {KeyOf(s[0])};
    SumWhereSnoc([], s[0], key, Income);
    SumWhereSnoc([s[0]], s[1], key, Income);
    SumWhereSnoc([s[0]] + [s[1]], s[2], key, Income);
    SumWhereSnoc([], s[0], key, Expense);
    SumWhereSnoc([s[0]], s[1], key, Expense);
    SumWhereSnoc([s[0]] + [s[1]], s[2], key, Expense);
    assert [] + [s[0]] == [s[0]];
  }

  /** Process startup followed by a summary request: with all seed dates in one
      month, the answer is that month's single summary. */
  method StartupSummary(fiveDaysAgo: Date, threeDaysAgo: Date, oneDayAgo: Date)
    returns (summaries: seq<MonthlySummary>)
    requires fiveDaysAgo.month == threeDaysAgo.month == oneDayAgo.month
    requires fiveDaysAgo.year == threeDaysAgo.year == oneDayAgo.year
    ensures summaries == [MonthlySummary(MonthName(fiveDaysAgo.month), fiveDaysAgo.year, 1500.0, 70.99, 1429.01)]
  {
    var store := new TransactionStore();
    store.AddTestData(fiveDaysAgo, threeDaysAgo, oneDayAgo);
    assert store.transactions == SeedTransactions(fiveDaysAgo, threeDaysAgo, oneDayAgo);
    summaries := store.Summaries();
    SeedSummarySameMonth(fiveDaysAgo, threeDaysAgo, oneDayAgo);
    assert |summaries| == 1;
    assert summaries[0] in summaries;
  }
}
