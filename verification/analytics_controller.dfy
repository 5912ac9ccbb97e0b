/** The analytics endpoint (backend/src/controllers/analyticsController.ts):
    totals, expenses per category, income and expense per month for the last six
    months that have transactions, the five largest expenses, and this month's
    spending against last month's. `now` is a parameter; `Math.round` is not
    modelled. */
module AnalyticsController {
  import opened Common
  import opened Calendar
  import opened Records
  import opened MonthKeys
  import opened Grouping
  import opened Ledger
  import Seqs
  import TransactionController

  datatype Summary = Summary(totalIncome: real, totalExpense: real, balance: real, transactionCount: nat)

  /** The summary block: incomes and expenses are the transactions whose type is
      exactly "income" and "expense". */
  function Summarize(txs: seq<Transaction>): (s: Summary)
    ensures s.totalIncome == Total(OfKind(txs, "income"), Amount)
    ensures s.totalExpense == Total(OfKind(txs, "expense"), Amount)
    ensures s.balance == s.totalIncome - s.totalExpense
    ensures s.transactionCount == |txs|
  {
    var income := Total(OfKind(txs, "income"), Amount);
    var expense := Total(OfKind(txs, "expense"), Amount);
    Summary(income, expense, income - expense, |txs|)
  }

  /** When every type is income or expense, the two totals account for every
      transaction. */
  lemma SummaryCoversValidKinds(txs: seq<Transaction>)
    requires TransactionController.KindsValid(txs)
    ensures Summarize(txs).totalIncome + Summarize(txs).totalExpense == Total(txs, Amount)
  {
    OfKindTotal(txs, "income");
    OfKindTotal(txs, "expense");
    IncomeExpenseBuckets(txs);
  }

  /** One slice of the category chart. */
  datatype Slice = Slice(name: string, value: real)

  function SliceOf(expenses: seq<Transaction>, name: string): (s: Slice)
    ensures s.name == name && s.value == KeySum(expenses, CategoryOf, Amount, name)
  {
    Slice(name, KeySum(expenses, CategoryOf, Amount, name))
  }

  /** `categoryData`: one slice per expense category, in order of first
      occurrence, holding that category's expense total. */
  function CategoryData(txs: seq<Transaction>): (r: seq<Slice>)
    ensures |r| == |KeysInOrder(OfKind(txs, "expense"), CategoryOf)|
    ensures forall i :: 0 <= i < |r| ==> r[i].name == KeysInOrder(OfKind(txs, "expense"), CategoryOf)[i]
    ensures forall i, j :: 0 <= i < j < |r| ==> r[i].name != r[j].name
    ensures forall i :: 0 <= i < |r| ==>
              r[i].value == KeySum(OfKind(txs, "expense"), CategoryOf, Amount, r[i].name)
  {
    var expenses := OfKind(txs, "expense");
    var names := KeysInOrder(expenses, CategoryOf);
    seq(|names|, i requires 0 <= i < |names| => SliceOf(expenses, names[i]))
  }

  /** The chart has a slice for a category exactly when the caller has an
      expense in it. */
  lemma CategoryDataNames(txs: seq<Transaction>, c: string)
    ensures (exists i :: 0 <= i < |CategoryData(txs)| && CategoryData(txs)[i].name == c)
            <==> exists t :: t in txs && t.kind == "expense" && t.category == c
  {
    var expenses := OfKind(txs, "expense");
    var names := KeysInOrder(expenses, CategoryOf);
    var r := CategoryData(txs);
    if exists t :: t in txs && t.kind == "expense" && t.category == c {
      var t :| t in txs && t.kind == "expense" && t.category == c;
      assert t in expenses;
      var k :| 0 <= k < |expenses| && expenses[k] == t;
      assert CategoryOf(expenses[k]) == c;
      assert c in names;
      var i :| 0 <= i < |names| && names[i] == c;
      assert r[i].name == c;
    }
    if exists i :: 0 <= i < |r| && r[i].name == c {
      var i :| 0 <= i < |r| && r[i].name == c;
      assert names[i] in names;
      var k :| 0 <= k < |expenses| && CategoryOf(expenses[k]) == c;
      assert expenses[k] in expenses;
    }
  }

  function SliceValues(r: seq<Slice>): real {
    if |r| == 0 then 0.0 else SliceValues(r[..|r| - 1]) + r[|r| - 1].value
  }

  lemma {:induction false} SliceValuesAreBuckets(names: seq<string>, expenses: seq<Transaction>, r: seq<Slice>)
    requires |r| == |names|
    requires forall i :: 0 <= i < |r| ==> r[i] == Slice(names[i], KeySum(expenses, CategoryOf, Amount, names[i]))
    ensures SliceValues(r) == SumKeys(names, expenses, CategoryOf, Amount)
  {
    if |r| > 0 {
      SliceValuesAreBuckets(names[..|names| - 1], expenses, r[..|r| - 1]);
    }
  }

  /** The slices add up to the total expense of the summary. */
  lemma CategoryDataAddsUp(txs: seq<Transaction>)
    ensures SliceValues(CategoryData(txs)) == Summarize(txs).totalExpense
  {
    var expenses := OfKind(txs, "expense");
    var names := KeysInOrder(expenses, CategoryOf);
    SliceValuesAreBuckets(names, expenses, CategoryData(txs));
    BucketsCoverAll(expenses, CategoryOf, Amount);
  }

  /** Ascending order of months, as a key for the descending sort. */
  function LaterFirstKey(m: Month): real {
    -(MonthIndex(m) as real)
  }

  /** `Object.keys(monthlyData).sort()`: the months that have transactions,
      earliest first. */
  function SortedMonths(txs: seq<Transaction>): (r: seq<Month>)
    ensures multiset(r) == multiset(KeysInOrder(txs, MonthOfTx))
    ensures forall i, j :: 0 <= i < j < |r| ==> MonthIndex(r[i]) <= MonthIndex(r[j])
    ensures forall m :: m in r <==> exists i :: 0 <= i < |txs| && MonthOfTx(txs[i]) == m
  {
    var keys := KeysInOrder(txs, MonthOfTx);
    Seqs.SortDesc(keys, LaterFirstKey)
  }

  /** For four-digit years the order is the string order of the "YYYY-MM" keys
      the source sorts. */
  lemma SortedMonthsFollowKeyOrder(txs: seq<Transaction>, i: nat, j: nat)
    requires i < j < |SortedMonths(txs)|
    requires 1000 <= SortedMonths(txs)[i].year <= 9999 && 1000 <= SortedMonths(txs)[j].year <= 9999
    ensures !LexLess(MonthKey(SortedMonths(txs)[j]), MonthKey(SortedMonths(txs)[i]))
  {
    MonthKeyOrder(SortedMonths(txs)[j], SortedMonths(txs)[i]);
  }

  /** One point of the monthly chart (its label is `Pad2(month.month)`). */
  datatype MonthPoint = MonthPoint(month: Month, income: real, expense: real)

  function PointOf(txs: seq<Transaction>, m: Month): (p: MonthPoint)
    ensures p.month == m
    ensures p.income == KeySum(txs, MonthOfTx, IncomePart, m)
    ensures p.expense == KeySum(txs, MonthOfTx, ExpensePart, m)
  {
    MonthPoint(m, KeySum(txs, MonthOfTx, IncomePart, m), KeySum(txs, MonthOfTx, ExpensePart, m))
  }

  /** `monthlyData`: the last six months that have transactions, each with its
      income and non-income totals. */
  function MonthlyData(txs: seq<Transaction>): (r: seq<MonthPoint>)
    ensures |r| <= 6
  {
    LastPoints(txs, SortedMonths(txs))
  }

  /** The points are those of the last six months that have transactions, in
      calendar order, each with that month's income and non-income totals. */
  lemma MonthlyDataIsLastSix(txs: seq<Transaction>)
    ensures var months := SortedMonths(txs);
            var r := MonthlyData(txs);
            |r| == (if |months| < 6 then |months| else 6)
            && (forall i :: 0 <= i < |r| ==> r[i].month == months[|months| - |r| + i])
            && (forall i :: 0 <= i < |r| ==>
                  r[i].income == KeySum(txs, MonthOfTx, IncomePart, r[i].month)
                  && r[i].expense == KeySum(txs, MonthOfTx, ExpensePart, r[i].month))
  {
    LastPointsAreSums(txs, SortedMonths(txs));
  }

  /** One point for each of the last six of `months`, in their order. */
  function LastPoints(txs: seq<Transaction>, months: seq<Month>): (r: seq<MonthPoint>)
    ensures |r| == (if |months| < 6 then |months| else 6)
    ensures forall i :: 0 <= i < |r| ==> r[i] == PointOf(txs, months[|months| - |r| + i])
  {
    var last := Seqs.TakeLast(months, 6);
    seq(|last|, i requires 0 <= i < |last| => PointOf(txs, last[i]))
  }

  lemma LastPointsAreSums(txs: seq<Transaction>, months: seq<Month>)
    ensures var r := LastPoints(txs, months);
            |r| == (if |months| < 6 then |months| else 6)
            && (forall i :: 0 <= i < |r| ==> r[i].month == months[|months| - |r| + i])
            && (forall i :: 0 <= i < |r| ==>
                  r[i].income == KeySum(txs, MonthOfTx, IncomePart, r[i].month)
                  && r[i].expense == KeySum(txs, MonthOfTx, ExpensePart, r[i].month))
  {
    var r := LastPoints(txs, months);
    forall i | 0 <= i < |r|
      ensures r[i].month == months[|months| - |r| + i]
      ensures r[i].income == KeySum(txs, MonthOfTx, IncomePart, r[i].month)
      ensures r[i].expense == KeySum(txs, MonthOfTx, ExpensePart, r[i].month)
    {
      assert r[i] == PointOf(txs, months[|months| - |r| + i]);
    }
  }

  /** Every transaction is in exactly one month: the months' income and
      expense buckets add up to all amounts. */
  lemma MonthBucketsCoverAll(txs: seq<Transaction>)
    ensures SumKeys(KeysInOrder(txs, MonthOfTx), txs, MonthOfTx, IncomePart)
            + SumKeys(KeysInOrder(txs, MonthOfTx), txs, MonthOfTx, ExpensePart)
            == Total(txs, Amount)
  {
    BucketsCoverAll(txs, MonthOfTx, IncomePart);
    BucketsCoverAll(txs, MonthOfTx, ExpensePart);
    PartsAddUp(txs);
  }

  /** `topExpenses`: the expenses, largest amount first (ties keep their order),
      cut to five. */
  function TopExpenses(txs: seq<Transaction>): (r: seq<Transaction>)
    ensures |r| == if |OfKind(txs, "expense")| < 5 then |OfKind(txs, "expense")| else 5
    ensures forall t :: t in r ==> t in txs && t.kind == "expense"
    ensures forall i, j :: 0 <= i < j < |r| ==> r[i].amount >= r[j].amount
    ensures multiset(r) <= multiset(OfKind(txs, "expense"))
  {
    Seqs.TopN(OfKind(txs, "expense"), Amount, 5)
  }

  /** An expense left out of the top five is no larger than any that is in it. */
  lemma TopExpensesAreLargest(txs: seq<Transaction>, e: Transaction)
    requires e in txs && e.kind == "expense" && e !in TopExpenses(txs)
    ensures forall i :: 0 <= i < |TopExpenses(txs)| ==> e.amount <= TopExpenses(txs)[i].amount
  {
    var expenses := OfKind(txs, "expense");
    var sorted := Seqs.SortDesc(expenses, Amount);
    assert e in multiset(expenses);
    assert e in sorted;
    var j :| 0 <= j < |sorted| && sorted[j] == e;
    var r := TopExpenses(txs);
    assert j >= |r|;
    forall i | 0 <= i < |r|
      ensures e.amount <= r[i].amount
    {
      assert r[i] == sorted[i];
      assert Amount(sorted[i]) >= Amount(sorted[j]);
    }
  }

  /** `changePercent`: the relative change of this month's spending over last
      month's, or 0 when last month's is not positive. */
  function ChangePercent(current: real, previous: real): (r: real)
    ensures previous > 0.0 ==> r * previous == (current - previous) * 100.0
    ensures previous <= 0.0 ==> r == 0.0
    ensures r > 0.0 <==> previous > 0.0 && current > previous
  {
    if previous > 0.0 then (current - previous) / previous * 100.0 else 0.0
  }

  datatype Comparison = Comparison(currentMonth: real, previousMonth: real, changePercent: real)

  /** `comparison`: spending (every non-income) in the month of `now` and in the
      month before, a month with no transactions counting 0. */
  function Compare(txs: seq<Transaction>, now: CalendarDate): (c: Comparison)
    requires now.year > 1 || now.month > 1
    ensures c.currentMonth == KeySum(txs, MonthOfTx, ExpensePart, MonthOf(now))
    ensures c.previousMonth == KeySum(txs, MonthOfTx, ExpensePart, PrevMonth(MonthOf(now)))
    ensures c.changePercent == ChangePercent(c.currentMonth, c.previousMonth)
  {
    var current := KeySum(txs, MonthOfTx, ExpensePart, MonthOf(now));
    var previous := KeySum(txs, MonthOfTx, ExpensePart, PrevMonth(MonthOf(now)));
    Comparison(current, previous, ChangePercent(current, previous))
  }

  /** A month without transactions compares as 0. */
  lemma EmptyMonthIsZero(txs: seq<Transaction>, m: Month)
    requires forall t :: t in txs ==> MonthOf(t.date) != m
    ensures KeySum(txs, MonthOfTx, ExpensePart, m) == 0.0
  {
    KeySumAbsent(txs, MonthOfTx, ExpensePart, m);
  }

  datatype Analytics = Analytics(
    summary: Summary,
    categoryData: seq<Slice>,
    monthlyData: seq<MonthPoint>,
    topExpenses: seq<Transaction>,
    comparison: Comparison)

  /** GET: every part is computed from the caller's transactions, latest date
      first. */
  function GetAnalytics(store: seq<Transaction>, caller: Id, now: CalendarDate): (a: Analytics)
    requires now.year > 1 || now.month > 1
    ensures var txs := TransactionController.List(store, caller, TransactionController.ListQuery(None, None, None, None));
            a == Analytics(Summarize(txs), CategoryData(txs), MonthlyData(txs), TopExpenses(txs), Compare(txs, now))
    ensures forall t :: t in a.topExpenses ==> t in store && t.userId == caller
    ensures a.summary.transactionCount == |Seqs.Filter(store, (t: Transaction) => t.userId == caller)|
  {
    var txs := TransactionController.List(store, caller, TransactionController.ListQuery(None, None, None, None));
    var mine := Seqs.Filter(store, (t: Transaction) => t.userId == caller);
    TransactionController.EmptyQueryListsAll(store, caller);
    Seqs.FilterCongruent(store, (t: Transaction) => t.userId == caller,
      TransactionController.MatchesQuery(caller, TransactionController.ListQuery(None, None, None, None)));
    assert |txs| == |multiset(txs)| == |multiset(mine)| == |mine|;
    Analytics(Summarize(txs), CategoryData(txs), MonthlyData(txs), TopExpenses(txs), Compare(txs, now))
  }
}
