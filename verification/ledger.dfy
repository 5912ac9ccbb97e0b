/** The transaction sums every aggregating endpoint shares: filtering by type,
    totals per type, and the monthly income/expense split. */
module Ledger {
  import opened Common
  import opened Records
  import opened MonthKeys
  import opened Grouping
  import Seqs
  import TransactionController

  function KindOf(t: Transaction): string { t.kind }
  function CategoryOf(t: Transaction): string { t.category }
  function Amount(t: Transaction): real { t.amount }
  function MonthOfTx(t: Transaction): Month { MonthOf(t.date) }

  function KindIs(kind: string): Transaction -> bool {
    (t: Transaction) => t.kind == kind
  }

  /** `transactions.filter(t => t.type === kind)`. */
  function OfKind(txs: seq<Transaction>, kind: string): (r: seq<Transaction>)
    ensures forall t :: t in r <==> t in txs && t.kind == kind
  {
    Seqs.Filter(txs, KindIs(kind))
  }

  /** Summing the filtered transactions is reading the kind's bucket. */
  lemma {:induction false} OfKindTotal(txs: seq<Transaction>, kind: string)
    ensures Total(OfKind(txs, kind), Amount) == KeySum(txs, KindOf, Amount, kind)
  {
    if |txs| > 0 {
      var prefix, t := txs[..|txs| - 1], txs[|txs| - 1];
      assert txs == prefix + [t];
      OfKindTotal(prefix, kind);
      Seqs.FilterSnoc(prefix, t, KindIs(kind));
      if t.kind == kind {
        TotalSnoc(OfKind(prefix, kind), t, Amount);
      } else {
        assert OfKind(txs, kind) == OfKind(prefix, kind) + [];
        assert OfKind(prefix, kind) + [] == OfKind(prefix, kind);
      }
    }
  }

  /** The monthly buckets' income side. */
  function IncomePart(t: Transaction): real {
    if t.kind == "income" then t.amount else 0.0
  }

  /** The monthly buckets' expense side: every transaction that is not an income. */
  function ExpensePart(t: Transaction): real {
    if t.kind == "income" then 0.0 else t.amount
  }

  lemma {:induction false} PartsAddUp(txs: seq<Transaction>)
    ensures Total(txs, IncomePart) + Total(txs, ExpensePart) == Total(txs, Amount)
  {
    if |txs| > 0 {
      PartsAddUp(txs[..|txs| - 1]);
    }
  }

  /** When every type is income or expense, the income and expense buckets
      account for every transaction. */
  lemma {:induction false} IncomeExpenseBuckets(txs: seq<Transaction>)
    requires TransactionController.KindsValid(txs)
    ensures KeySum(txs, KindOf, Amount, "income") + KeySum(txs, KindOf, Amount, "expense") == Total(txs, Amount)
  {
    if |txs| > 0 {
      IncomeExpenseBuckets(txs[..|txs| - 1]);
    }
  }

  /** One entry of `categoryPercentages`: an expense category, its total, and
      its share of all expenses in percent (absent when the expense total is 0,
      where the division yields NaN or Infinity). */
  datatype CategoryShare = CategoryShare(category: string, amount: real, percentage: Option<real>)

  function ShareAmount(c: CategoryShare): real { c.amount }

  function ShareOf(expenses: seq<Transaction>, category: string): (c: CategoryShare)
    ensures c.category == category && c.amount == KeySum(expenses, CategoryOf, Amount, category)
    ensures c.percentage.Some? <==> Total(expenses, Amount) != 0.0
    ensures c.percentage.Some? ==> c.percentage.value * Total(expenses, Amount) == c.amount * 100.0
  {
    var amount := KeySum(expenses, CategoryOf, Amount, category);
    var total := Total(expenses, Amount);
    CategoryShare(category, amount, if total == 0.0 then None else Some(amount / total * 100.0))
  }

  /** The shares of the given categories, in the given order. */
  function SharesOf(expenses: seq<Transaction>, names: seq<string>): (r: seq<CategoryShare>)
    ensures |r| == |names|
    ensures forall i :: 0 <= i < |names| ==> r[i] == ShareOf(expenses, names[i])
  {
    seq(|names|, i requires 0 <= i < |names| => ShareOf(expenses, names[i]))
  }

  /** `categoryPercentages`: one entry per expense category, largest amount
      first; categories with equal amounts keep their order of first occurrence. */
  function CategoryShares(txs: seq<Transaction>): (r: seq<CategoryShare>)
    ensures Seqs.SortedDesc(r, ShareAmount)
    ensures var expenses := OfKind(txs, "expense");
            multiset(r) == multiset(SharesOf(expenses, KeysInOrder(expenses, CategoryOf)))
  {
    var expenses := OfKind(txs, "expense");
    Seqs.SortDesc(SharesOf(expenses, KeysInOrder(expenses, CategoryOf)), ShareAmount)
  }

  /** Every listed entry is the total and share of an expense category of the
      caller, and every expense category is listed. */
  lemma CategorySharesAreExpenseTotals(txs: seq<Transaction>, c: CategoryShare)
    requires c in CategoryShares(txs)
    ensures exists t :: t in txs && t.kind == "expense" && t.category == c.category
    ensures c == ShareOf(OfKind(txs, "expense"), c.category)
  {
    var expenses := OfKind(txs, "expense");
    var names := KeysInOrder(expenses, CategoryOf);
    var unsorted := SharesOf(expenses, names);
    assert c in multiset(unsorted);
    var i :| 0 <= i < |unsorted| && unsorted[i] == c;
    assert names[i] in names;
    var k :| 0 <= k < |expenses| && CategoryOf(expenses[k]) == names[i];
    assert expenses[k] in expenses;
  }

  lemma CategorySharesCoverExpenses(txs: seq<Transaction>, t: Transaction)
    requires t in txs && t.kind == "expense"
    ensures ShareOf(OfKind(txs, "expense"), t.category) in CategoryShares(txs)
  {
    var expenses := OfKind(txs, "expense");
    var names := KeysInOrder(expenses, CategoryOf);
    var unsorted := SharesOf(expenses, names);
    var k :| 0 <= k < |expenses| && expenses[k] == t;
    assert CategoryOf(expenses[k]) == t.category;
    assert t.category in names;
    var i :| 0 <= i < |names| && names[i] == t.category;
    assert unsorted[i] in multiset(unsorted);
  }
}
