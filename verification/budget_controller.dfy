/** The budget endpoints (backend/src/controllers/budgetController.ts): monthly
    spending limits per category, listed with what was spent against them. */
module BudgetController {
  import opened Common
  import opened Calendar
  import opened Records
  import opened MonthKeys
  import Seqs

  /** The first day of a month: what `new Date(`${month}-01`)` denotes. */
  function FirstDay(m: Month): (d: CalendarDate)
    ensures MonthOf(d) == m && d.day == 1
  {
    Date(m.year, m.month, 1)
  }

  /** Instants are minutes since 0001-01-01T00:00Z. A transaction's date is the
      UTC midnight that `new Date("YYYY-MM-DD")` yields. */
  function UtcMidnight(d: CalendarDate): int {
    (ToDays(d) - 1) * 1440
  }

  /** The spending window of a budget month: from UTC midnight of its first day
      up to, not including, UTC midnight of the next month's first day. */
  predicate InMonthWindow(d: CalendarDate, m: Month) {
    UtcMidnight(FirstDay(m)) <= UtcMidnight(d) < UtcMidnight(FirstDay(NextMonth(m)))
  }

  /** The window holds exactly the dates of that calendar month. */
  lemma MonthWindowIsCalendarMonth(d: CalendarDate, m: Month)
    ensures InMonthWindow(d, m) <==> MonthOf(d) == m
  {
    var first, next := FirstDay(m), FirstDay(NextMonth(m));
    OrdinalIsCalendarOrder(d, first);
    OrdinalIsCalendarOrder(first, d);
    OrdinalIsCalendarOrder(d, next);
    OrdinalIsCalendarOrder(next, d);
  }

  /** The window as the source computes it when the server's clock is `offset`
      minutes ahead of UTC (no daylight saving). The lower bound parses
      "YYYY-MM-01" as UTC midnight. The upper bound reads that instant's local
      year and month and takes local midnight of the first day of the following
      month: east of UTC the local month is `m` itself, so the bound is the first
      of the next month; west of UTC the instant is still on the last day of the
      previous month locally, so the bound is the first of `m`. */
  predicate InMonthWindowAsWritten(d: CalendarDate, m: Month, offset: int)
    requires -1440 < offset < 1440
  {
    var upperLocalFirst := if offset >= 0 then FirstDay(NextMonth(m)) else FirstDay(m);
    UtcMidnight(FirstDay(m)) <= UtcMidnight(d) < UtcMidnight(upperLocalFirst) - offset
  }

  /** East of UTC (and at UTC) the computed window holds exactly the month's dates. */
  lemma AsWrittenWindowEastOfUtc(d: CalendarDate, m: Month, offset: int)
    requires 0 <= offset < 1440
    ensures InMonthWindowAsWritten(d, m, offset) <==> MonthOf(d) == m
  {
    MonthWindowIsCalendarMonth(d, m);
  }

  /** West of UTC the computed window is `-offset` minutes long: of all the
      month's dates it holds only the first. */
  lemma AsWrittenWindowWestOfUtc(d: CalendarDate, m: Month, offset: int)
    requires -1440 < offset < 0
    ensures InMonthWindowAsWritten(d, m, offset) <==> d == FirstDay(m)
  {
    OrdinalIsCalendarOrder(d, FirstDay(m));
  }

  /** On a server five hours behind UTC, an expense dated 2025-03-15 is outside
      the computed window of the "2025-03" budget although it is in March. */
  lemma AsWrittenWindowMissesMidMonth()
    ensures MonthOf(Date(2025, 3, 15)) == YearMonth(2025, 3)
    ensures !InMonthWindowAsWritten(Date(2025, 3, 15), YearMonth(2025, 3), -300)
  {
    AsWrittenWindowWestOfUtc(Date(2025, 3, 15), YearMonth(2025, 3), -300);
  }

  /** A caller's expense in the budget's category dated inside the month. */
  predicate CountsAgainst(t: Transaction, caller: Id, category: string, m: Month) {
    t.userId == caller && t.kind == "expense" && t.category == category && InMonthWindow(t.date, m)
  }

  function Amount(t: Transaction): real { t.amount }

  function CountsFor(caller: Id, category: string, m: Month): Transaction -> bool {
    (t: Transaction) => CountsAgainst(t, caller, category, m)
  }

  /** `transaction.aggregate({ _sum: { amount } })` over the budget's window,
      with a null sum read as 0. */
  function Spent(txs: seq<Transaction>, caller: Id, category: string, m: Month): real {
    Seqs.SumBy(Seqs.Filter(txs, CountsFor(caller, category, m)), Amount)
  }

  /** What is spent is the total of the caller's expenses in that category whose
      date falls in that calendar month. */
  lemma SpentIsCalendarMonthTotal(txs: seq<Transaction>, caller: Id, category: string, m: Month)
    ensures Spent(txs, caller, category, m)
            == Seqs.SumBy(Seqs.Filter(txs, (t: Transaction) =>
                 t.userId == caller && t.kind == "expense" && t.category == category
                 && MonthOf(t.date) == m), Amount)
  {
    forall t: Transaction {
      MonthWindowIsCalendarMonth(t.date, m);
    }
    Seqs.FilterCongruent(txs, CountsFor(caller, category, m),
      (t: Transaction) => t.userId == caller && t.kind == "expense" && t.category == category
                          && MonthOf(t.date) == m);
  }

  /** Incomes, other users' expenses and expenses of other categories leave the
      spent amount unchanged. */
  lemma UnrelatedTransactionNotSpent(txs: seq<Transaction>, t: Transaction, caller: Id, category: string, m: Month)
    requires t.kind != "expense" || t.userId != caller || t.category != category
    ensures Spent(txs + [t], caller, category, m) == Spent(txs, caller, category, m)
  {
    var p := CountsFor(caller, category, m);
    Seqs.FilterSnoc(txs, t, p);
    assert !p(t);
    assert Seqs.Filter(txs + [t], p) == Seqs.Filter(txs, p) + [];
    assert Seqs.Filter(txs, p) + [] == Seqs.Filter(txs, p);
  }

  /** A budget as the list endpoint returns it. `percentage` is absent when the
      limit is 0 (the division yields Infinity or NaN). */
  datatype BudgetView = BudgetView(budget: Budget, spent: real, remaining: real, percentage: Option<real>)

  function View(b: Budget, spent: real): (v: BudgetView)
    ensures v.budget == b && v.spent == spent
    ensures v.spent + v.remaining == b.limit
    ensures v.percentage.Some? <==> b.limit != 0.0
    ensures v.percentage.Some? ==> v.percentage.value * b.limit == spent * 100.0
  {
    BudgetView(b, spent, b.limit - spent, if b.limit == 0.0 then None else Some(spent / b.limit * 100.0))
  }

  /** The caller's budgets, restricted to the given month when it is non-empty,
      most recently created first. */
  function Listed(budgets: seq<Budget>, caller: Id, month: Option<string>): (r: seq<Budget>)
    ensures forall b :: b in r <==> b in budgets && b.userId == caller
                                     && (TruthyString(month) ==> b.month == month.value)
    ensures Seqs.IsSubsequence(Seqs.Reverse(r), budgets)
  {
    Seqs.ReverseInvolutive(Seqs.Filter(budgets, (b: Budget) => b.userId == caller
                                                               && (TruthyString(month) ==> b.month == month.value)));
    Seqs.Reverse(Seqs.Filter(budgets, (b: Budget) => b.userId == caller
                                                     && (TruthyString(month) ==> b.month == month.value)))
  }

  /** GET: each listed budget with its spent amount, remainder and percentage. A
      budget whose month does not read as "YYYY-MM" makes the date query fail,
      and the whole request answers 500. */
  function GetBudgets(budgets: seq<Budget>, txs: seq<Transaction>, caller: Id, month: Option<string>)
    : (r: Result<seq<BudgetView>>)
    ensures r.Err? <==> exists b :: b in Listed(budgets, caller, month) && ParseMonthKey(b.month).None?
    ensures r.Err? ==> r.error == ServerError
    ensures r.Ok? ==> |r.value| == |Listed(budgets, caller, month)|
    ensures r.Ok? ==> forall i :: 0 <= i < |r.value| ==>
              var b := Listed(budgets, caller, month)[i];
              ParseMonthKey(b.month).Some?
              && r.value[i] == View(b, Spent(txs, caller, b.category, ParseMonthKey(b.month).value))
  {
    Views(Listed(budgets, caller, month), txs, caller)
  }

  /** Each listed budget with what the caller spent in its category and month,
      or the server error when one of their months does not parse. */
  function Views(listed: seq<Budget>, txs: seq<Transaction>, caller: Id): (r: Result<seq<BudgetView>>)
    ensures r.Err? <==> exists b :: b in listed && ParseMonthKey(b.month).None?
    ensures r.Err? ==> r.error == ServerError
    ensures r.Ok? ==> |r.value| == |listed|
    ensures r.Ok? ==> forall i :: 0 <= i < |r.value| ==>
              ParseMonthKey(listed[i].month).Some?
              && r.value[i] == View(listed[i], Spent(txs, caller, listed[i].category, ParseMonthKey(listed[i].month).value))
  {
    if exists b :: b in listed && ParseMonthKey(b.month).None? then Err(ServerError)
    else
      Ok(seq(|listed|, i requires 0 <= i < |listed| =>
        assert listed[i] in listed;
        View(listed[i], Spent(txs, caller, listed[i].category, ParseMonthKey(listed[i].month).value))))
  }

  /** The body of a create request. */
  datatype CreateRequest = CreateRequest(category: Option<string>, limit: Option<real>, month: Option<string>)

  /** A budget with this (user, category, month) exists: the unique key. */
  predicate KeyTaken(budgets: seq<Budget>, caller: Id, category: string, month: string) {
    exists i :: 0 <= i < |budgets| && budgets[i].userId == caller
                && budgets[i].category == category && budgets[i].month == month
  }

  /** POST: 400 when category, limit or month is missing or falsy; 400 when the
      caller already has a budget for that category and month; otherwise the
      budget is appended. The month is not checked for shape. */
  function Create(budgets: seq<Budget>, caller: Id, req: CreateRequest): (r: Result<(seq<Budget>, Budget)>)
    ensures !(TruthyString(req.category) && TruthyNumber(req.limit) && TruthyString(req.month))
            ==> r == Err(MissingFields)
    ensures (TruthyString(req.category) && TruthyNumber(req.limit) && TruthyString(req.month)
             && KeyTaken(budgets, caller, req.category.value, req.month.value)) ==> r == Err(AlreadyExists)
    ensures r.Ok? <==> TruthyString(req.category) && TruthyNumber(req.limit) && TruthyString(req.month)
                       && !KeyTaken(budgets, caller, req.category.value, req.month.value)
    ensures r.Ok? ==> r.value.0 == budgets + [r.value.1]
    ensures r.Ok? ==> forall x :: x in budgets ==> x.id != r.value.1.id
    ensures r.Ok? ==> r.value.1.userId == caller && Some(r.value.1.category) == req.category
                      && Some(r.value.1.limit) == req.limit && Some(r.value.1.month) == req.month
  {
    if !(TruthyString(req.category) && TruthyNumber(req.limit) && TruthyString(req.month)) then
      Err(MissingFields)
    else if exists i :: 0 <= i < |budgets| && budgets[i].userId == caller
                        && budgets[i].category == req.category.value && budgets[i].month == req.month.value then
      Err(AlreadyExists)
    else
      var b := Budget(FreshId(budgets, BudgetId), caller, req.category.value, req.limit.value, req.month.value);
      Ok((budgets + [b], b))
  }

  /** PUT /:id: 404 / 403 for an unknown or foreign budget; otherwise the limit
      is replaced when a truthy one is given, and nothing else changes. */
  function Update(budgets: seq<Budget>, caller: Id, id: Id, limit: Option<real>): (r: Result<(seq<Budget>, Budget)>)
    ensures r.Err? <==> Authorize(budgets, BudgetId, BudgetOwner, id, caller).Err?
    ensures r.Err? ==> r.error == Authorize(budgets, BudgetId, BudgetOwner, id, caller).error
    ensures r.Ok? ==> |r.value.0| == |budgets|
    ensures r.Ok? ==> forall i :: 0 <= i < |budgets| ==>
              r.value.0[i] == if budgets[i].id == id && TruthyNumber(limit)
                              then budgets[i].(limit := limit.value) else budgets[i]
    ensures r.Ok? ==> var b := Authorize(budgets, BudgetId, BudgetOwner, id, caller).value;
                      r.value.1 == (if TruthyNumber(limit) then b.(limit := limit.value) else b)
                      && r.value.1 in r.value.0
  {
    match Authorize(budgets, BudgetId, BudgetOwner, id, caller)
    case Err(e) => Err(e)
    case Ok(b) =>
      var f := (x: Budget) => if TruthyNumber(limit) then x.(limit := limit.value) else x;
      var updated := UpdateWhere(budgets, BudgetId, id, f);
      var i :| 0 <= i < |budgets| && budgets[i] == b;
      assert updated[i] == f(b);
      Ok((updated, f(b)))
  }

  /** DELETE /:id: 404 / 403 as for update; otherwise the budget is removed. */
  function Delete(budgets: seq<Budget>, caller: Id, id: Id): (r: Result<seq<Budget>>)
    ensures r.Err? <==> Authorize(budgets, BudgetId, BudgetOwner, id, caller).Err?
    ensures r.Err? ==> r.error == Authorize(budgets, BudgetId, BudgetOwner, id, caller).error
    ensures r.Ok? ==> forall x :: x in r.value <==> x in budgets && x.id != id
    ensures r.Ok? ==> Seqs.IsSubsequence(r.value, budgets)
  {
    match Authorize(budgets, BudgetId, BudgetOwner, id, caller)
    case Err(e) => Err(e)
    case Ok(_) => Ok(DeleteWhere(budgets, BudgetId, id))
  }

  /** No two budgets share (user, category, month): the unique index of the
      budget table. */
  predicate KeysUnique(budgets: seq<Budget>) {
    forall i, j :: 0 <= i < j < |budgets| ==>
      !(budgets[i].userId == budgets[j].userId && budgets[i].category == budgets[j].category
        && budgets[i].month == budgets[j].month)
  }

  predicate LimitsNonZero(budgets: seq<Budget>) {
    forall i :: 0 <= i < |budgets| ==> budgets[i].limit != 0.0
  }

  predicate WellFormed(budgets: seq<Budget>) {
    KeysUnique(budgets) && LimitsNonZero(budgets)
  }

  /** Create, update and delete keep the table well formed, so the list endpoint
      always has a percentage for every budget. */
  lemma WritesKeepWellFormed(budgets: seq<Budget>, caller: Id, id: Id, req: CreateRequest, limit: Option<real>)
    requires WellFormed(budgets)
    ensures var r := Create(budgets, caller, req); r.Ok? ==> WellFormed(r.value.0)
    ensures var r := Update(budgets, caller, id, limit); r.Ok? ==> WellFormed(r.value.0)
    ensures var r := Delete(budgets, caller, id); r.Ok? ==> WellFormed(r.value)
  {
    CreateKeepsWellFormed(budgets, caller, req);
    UpdateKeepsWellFormed(budgets, caller, id, limit);
    var d := Delete(budgets, caller, id);
    if d.Ok? {
      DeleteKeepsWellFormed(budgets, id);
    }
  }

  lemma CreateKeepsWellFormed(budgets: seq<Budget>, caller: Id, req: CreateRequest)
    requires WellFormed(budgets)
    ensures var r := Create(budgets, caller, req); r.Ok? ==> WellFormed(r.value.0)
  {
    var r := Create(budgets, caller, req);
    if r.Ok? {
      var all := r.value.0;
      var b := r.value.1;
      assert all == budgets + [b];
      forall i, j | 0 <= i < j < |all|
        ensures !(all[i].userId == all[j].userId && all[i].category == all[j].category
                  && all[i].month == all[j].month)
      {
        if j == |budgets| {
          assert all[i] == budgets[i];
        }
      }
    }
  }

  lemma UpdateKeepsWellFormed(budgets: seq<Budget>, caller: Id, id: Id, limit: Option<real>)
    requires WellFormed(budgets)
    ensures var r := Update(budgets, caller, id, limit); r.Ok? ==> WellFormed(r.value.0)
  {
  }

  /** Deleting keeps the unique index and the non-zero limits. */
  lemma DeleteKeepsWellFormed(budgets: seq<Budget>, id: Id)
    requires WellFormed(budgets)
    ensures WellFormed(DeleteWhere(budgets, BudgetId, id))
  {
    DeleteKeepsKeysUnique(budgets, id);
    var r := DeleteWhere(budgets, BudgetId, id);
    forall i | 0 <= i < |r|
      ensures r[i].limit != 0.0
    {
      assert r[i] in r;
      var k :| 0 <= k < |budgets| && budgets[k] == r[i];
    }
  }

  lemma {:induction false} DeleteKeepsKeysUnique(budgets: seq<Budget>, id: Id)
    requires KeysUnique(budgets)
    ensures KeysUnique(DeleteWhere(budgets, BudgetId, id))
  {
    if |budgets| > 0 {
      var rest := budgets[1..];
      assert KeysUnique(rest);
      DeleteKeepsKeysUnique(rest, id);
      var r := DeleteWhere(budgets, BudgetId, id);
      var r' := DeleteWhere(rest, BudgetId, id);
      if budgets[0].id != id {
        assert r == [budgets[0]] + r';
        forall j | 0 < j < |r|
          ensures !(r[0].userId == r[j].userId && r[0].category == r[j].category && r[0].month == r[j].month)
        {
          assert r[j] in r';
          var k :| 0 <= k < |rest| && rest[k] == r[j];
          assert budgets[k + 1] == r[j];
        }
      }
    }
  }

  /** In a well-formed table every listed budget has a percentage. */
  lemma WellFormedHasPercentages(budgets: seq<Budget>, txs: seq<Transaction>, caller: Id, month: Option<string>)
    requires WellFormed(budgets)
    ensures var r := GetBudgets(budgets, txs, caller, month);
            r.Ok? ==> forall i :: 0 <= i < |r.value| ==> r.value[i].percentage.Some?
  {
    var r := GetBudgets(budgets, txs, caller, month);
    if r.Ok? {
      forall i | 0 <= i < |r.value|
        ensures r.value[i].percentage.Some?
      {
        var b := Listed(budgets, caller, month)[i];
        assert b in Listed(budgets, caller, month);
        assert b in budgets;
      }
    }
  }
}
