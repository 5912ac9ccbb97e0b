/** The figures of frontend/src/pages/DashboardPage.tsx that depend on the
    analytics response: the colour of the balance and the sign and colour of
    the month-over-month change. Before the response arrives `analytics` is
    `null` and both figures read as 0 (`?? 0`). The category labels are
    `CategoryKeys.GetCategoryKey` on the dashboard's table. */
module DashboardPage {
  import opened Common
  import opened Calendar
  import opened Records
  import opened Display
  import AnalyticsController

  /** `analytics?.summary.balance ?? 0`. */
  function Balance(analytics: Option<AnalyticsController.Analytics>): (b: real)
    ensures analytics.None? ==> b == 0.0
    ensures analytics.Some? ==> b == analytics.value.summary.balance
  {
    match analytics
    case Some(a) => a.summary.balance
    case None => 0.0
  }

  /** `analytics?.comparison?.changePercent ?? 0`. */
  function Change(analytics: Option<AnalyticsController.Analytics>): (c: real)
    ensures analytics.None? ==> c == 0.0
    ensures analytics.Some? ==> c == analytics.value.comparison.changePercent
  {
    match analytics
    case Some(a) => a.comparison.changePercent
    case None => 0.0
  }

  /** The balance is green when it is not negative and red otherwise. */
  function BalanceColor(analytics: Option<AnalyticsController.Analytics>): (s: Severity)
    ensures s == Success <==> Balance(analytics) >= 0.0
    ensures s != Warning
  {
    if Balance(analytics) >= 0.0 then Success else Danger
  }

  /** The change shows red, with a `+` in front, when spending grew; green and
      without a sign otherwise. */
  datatype ChangeView = ChangeView(color: Severity, prefix: string, percent: real)

  function ChangeViewOf(analytics: Option<AnalyticsController.Analytics>): (v: ChangeView)
    ensures v.percent == Change(analytics)
    ensures v.color == Danger <==> Change(analytics) > 0.0
    ensures v.color != Warning
    ensures v.prefix == "+" <==> Change(analytics) > 0.0
    ensures v.prefix == "" <==> Change(analytics) <= 0.0
  {
    var c := Change(analytics);
    if c > 0.0 then ChangeView(Danger, "+", c) else ChangeView(Success, "", c)
  }

  /** The loading state shows a green balance and a green, unsigned change. */
  lemma LoadingLooksCalm()
    ensures BalanceColor(None) == Success
    ensures ChangeViewOf(None) == ChangeView(Success, "", 0.0)
  {
  }

  /** Read against the caller's transactions: the balance is green exactly
      when the income booked as "income" covers the spending booked as
      "expense", and the change turns red with a `+` exactly when last month
      had spending and this month's is larger. */
  lemma DashboardReadsTransactions(store: seq<Transaction>, caller: Id, now: CalendarDate)
    requires now.year > 1 || now.month > 1
    ensures var a := AnalyticsController.GetAnalytics(store, caller, now);
            (BalanceColor(Some(a)) == Success <==> a.summary.totalIncome >= a.summary.totalExpense)
            && (ChangeViewOf(Some(a)).color == Danger
                <==> a.comparison.previousMonth > 0.0 && a.comparison.currentMonth > a.comparison.previousMonth)
            && (ChangeViewOf(Some(a)).prefix == "+" <==> ChangeViewOf(Some(a)).color == Danger)
  {
    var a := AnalyticsController.GetAnalytics(store, caller, now);
    var c := a.comparison;
    assert c.changePercent == AnalyticsController.ChangePercent(c.currentMonth, c.previousMonth);
  }
}
