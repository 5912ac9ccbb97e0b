/** The budget cards of frontend/src/pages/BudgetsPage.tsx: how a budget, as
    the list endpoint returns it, is coloured and flagged. A percentage the
    server could not compute (a zero limit gives Infinity or NaN, which JSON
    sends as `null`) is `None`; `null` compares with a number as 0. */
module BudgetsPage {
  import opened Common
  import opened Records
  import opened Display
  import BudgetController
  import CategoryKeys

  /** The number a `percentage` of `null` reads as in `>=` and `Math.min`. */
  function Percent(p: Option<real>): (x: real)
    ensures p.Some? ==> x == p.value
    ensures p.None? ==> x == 0.0
  {
    match p
    case Some(v) => v
    case None => 0.0
  }

  /** `getProgressColor`: the colour of the bar. */
  function ProgressColor(p: real): (s: Severity)
    ensures s == Danger <==> p >= 90.0
    ensures s == Warning <==> 75.0 <= p < 90.0
  {
    if p >= 90.0 then Danger else if p >= 75.0 then Warning else Success
  }

  /** `getStatusIcon`: the colour of the icon beside the title. */
  function StatusIcon(p: real): (s: Severity)
    ensures s == Danger <==> p >= 100.0
    ensures s == Warning <==> 90.0 <= p < 100.0
  {
    if p >= 100.0 then Danger else if p >= 90.0 then Warning else Success
  }

  /** The card's top border, written out with its own hex colours: red from
      90, orange from 75, green below. */
  function BorderColor(p: real): (s: Severity)
    ensures s == Danger <==> p >= 90.0
    ensures s == Success <==> p < 75.0
  {
    if p >= 90.0 then Danger else if p >= 75.0 then Warning else Success
  }

  /** The alert under the figures: none below 90, "approaching" from 90,
      "exceeded" from 100. */
  datatype Alert = NoAlert | Approaching | Exceeded

  function AlertOf(p: real): (a: Alert)
    ensures a != NoAlert <==> p >= 90.0
    ensures a == Exceeded <==> p >= 100.0
  {
    if p >= 90.0 then (if p >= 100.0 then Exceeded else Approaching) else NoAlert
  }

  /** The colour of the remaining amount: red once it is negative. */
  function RemainingColor(remaining: real): (s: Severity)
    ensures s == Danger <==> remaining < 0.0
    ensures s != Warning
  {
    if remaining < 0.0 then Danger else Success
  }

  /** What one card shows: the category's translation key, the border, icon
      and bar colours, the bar's value, the alert and the remaining amount's
      colour. */
  datatype Card = Card(
    titleKey: string,
    border: Severity,
    icon: Severity,
    bar: real,
    barColor: Severity,
    alert: Alert,
    remainingColor: Severity)

  function CardOf(v: BudgetController.BudgetView): (c: Card)
    ensures c.titleKey == CategoryKeys.GetCategoryKey(CategoryKeys.BudgetsPage, v.budget.category)
    ensures c.bar == Cap(Percent(v.percentage))
    ensures c.border == BorderColor(Percent(v.percentage)) && c.barColor == ProgressColor(Percent(v.percentage))
    ensures c.icon == StatusIcon(Percent(v.percentage)) && c.alert == AlertOf(Percent(v.percentage))
    ensures c.remainingColor == RemainingColor(v.remaining)
  {
    var p := Percent(v.percentage);
    Card(CategoryKeys.GetCategoryKey(CategoryKeys.BudgetsPage, v.budget.category),
         BorderColor(p), StatusIcon(p), Cap(p), ProgressColor(p), AlertOf(p), RemainingColor(v.remaining))
  }

  /** The border repeats the bar's thresholds, and the alert appears exactly
      when both are red; the icon and the alert turn red together, and the
      icon is never more alarming than the bar. */
  lemma CardSignalsAgree(p: real)
    ensures BorderColor(p) == ProgressColor(p)
    ensures AlertOf(p) != NoAlert <==> ProgressColor(p) == Danger
    ensures AlertOf(p) == Exceeded <==> StatusIcon(p) == Danger
    ensures Rank(StatusIcon(p)) <= Rank(ProgressColor(p))
  {
  }

  /** More spending never makes a card look safer. */
  lemma SignalsMonotone(p: real, q: real)
    requires p <= q
    ensures Rank(ProgressColor(p)) <= Rank(ProgressColor(q))
    ensures Rank(StatusIcon(p)) <= Rank(StatusIcon(q))
    ensures AlertOf(p) != NoAlert ==> AlertOf(q) != NoAlert
    ensures AlertOf(p) == Exceeded ==> AlertOf(q) == Exceeded
  {
  }

  /** For a positive limit, `spent / limit * 100` reaches 90 exactly when the
      spending reaches nine tenths of the limit; `Display.FullAtWhole` gives
      the 100 mark. */
  lemma WarnAtNineTenths(spent: real, limit: real)
    requires limit > 0.0
    ensures spent / limit * 100.0 >= 90.0 <==> spent * 10.0 >= limit * 9.0
  {
    var q := spent / limit;
    assert q * limit == spent;
    ScalePositive(q * 10.0, 9.0, limit);
    assert (q * 10.0) * limit == spent * 10.0;
    assert q * 100.0 >= 90.0 <==> q * 10.0 >= 9.0;
    assert q * 10.0 >= 9.0 <==> (q * 10.0) * limit >= 9.0 * limit;
    assert (q * 10.0) * limit >= 9.0 * limit <==> spent * 10.0 >= limit * 9.0;
  }

  /** Read against the budget itself: with a positive limit the card says
      "exceeded" exactly when the spending has reached the limit, warns from
      nine tenths of it, fills the bar at the limit, and shows the remainder in
      red only once the limit is passed. */
  lemma CardReadsSpending(b: Budget, spent: real)
    requires b.limit > 0.0
    ensures var c := CardOf(BudgetController.View(b, spent));
            (c.alert == Exceeded <==> spent >= b.limit)
            && (c.alert != NoAlert <==> spent * 10.0 >= b.limit * 9.0)
            && (c.bar == 100.0 <==> spent >= b.limit)
            && (c.remainingColor == Danger <==> spent > b.limit)
  {
    var v := BudgetController.View(b, spent);
    var p := spent / b.limit * 100.0;
    assert v.percentage == Some(p);
    FullAtWhole(spent, b.limit);
    WarnAtNineTenths(spent, b.limit);
  }
}
