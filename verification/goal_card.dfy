/** The goal card of frontend/src/components/GoalCard.tsx: progress,
    remaining amount and the monthly saving needed, and which lines, chips and
    buttons the card shows. `differenceInDays(deadline, now)` depends on the
    clock and is the parameter `days`. Dividing by a zero target gives one of
    JavaScript's non-finite numbers, which decide what the card shows, so they
    are modelled. Dates are shown with the locale `Display.LocaleOrUkrainian`
    picks. */
module GoalCard {
  import opened Common
  import opened Calendar
  import opened Records
  import opened Display
  import GoalController

  /** A JavaScript number as far as the card needs it. */
  datatype Number = Finite(value: real) | PlusInfinity | MinusInfinity | NotANumber

  /** `(goal.currentAmount / goal.targetAmount) * 100`. */
  function Progress(g: Goal): (p: Number)
    ensures g.targetAmount != 0.0 ==> p.Finite? && p.value * g.targetAmount == g.currentAmount * 100.0
    ensures g.targetAmount == 0.0 ==> (p == PlusInfinity <==> g.currentAmount > 0.0)
    ensures g.targetAmount == 0.0 ==> (p == MinusInfinity <==> g.currentAmount < 0.0)
    ensures p == NotANumber <==> g.targetAmount == 0.0 && g.currentAmount == 0.0
  {
    if g.targetAmount != 0.0 then Finite(g.currentAmount / g.targetAmount * 100.0)
    else if g.currentAmount > 0.0 then PlusInfinity
    else if g.currentAmount < 0.0 then MinusInfinity
    else NotANumber
  }

  /** `progress >= 100`; every comparison with NaN is false. */
  predicate AtLeast100(p: Number) {
    match p
    case Finite(v) => v >= 100.0
    case PlusInfinity => true
    case MinusInfinity => false
    case NotANumber => false
  }

  /** `progress < 100`. */
  predicate Below100(p: Number) {
    match p
    case Finite(v) => v < 100.0
    case PlusInfinity => false
    case MinusInfinity => true
    case NotANumber => false
  }

  /** `Math.min(progress, 100)`, the bar's value. */
  function BarOf(p: Number): (b: Number)
    ensures p.Finite? ==> b == Finite(Cap(p.value))
    ensures p == PlusInfinity ==> b == Finite(100.0)
    ensures p == MinusInfinity || p == NotANumber ==> b == p
  {
    match p
    case Finite(v) => Finite(Cap(v))
    case PlusInfinity => Finite(100.0)
    case _ => p
  }

  /** `monthlyNeeded`: the remaining amount spread over the months left, when
      there is a deadline still ahead; 0 otherwise. A month is 30 days. */
  function MonthlyNeeded(g: Goal, days: int): (m: real)
    ensures g.deadline.Some? && days > 0 ==> m * (days as real) == (g.targetAmount - g.currentAmount) * 30.0
    ensures !(g.deadline.Some? && days > 0) ==> m == 0.0
    ensures g.deadline.Some? && days > 0 ==> (m > 0.0 <==> g.currentAmount < g.targetAmount)
  {
    if g.deadline.Some? && days != 0 && days > 0 then
      var remaining := g.targetAmount - g.currentAmount;
      var m := remaining / ((days as real) / 30.0);
      assert m * ((days as real) / 30.0) == remaining;
      ScalePositive(m, 0.0, (days as real) / 30.0);
      m
    else 0.0
  }

  /** What the card shows. Optional parts are `None` when not rendered. */
  datatype Card = Card(
    bar: Number,
    completed: bool,
    addProgressButton: bool,
    remaining: Option<real>,
    deadline: Option<CalendarDate>,
    deadlineWarns: bool,
    daysLeft: Option<int>,
    daysLeftUrgent: bool,
    monthlyNeeded: Option<real>)

  function CardOf(g: Goal, days: int): (c: Card)
    ensures c.bar == BarOf(Progress(g))
    ensures c.completed <==> AtLeast100(Progress(g))
    ensures c.addProgressButton <==> Below100(Progress(g))
    ensures c.remaining.Some? <==> g.currentAmount < g.targetAmount
    ensures c.remaining.Some? ==> c.remaining.value == g.targetAmount - g.currentAmount
    ensures c.deadline == g.deadline
    ensures c.deadlineWarns <==> g.deadline.Some? && days != 0 && days < 30
    ensures c.daysLeft.Some? <==> g.deadline.Some? && days > 0
    ensures c.daysLeft.Some? ==> c.daysLeft.value == days
    ensures c.daysLeftUrgent <==> c.daysLeft.Some? && days < 30
    ensures c.monthlyNeeded.Some? <==> g.deadline.Some? && days > 0 && g.currentAmount < g.targetAmount
    ensures c.monthlyNeeded.Some? ==> c.monthlyNeeded.value == MonthlyNeeded(g, days)
  {
    var progress := Progress(g);
    var remaining := g.targetAmount - g.currentAmount;
    var daysRemaining: Option<int> := if g.deadline.Some? then Some(days) else None;
    var needed := MonthlyNeeded(g, days);
    Card(
      BarOf(progress),
      AtLeast100(progress),
      Below100(progress),
      if remaining > 0.0 then Some(remaining) else None,
      g.deadline,
      g.deadline.Some? && daysRemaining.Some? && daysRemaining.value != 0 && daysRemaining.value < 30,
      if daysRemaining.Some? && daysRemaining.value > 0 then daysRemaining else None,
      daysRemaining.Some? && daysRemaining.value > 0 && daysRemaining.value < 30,
      if needed > 0.0 && remaining > 0.0 then Some(needed) else None)
  }

  /** The card offers exactly one of the "completed" chip and the add-progress
      button, except for a goal with target and saved amount both 0, whose
      progress is NaN and which shows neither. */
  lemma ExactlyOneAction(g: Goal, days: int)
    ensures var c := CardOf(g, days);
            !(c.completed && c.addProgressButton)
            && (c.completed || c.addProgressButton <==> !(g.targetAmount == 0.0 && g.currentAmount == 0.0))
  {
  }

  /** For a positive target the card is complete exactly when the saved
      amount reaches the target, and then the bar is full and no remaining
      amount or monthly need is shown. */
  lemma CompletedMeansTargetReached(g: Goal, days: int)
    requires g.targetAmount > 0.0
    ensures var c := CardOf(g, days);
            (c.completed <==> g.currentAmount >= g.targetAmount)
            && (c.completed ==> c.bar == Finite(100.0) && c.remaining.None? && c.monthlyNeeded.None?)
  {
    FullAtWhole(g.currentAmount, g.targetAmount);
  }

  /** Adding the remaining amount through the add-progress endpoint completes
      a goal with a positive target. */
  lemma AddingRemainderCompletes(goals: seq<Goal>, caller: Id, id: Id, days: int)
    requires FindOwned(goals, GoalId, GoalOwner, id, caller).Ok?
    requires var g := FindOwned(goals, GoalId, GoalOwner, id, caller).value;
             g.targetAmount > 0.0 && g.currentAmount < g.targetAmount
    ensures var g := FindOwned(goals, GoalId, GoalOwner, id, caller).value;
            var r := GoalController.AddProgress(goals, caller, id, Some(g.targetAmount - g.currentAmount));
            r.Ok? && CardOf(r.value.1, days).completed && !CardOf(r.value.1, days).addProgressButton
  {
    var g := FindOwned(goals, GoalId, GoalOwner, id, caller).value;
    var r := GoalController.AddProgress(goals, caller, id, Some(g.targetAmount - g.currentAmount));
    assert r.value.1.currentAmount == g.targetAmount;
    CompletedMeansTargetReached(r.value.1, days);
  }
}
