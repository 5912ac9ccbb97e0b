/** The series cards of frontend/src/pages/RecurringTransactionsPage.tsx: what
    one card shows for a recurring series. Dates are shown with the locale
    `Display.LocaleOrEnglish` picks; the date formatting itself and the
    translations are not modelled. The category label is
    `CategoryKeys.GetCategoryKey` on the page's copy of the table. */
module RecurringPage {
  import opened Common
  import opened Calendar
  import opened Records
  import opened Display
  import CategoryKeys
  import RecurringController
  import RecurringProcessor

  /** One card: title key, the amount's sign and colour, the card's opacity,
      the optional description line, the frequency chip, the three date lines
      (the end date and the last run only when set) and the active switch. */
  datatype SeriesCard = SeriesCard(
    titleKey: string,
    sign: string,
    amountColor: Severity,
    opacity: real,
    description: Option<string>,
    frequency: string,
    startDate: CalendarDate,
    endDate: Option<CalendarDate>,
    lastProcessed: Option<CalendarDate>,
    switchOn: bool)

  function CardOf(s: Series): (c: SeriesCard)
    ensures c.titleKey == CategoryKeys.GetCategoryKey(CategoryKeys.RecurringPage, s.category)
    ensures c.sign == "+" <==> s.kind == "income"
    ensures c.sign == "-" <==> s.kind != "income"
    ensures c.amountColor == Success <==> s.kind == "income"
    ensures c.amountColor != Warning
    ensures c.opacity == 1.0 <==> s.isActive
    ensures !s.isActive ==> c.opacity == 0.6
    ensures c.description.Some? <==> TruthyString(s.description)
    ensures c.description.Some? ==> c.description == s.description
    ensures c.endDate == s.endDate && c.lastProcessed == s.lastProcessed
    ensures c.frequency == s.frequency && c.startDate == s.startDate && c.switchOn == s.isActive
  {
    var income := s.kind == "income";
    SeriesCard(
      CategoryKeys.GetCategoryKey(CategoryKeys.RecurringPage, s.category),
      if income then "+" else "-",
      if income then Success else Danger,
      if s.isActive then 1.0 else 0.6,
      if TruthyString(s.description) then s.description else None,
      s.frequency, s.startDate, s.endDate, s.lastProcessed, s.isActive)
  }

  /** Flipping the switch through the toggle endpoint dims an active card or
      lights up a paused one, and changes nothing else on it. */
  lemma ToggleChangesOnlyActivity(store: seq<Series>, caller: Id, id: Id)
    ensures var r := RecurringController.Toggle(store, caller, id);
            r.Ok? ==> var before := CardOf(Authorize(store, SeriesId, SeriesOwner, id, caller).value);
                      var after := CardOf(r.value.1);
                      after == before.(opacity := if before.switchOn then 0.6 else 1.0, switchOn := !before.switchOn)
  {
  }

  /** After a pass of the recurring job a card changes only if its series was
      looked at: a series that fired shows today as its last run, an expired
      one is dimmed and switched off, and every other card is as before. */
  lemma CardAfterPass(s: Series, today: CalendarDate)
    ensures var before := CardOf(s);
            var after := CardOf(RecurringProcessor.Advance(s, today));
            if RecurringProcessor.Emitted(s, today).Some? then
              after == before.(lastProcessed := Some(today))
            else if s.isActive && RecurringProcessor.IsExpired(s, today) then
              after == before.(opacity := 0.6, switchOn := false)
            else after == before
  {
  }
}
