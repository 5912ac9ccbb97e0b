/** The budget dialog of the web client (frontend/src/components/BudgetFormDialog.tsx):
    the month picker's options, the form state it resets to, and the request it
    submits. The limit field holds text that `parseFloat` reads; here it is
    the number it reads to, `None` for text that reads to NaN (the empty
    field). The clock's current year is a parameter. */
module BudgetForm {
  import opened Common
  import opened Text
  import opened MonthKeys
  import opened Records
  import BudgetController

  /** One entry of the month picker: its "YYYY-MM" value and the month it names. */
  datatype MonthOption = MonthOption(year: nat, month: nat, value: string)

  /** The value `${year}-${monthStr}` of an option. */
  function OptionValue(year: nat, month: nat): string
    requires month < 100
  {
    NatToString(year) + "-" + Pad2(month)
  }

  /** The option at position `i` of the list: three years of twelve months,
      starting with January of last year. */
  function OptionAt(currentYear: nat, i: nat): (o: MonthOption)
    requires 1 <= currentYear && i < 36
    ensures o.year == currentYear - 1 + i / 12 && 1 <= o.month <= 12
    ensures MonthIndex(YearMonth(o.year, o.month)) == MonthIndex(YearMonth(currentYear - 1, 1)) + i
  {
    var year := currentYear - 1 + i / 12;
    var month := i % 12 + 1;
    MonthOption(year, month, OptionValue(year, month))
  }

  /** Month `month` of year `year` is the option at position
      `(year - (currentYear - 1)) * 12 + month - 1`. */
  lemma OptionAtYearMonth(currentYear: nat, year: nat, month: nat)
    requires 1 <= currentYear && currentYear - 1 <= year <= currentYear + 1 && 1 <= month <= 12
    ensures OptionAt(currentYear, (year - (currentYear - 1)) * 12 + month - 1)
            == MonthOption(year, month, OptionValue(year, month))
  {
    var k := year - (currentYear - 1);
    var i := k * 12 + month - 1;
    assert i / 12 == k && i % 12 == month - 1 by {
      if k == 0 { assert i == month - 1; }
      else if k == 1 { assert i == 12 + (month - 1); }
      else { assert i == 24 + (month - 1); }
    }
  }

  /** `generateMonthOptions`: the nested loop over last, this and next year. */
  method GenerateMonthOptions(currentYear: nat) returns (options: seq<MonthOption>)
    requires currentYear >= 1
    ensures |options| == 36
    ensures forall i :: 0 <= i < 36 ==> options[i] == OptionAt(currentYear, i)
  {
    options := [];
    var year := currentYear - 1;
    while year <= currentYear + 1
      invariant currentYear - 1 <= year <= currentYear + 2
      invariant |options| == (year - (currentYear - 1)) * 12
      invariant forall i :: 0 <= i < |options| ==> options[i] == OptionAt(currentYear, i)
    {
      var month := 1;
      while month <= 12
        invariant 1 <= month <= 13
        invariant |options| == (year - (currentYear - 1)) * 12 + month - 1
        invariant forall i :: 0 <= i < |options| ==> options[i] == OptionAt(currentYear, i)
      {
        OptionAtYearMonth(currentYear, year, month);
        options := options + [MonthOption(year, month, OptionValue(year, month))];
        month := month + 1;
      }
      year := year + 1;
    }
  }

  /** The options run through 36 consecutive months, and for four-digit years
      their values are distinct and ascend as strings, so the picker lists
      them in calendar order with no repeats. */
  lemma OptionsAscend(currentYear: nat, i: nat, j: nat)
    requires 1001 <= currentYear <= 9998 && i < j < 36
    ensures OptionAt(currentYear, j).year * 12 + OptionAt(currentYear, j).month
            == OptionAt(currentYear, i).year * 12 + OptionAt(currentYear, i).month + (j - i)
    ensures LexLess(OptionAt(currentYear, i).value, OptionAt(currentYear, j).value)
    ensures OptionAt(currentYear, i).value != OptionAt(currentYear, j).value
  {
    var a, b := OptionAt(currentYear, i), OptionAt(currentYear, j);
    var ma: Month := YearMonth(a.year, a.month);
    var mb: Month := YearMonth(b.year, b.month);
    assert a.value == MonthKey(ma) && b.value == MonthKey(mb);
    MonthKeyOrder(ma, mb);
    MonthKeyInjective(ma, mb);
  }

  /** Every month of the current year is offered, as the key the budgets page
      selects by default. */
  lemma CurrentMonthOffered(currentYear: nat, m: Month)
    requires currentYear >= 1 && m.year == currentYear
    ensures OptionAt(currentYear, 12 + m.month - 1).value == MonthKey(m)
  {
  }

  /** The form state: category, the parsed limit, and the month key. */
  datatype FormData = FormData(category: string, limit: Option<real>, month: string)

  /** The effect run when the dialog opens: the edited budget's fields, or an
      empty form on the month the page has selected. */
  function ResetForm(editing: Option<Budget>, selectedMonth: string): (f: FormData)
    ensures editing.None? ==> f.category == "" && f.limit.None? && f.month == selectedMonth
    ensures editing.Some? ==> f.category == editing.value.category && f.limit == Some(editing.value.limit)
                              && f.month == editing.value.month
  {
    match editing
    case Some(b) => FormData(b.category, Some(b.limit), b.month)
    case None => FormData("", None, selectedMonth)
  }

  /** What submitting sends: only the limit when editing, the whole form when adding. */
  datatype Submission = Put(id: Id, limit: Option<real>) | Post(request: BudgetController.CreateRequest)

  function Submit(form: FormData, editing: Option<Budget>): (s: Submission)
    ensures editing.Some? <==> s.Put?
    ensures s.Put? ==> s.id == editing.value.id && s.limit == form.limit
    ensures s.Post? ==> s.request.category == Some(form.category) && s.request.limit == form.limit
                        && s.request.month == Some(form.month)
  {
    match editing
    case Some(b) => Put(b.id, form.limit)
    case None => Post(BudgetController.CreateRequest(Some(form.category), form.limit, Some(form.month)))
  }

  /** Submitting an edit never moves a budget to another category or month:
      the request carries only the limit. */
  lemma EditKeepsKey(budgets: seq<Budget>, caller: Id, form: FormData, b: Budget)
    ensures var s := Submit(form, Some(b));
            var r := BudgetController.Update(budgets, caller, s.id, s.limit);
            r.Ok? ==> forall i :: 0 <= i < |budgets| ==>
                        r.value.0[i].category == budgets[i].category && r.value.0[i].month == budgets[i].month
                        && r.value.0[i].userId == budgets[i].userId
  {
  }

  /** Opening a stored budget of the caller for editing and saving it untouched
      leaves the table as it was. */
  lemma UntouchedEditChangesNothing(budgets: seq<Budget>, caller: Id, k: nat, selectedMonth: string)
    requires k < |budgets| && UniqueIds(budgets, BudgetId) && budgets[k].userId == caller
    ensures var b := budgets[k];
            var s := Submit(ResetForm(Some(b), selectedMonth), Some(b));
            BudgetController.Update(budgets, caller, s.id, s.limit) == Ok((budgets, b))
  {
    var b := budgets[k];
    var r := BudgetController.Update(budgets, caller, b.id, Some(b.limit));
    AuthorizeUnique(budgets, BudgetId, BudgetOwner, k, caller);
    assert r.Ok?;
    assert forall i :: 0 <= i < |budgets| && budgets[i].id == b.id ==> i == k;
    assert r.value.0 == budgets;
  }

  /** Saving the freshly opened empty form is refused for missing fields. */
  lemma EmptyFormRefused(budgets: seq<Budget>, caller: Id, selectedMonth: string)
    ensures var s := Submit(ResetForm(None, selectedMonth), None);
            BudgetController.Create(budgets, caller, s.request) == Err(MissingFields)
  {
  }
}
