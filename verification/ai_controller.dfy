/** The AI endpoints of the backend (backend/src/controllers/aiController.ts):
    `analyzeFinances` summarises the caller's last month and asks the generative
    model for advice, `predictExpenses` averages the last three months per
    calendar month, adds the active recurring series and asks the model for a
    forecast. The model itself is outside the program: its reply is a parameter
    (`ModelReply`), and the prompt text it is sent is not modelled. The start of
    each window ("one month ago", "three months ago") is a parameter too. */
module AiController {
  import opened Common
  import opened Records
  import opened MonthKeys
  import opened Grouping
  import opened Ledger
  import Calendar
  import Seqs
  import TransactionController

  /** The languages with their own fixed messages. */
  datatype Lang = En | Ru | Uk

  /** `messages[language] || messages['en']`: Russian and Ukrainian have their
      own messages, every other language gets the English one. */
  function MessageLanguage(language: string): (l: Lang)
    ensures l == Ru <==> language == "ru"
    ensures l == Uk <==> language == "uk"
  {
    if language == "ru" then Ru else if language == "uk" then Uk else En
  }

  /** `const { language = 'ru' } = req.body`: the default applies only when the
      field is missing. */
  function RequestLanguage(language: Option<string>): string {
    language.GetOr("ru")
  }

  /** `getCurrencyName`: the local name of USD, EUR or UAH in Russian or
      Ukrainian; the code itself in English and for any other currency or
      language. */
  function GetCurrencyName(currency: string, language: string): (r: string)
    ensures r == currency <==> language !in {"ru", "uk"} || currency !in {"USD", "EUR", "UAH"}
    ensures currency == "UAH" && language in {"ru", "uk"} ==> r == "грн."
  {
    match (currency, language)
    case ("USD", "ru") => "долл."
    case ("USD", "uk") => "дол."
    case ("EUR", "ru") => "евро"
    case ("EUR", "uk") => "євро"
    case ("UAH", "ru") => "грн."
    case ("UAH", "uk") => "грн."
    case _ => currency
  }

  /** The key check both endpoints make before reading any data: a key must be
      set, non-empty, and not the placeholder of the example configuration. */
  predicate KeyConfigured(key: Option<string>) {
    TruthyString(key) && key.value != "your-gemini-api-key-here"
  }

  /** What the model call gives back: its text, or a thrown error. */
  datatype ModelReply = Replied(text: string) | Failed

  /** The text the endpoints answer with. */
  datatype Message =
    | ModelText(text: string)
    | NoAdvice
    | NoForecast
    | NotEnoughData(lang: Lang)
    | NotEnoughHistory(lang: Lang)

  /** `result.response.text() || fallback`. */
  function ReplyText(text: string, fallback: Message): (m: Message)
    ensures text != "" ==> m == ModelText(text)
    ensures text == "" ==> m == fallback
  {
    if text == "" then fallback else ModelText(text)
  }

  /** The caller's transactions dated on or after `since`, latest first. */
  function Recent(store: seq<Transaction>, caller: Id, since: Calendar.CalendarDate): (r: seq<Transaction>)
    ensures forall t :: t in r <==> t in store && t.userId == caller && !Calendar.Before(t.date, since)
    ensures forall i, j :: 0 <= i < j < |r| ==> !Calendar.Before(r[i].date, r[j].date)
    ensures multiset(r) == multiset(Seqs.Filter(store, TransactionController.MatchesQuery(
                                      caller, TransactionController.ListQuery(None, None, Some(since), None))))
  {
    TransactionController.List(store, caller, TransactionController.ListQuery(None, None, Some(since), None))
  }

  /** Another user's transaction never changes the caller's window. */
  lemma RecentIgnoresOthers(store: seq<Transaction>, t: Transaction, caller: Id, since: Calendar.CalendarDate)
    requires t.userId != caller
    ensures Recent(store + [t], caller, since) == Recent(store, caller, since)
  {
    TransactionController.ListIgnoresNonMatching(store, t, caller, TransactionController.ListQuery(None, None, Some(since), None));
  }

  /** The `summary` of an analysis. */
  datatype Summary = Summary(totalIncome: real, totalExpense: real, balance: real, topCategories: seq<CategoryShare>)

  /** The totals by exact type, the balance, and the three largest expense
      categories. */
  function Summarize(txs: seq<Transaction>): (s: Summary)
    ensures s.totalIncome == KeySum(txs, KindOf, Amount, "income")
    ensures s.totalExpense == KeySum(txs, KindOf, Amount, "expense")
    ensures s.balance == s.totalIncome - s.totalExpense
    ensures |s.topCategories| == if |CategoryShares(txs)| < 3 then |CategoryShares(txs)| else 3
    ensures forall i :: 0 <= i < |s.topCategories| ==> s.topCategories[i] == CategoryShares(txs)[i]
  {
    OfKindTotal(txs, "income");
    OfKindTotal(txs, "expense");
    var income := Total(OfKind(txs, "income"), Amount);
    var expense := Total(OfKind(txs, "expense"), Amount);
    Summary(income, expense, income - expense, Seqs.Take(CategoryShares(txs), 3))
  }

  /** When every type is income or expense, income and expenses together
      account for every transaction of the window. */
  lemma SummaryAccountsForAll(txs: seq<Transaction>)
    requires TransactionController.KindsValid(txs)
    ensures Summarize(txs).totalIncome + Summarize(txs).totalExpense == Total(txs, Amount)
  {
    IncomeExpenseBuckets(txs);
  }

  /** The top categories are expense categories of the window with their
      totals, and no category left out spent more than one that is shown. */
  lemma TopCategoriesAreLargest(txs: seq<Transaction>)
    ensures var top := Summarize(txs).topCategories;
            forall c :: c in top ==> c == ShareOf(OfKind(txs, "expense"), c.category)
                                     && exists t :: t in txs && t.kind == "expense" && t.category == c.category
    ensures var top := Summarize(txs).topCategories;
            var all := CategoryShares(txs);
            forall i, j :: 0 <= i < |top| <= j < |all| ==> all[j].amount <= top[i].amount
  {
    var top := Summarize(txs).topCategories;
    forall c | c in top
      ensures c == ShareOf(OfKind(txs, "expense"), c.category)
      ensures exists t :: t in txs && t.kind == "expense" && t.category == c.category
    {
      var i :| 0 <= i < |top| && top[i] == c;
      assert c in CategoryShares(txs);
      CategorySharesAreExpenseTotals(txs, c);
    }
  }

  /** The answer of `analyzeFinances`: the advice and, when there was data, the summary. */
  datatype Analysis = Analysis(advice: Message, summary: Option<Summary>)

  /** POST /analyze. A missing key answers 503 before anything is read; an empty
      window answers the fixed message of the request's language without
      calling the model; a failing model call answers 500. */
  function AnalyzeFinances(store: seq<Transaction>, caller: Id, key: Option<string>, language: Option<string>,
                           since: Calendar.CalendarDate, reply: ModelReply): (r: Result<Analysis>)
    ensures r.Err? ==> r.error == KeyNotConfigured || r.error == ServerError
    ensures (r.Err? && r.error == KeyNotConfigured) <==> !KeyConfigured(key)
    ensures (r.Err? && r.error == ServerError) <==>
              KeyConfigured(key) && |Recent(store, caller, since)| > 0 && reply.Failed?
    ensures r.Ok? && r.value.summary.None? ==>
              r.value.advice == NotEnoughData(MessageLanguage(RequestLanguage(language)))
    ensures r.Ok? ==> (r.value.summary.None? <==> |Recent(store, caller, since)| == 0)
    ensures r.Ok? && r.value.summary.Some? ==>
              r.value.summary.value == Summarize(Recent(store, caller, since))
              && (r.value.advice == NoAdvice <==> reply.text == "")
              && (reply.text != "" ==> r.value.advice == ModelText(reply.text))
  {
    if !KeyConfigured(key) then Err(KeyNotConfigured)
    else
      var txs := Recent(store, caller, since);
      if |txs| == 0 then Ok(Analysis(NotEnoughData(MessageLanguage(RequestLanguage(language))), None))
      else match reply
        case Failed => Err(ServerError)
        case Replied(text) => Ok(Analysis(ReplyText(text, NoAdvice), Some(Summarize(txs))))
  }

  /** The analysis of the caller does not depend on other users' data. */
  lemma AnalysisIgnoresOthers(store: seq<Transaction>, t: Transaction, caller: Id, key: Option<string>,
                              language: Option<string>, since: Calendar.CalendarDate, reply: ModelReply)
    requires t.userId != caller
    ensures AnalyzeFinances(store + [t], caller, key, language, since, reply)
            == AnalyzeFinances(store, caller, key, language, since, reply)
  {
    RecentIgnoresOthers(store, t, caller, since);
  }

  /** A language without messages of its own gets the English "not enough
      data" message, and a request without a language gets the Russian one. */
  lemma AnalysisLanguageFallback(store: seq<Transaction>, caller: Id, key: Option<string>, language: string,
                                 since: Calendar.CalendarDate, reply: ModelReply)
    requires KeyConfigured(key) && |Recent(store, caller, since)| == 0
    ensures language !in {"ru", "uk"} ==>
              AnalyzeFinances(store, caller, key, Some(language), since, reply) == Ok(Analysis(NotEnoughData(En), None))
    ensures AnalyzeFinances(store, caller, key, None, since, reply) == Ok(Analysis(NotEnoughData(Ru), None))
  {
  }

  /** The calendar months of the window, in order of first occurrence
      (`Object.keys(monthlyData)`). */
  function Months(txs: seq<Transaction>): (ms: seq<Month>)
    ensures forall m :: m in ms <==> exists i :: 0 <= i < |txs| && MonthOfTx(txs[i]) == m
    ensures |txs| > 0 ==> |ms| > 0
    ensures forall i, j :: 0 <= i < j < |ms| ==> ms[i] != ms[j]
    ensures |ms| <= |txs|
  {
    var ms := KeysInOrder(txs, MonthOfTx);
    assert |txs| > 0 ==> MonthOfTx(txs[0]) in ms;
    DistinctKeysBound(txs, MonthOfTx);
    ms
  }

  /** There are no more distinct keys than elements. */
  lemma {:induction false} DistinctKeysBound<T, K(!new)>(xs: seq<T>, key: T -> K)
    ensures |KeysInOrder(xs, key)| <= |xs|
  {
    if |xs| > 0 {
      DistinctKeysBound(xs[..|xs| - 1], key);
    }
  }

  /** The sum of `val` over the monthly buckets divided by the number of months. */
  function MonthlyAverage(txs: seq<Transaction>, val: Transaction -> real): (a: real)
    requires |txs| > 0
    ensures a == Total(txs, val) / (|Months(txs)| as real)
  {
    var ms := Months(txs);
    BucketsCoverAll(txs, MonthOfTx, val);
    SumKeys(ms, txs, MonthOfTx, val) / (|ms| as real)
  }

  /** A transaction's amount when it is a non-income in the given category. */
  function CategoryExpensePart(category: string): Transaction -> real {
    (t: Transaction) => if t.kind != "income" && t.category == category then t.amount else 0.0
  }

  function IsNotIncome(t: Transaction): bool {
    t.kind != "income"
  }

  /** One entry of `categoryPredictions`. */
  datatype CategoryPrediction = CategoryPrediction(category: string, amount: real)

  function PredictionsOf(txs: seq<Transaction>, names: seq<string>): (r: seq<CategoryPrediction>)
    requires |txs| > 0
    ensures |r| == |names|
    ensures forall i :: 0 <= i < |names| ==>
              r[i].category == names[i]
              && r[i].amount == Total(txs, CategoryExpensePart(names[i])) / (|Months(txs)| as real)
  {
    seq(|names|, i requires 0 <= i < |names| =>
      CategoryPrediction(names[i], MonthlyAverage(txs, CategoryExpensePart(names[i]))))
  }

  /** The categories of the window's non-income transactions, in order of
      first occurrence. */
  function SpendingCategories(txs: seq<Transaction>): (r: seq<string>)
    ensures forall i, j :: 0 <= i < j < |r| ==> r[i] != r[j]
    ensures forall c :: c in r <==> exists t :: t in txs && t.kind != "income" && t.category == c
  {
    var spending := Seqs.Filter(txs, IsNotIncome);
    var r := KeysInOrder(spending, CategoryOf);
    assert forall c :: c in r ==> exists t :: t in txs && t.kind != "income" && t.category == c by {
      forall c | c in r
        ensures exists t :: t in txs && t.kind != "income" && t.category == c
      {
        var k :| 0 <= k < |spending| && CategoryOf(spending[k]) == c;
        assert spending[k] in spending;
      }
    }
    assert forall t :: t in txs && t.kind != "income" ==> t.category in r by {
      forall t | t in txs && t.kind != "income"
        ensures t.category in r
      {
        assert t in spending;
        var k :| 0 <= k < |spending| && spending[k] == t;
        assert CategoryOf(spending[k]) == t.category;
      }
    }
    r
  }

  /** `avgByCategory`: for every category of a non-income transaction, its
      monthly spending averaged over the months of the window. */
  function AverageByCategory(txs: seq<Transaction>): (r: seq<CategoryPrediction>)
    requires |txs| > 0
    ensures |r| == |SpendingCategories(txs)|
    ensures forall i :: 0 <= i < |r| ==> r[i].category == SpendingCategories(txs)[i]
    ensures forall i :: 0 <= i < |r| ==>
              r[i].amount == Total(txs, CategoryExpensePart(r[i].category)) / (|Months(txs)| as real)
  {
    PredictionsOf(txs, SpendingCategories(txs))
  }

  /** `recurringTransaction.findMany({ where: { userId, isActive: true } })`
      filtered by exact type. */
  function ActiveSeriesOfKind(caller: Id, kind: string): Series -> bool {
    (s: Series) => s.userId == caller && s.isActive && s.kind == kind
  }

  function SeriesAmount(s: Series): real { s.amount }

  /** The total of the caller's active series of one type, counting each series
      once whatever its frequency. */
  function RecurringTotal(series: seq<Series>, caller: Id, kind: string): (r: real)
    ensures series == [] ==> r == 0.0
  {
    Total(Seqs.Filter(series, ActiveSeriesOfKind(caller, kind)), SeriesAmount)
  }

  /** Adding a series changes the total exactly when it is an active series of
      the caller with that type, and then by its amount. */
  lemma RecurringTotalSnoc(series: seq<Series>, s: Series, caller: Id, kind: string)
    ensures RecurringTotal(series + [s], caller, kind)
            == RecurringTotal(series, caller, kind)
               + (if s.userId == caller && s.isActive && s.kind == kind then s.amount else 0.0)
  {
    var p := ActiveSeriesOfKind(caller, kind);
    Seqs.FilterSnoc(series, s, p);
    if p(s) {
      TotalSnoc(Seqs.Filter(series, p), s, SeriesAmount);
    } else {
      assert Seqs.Filter(series, p) + [] == Seqs.Filter(series, p);
    }
  }

  /** The `predictions` of a forecast. */
  datatype Predictions = Predictions(
    expectedIncome: real,
    expectedExpense: real,
    expectedBalance: real,
    categoryPredictions: seq<CategoryPrediction>,
    recurringExpenses: real,
    recurringIncome: real)

  /** The fewest transactions in the window for which a forecast is made. */
  const MinHistory := 10

  /** The numbers of a forecast: the monthly averages plus the recurring totals. */
  function Predict(txs: seq<Transaction>, series: seq<Series>, caller: Id): (p: Predictions)
    requires |txs| > 0
    ensures p.recurringIncome == RecurringTotal(series, caller, "income")
    ensures p.recurringExpenses == RecurringTotal(series, caller, "expense")
    ensures p.expectedIncome == MonthlyAverage(txs, IncomePart) + p.recurringIncome
    ensures p.expectedExpense == MonthlyAverage(txs, ExpensePart) + p.recurringExpenses
    ensures p.expectedBalance == p.expectedIncome - p.expectedExpense
    ensures p.categoryPredictions == AverageByCategory(txs)
  {
    var recurringIncome := RecurringTotal(series, caller, "income");
    var recurringExpense := RecurringTotal(series, caller, "expense");
    var income := MonthlyAverage(txs, IncomePart) + recurringIncome;
    var expense := MonthlyAverage(txs, ExpensePart) + recurringExpense;
    Predictions(income, expense, income - expense, AverageByCategory(txs), recurringExpense, recurringIncome)
  }

  /** The answer of `predictExpenses`. */
  datatype Forecast = Forecast(prediction: Message, predictions: Option<Predictions>)

  /** POST /predict. A missing key answers 503; fewer than ten transactions in
      the window answer the fixed message with no predictions and no model call;
      a failing model call answers 500. */
  function PredictExpenses(store: seq<Transaction>, series: seq<Series>, caller: Id, key: Option<string>,
                           language: Option<string>, since: Calendar.CalendarDate, reply: ModelReply): (r: Result<Forecast>)
    ensures r.Err? ==> r.error == KeyNotConfigured || r.error == ServerError
    ensures (r.Err? && r.error == KeyNotConfigured) <==> !KeyConfigured(key)
    ensures (r.Err? && r.error == ServerError) <==>
              KeyConfigured(key) && |Recent(store, caller, since)| >= MinHistory && reply.Failed?
    ensures r.Ok? ==> (r.value.predictions.Some? <==> |Recent(store, caller, since)| >= MinHistory)
    ensures r.Ok? && r.value.predictions.None? ==>
              r.value.prediction == NotEnoughHistory(MessageLanguage(RequestLanguage(language)))
    ensures r.Ok? && r.value.predictions.Some? ==>
              r.value.predictions.value == Predict(Recent(store, caller, since), series, caller)
              && (r.value.prediction == NoForecast <==> reply.text == "")
              && (reply.text != "" ==> r.value.prediction == ModelText(reply.text))
  {
    if !KeyConfigured(key) then Err(KeyNotConfigured)
    else
      var txs := Recent(store, caller, since);
      if |txs| < MinHistory then Ok(Forecast(NotEnoughHistory(MessageLanguage(RequestLanguage(language))), None))
      else match reply
        case Failed => Err(ServerError)
        case Replied(text) => Ok(Forecast(ReplyText(text, NoForecast), Some(Predict(txs, series, caller))))
  }

  /** With too little history the answer does not depend on the model at all. */
  lemma ShortHistoryNeedsNoModel(store: seq<Transaction>, series: seq<Series>, caller: Id, key: Option<string>,
                                 language: Option<string>, since: Calendar.CalendarDate, a: ModelReply, b: ModelReply)
    requires |Recent(store, caller, since)| < MinHistory
    ensures PredictExpenses(store, series, caller, key, language, since, a)
            == PredictExpenses(store, series, caller, key, language, since, b)
  {
  }

  /** Every transaction of the window is averaged exactly once, as income or
      as expense: the expected income and expense, less the recurring totals,
      average to everything booked in the window. */
  lemma ForecastAccountsForAll(txs: seq<Transaction>, series: seq<Series>, caller: Id)
    requires |txs| > 0
    ensures var p := Predict(txs, series, caller);
            (p.expectedIncome - p.recurringIncome) + (p.expectedExpense - p.recurringExpenses)
            == Total(txs, Amount) / (|Months(txs)| as real)
  {
    var p := Predict(txs, series, caller);
    PartsAddUp(txs);
    AveragesAddUp(p.expectedIncome, p.recurringIncome, p.expectedExpense, p.recurringExpenses,
                  Total(txs, IncomePart), Total(txs, ExpensePart), Total(txs, Amount), |Months(txs)| as real);
  }

  /** Two averages over the same number of months, each shifted by a
      recurring amount, add up to the average of the combined total once the
      shifts are taken off. */
  lemma AveragesAddUp(income: real, recurringIncome: real, expense: real, recurringExpense: real,
                      a: real, b: real, total: real, n: real)
    requires n > 0.0 && a + b == total
    requires income == a / n + recurringIncome && expense == b / n + recurringExpense
    ensures (income - recurringIncome) + (expense - recurringExpense) == total / n
  {
    DivideSum(a, b, n);
  }

  lemma DivideSum(a: real, b: real, n: real)
    requires n > 0.0
    ensures a / n + b / n == (a + b) / n
  {
  }
}
