/** What the web client's pages share when they turn numbers into display
    choices: the three colour levels of Material UI's palette, the capped
    progress bar, and the date-fns locale picked for the interface language. */
module Display {

  /** The palette colours the pages choose between: 'success', 'warning' and
      'error'. */
  datatype Severity = Success | Warning | Danger

  /** How alarming a colour is, for comparing choices. */
  function Rank(s: Severity): (r: nat)
    ensures r <= 2
    ensures r == 0 <==> s == Success
    ensures r == 2 <==> s == Danger
  {
    match s
    case Success => 0
    case Warning => 1
    case Danger => 2
  }

  /** `Math.min(x, 100)`: the value of a determinate progress bar. */
  function Cap(x: real): (r: real)
    ensures r <= 100.0 && r <= x
    ensures r == x || r == 100.0
    ensures r == x <==> x <= 100.0
  {
    if x <= 100.0 then x else 100.0
  }

  /** Raising the input never lowers the bar, and a bar is full exactly when
      the input reaches 100. */
  lemma CapMonotone(x: real, y: real)
    requires x <= y
    ensures Cap(x) <= Cap(y)
    ensures Cap(x) == 100.0 ==> Cap(y) == 100.0
  {
  }

  /** Multiplying by a positive number keeps an inequality. */
  lemma ScalePositive(x: real, y: real, c: real)
    requires c > 0.0
    ensures x >= y <==> x * c >= y * c
  {
    if x >= y {
      assert (x - y) * c >= 0.0;
    } else {
      assert (y - x) * c > 0.0;
    }
  }

  /** A part of a positive whole is at least 100 percent of it exactly when
      it is at least the whole. */
  lemma FullAtWhole(part: real, whole: real)
    requires whole > 0.0
    ensures part / whole * 100.0 >= 100.0 <==> part >= whole
  {
    var q := part / whole;
    assert q * whole == part;
    ScalePositive(q, 1.0, whole);
    assert q * 100.0 >= 100.0 <==> q >= 1.0;
    assert q >= 1.0 <==> q * whole >= 1.0 * whole;
  }

  /** The date-fns locales the pages format dates with. */
  datatype DateLocale = DateRu | DateUk | DateEnUs

  /** `getDateLocale` of RecurringTransactionsPage.tsx: Russian, Ukrainian, and
      US English for every other language. */
  function LocaleOrEnglish(language: string): (l: DateLocale)
    ensures l == DateRu <==> language == "ru"
    ensures l == DateUk <==> language == "uk"
  {
    match language
    case "ru" => DateRu
    case "uk" => DateUk
    case _ => DateEnUs
  }

  /** `getDateLocale` of TransactionsPage.tsx and GoalCard.tsx: Russian, US
      English for "en", and Ukrainian for every other language. */
  function LocaleOrUkrainian(language: string): (l: DateLocale)
    ensures l == DateRu <==> language == "ru"
    ensures l == DateEnUs <==> language == "en"
  {
    match language
    case "ru" => DateRu
    case "en" => DateEnUs
    case _ => DateUk
  }

  /** The two copies agree on the three languages the interface offers and
      disagree on every other: one falls back to English, the other to
      Ukrainian. */
  lemma LocalesAgreeOnOfferedLanguages(language: string)
    ensures LocaleOrEnglish(language) == LocaleOrUkrainian(language)
            <==> language == "ru" || language == "uk" || language == "en"
    ensures language != "ru" && language != "uk" && language != "en" ==>
              LocaleOrEnglish(language) == DateEnUs && LocaleOrUkrainian(language) == DateUk
  {
  }
}
