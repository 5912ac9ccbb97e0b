/** Money display in the web client (frontend/src/utils/currency.ts). The
    locale-dependent number formatting of `toLocaleString` is outside the
    model: it is a parameter `render` from an amount and a locale to text. */
module CurrencyFormat {
  import opened ThemeStore

  /** The locales `formatCurrency` formats numbers in. */
  datatype Locale = UkUA | PlPL | EnUS

  /** `getCurrencySymbol`. */
  function GetCurrencySymbol(c: Currency): (s: string)
    ensures 0 < |s| <= 2 && ' ' !in s
  {
    match c
    case UAH => "\U{20B4}"
    case USD => "$"
    case EUR => "\U{20AC}"
    case GBP => "\U{00A3}"
    case RUB => "\U{20BD}"
    case PLN => "z\U{0142}"
  }

  /** No two currencies share a symbol. */
  lemma SymbolsDistinct(a: Currency, b: Currency)
    ensures GetCurrencySymbol(a) == GetCurrencySymbol(b) <==> a == b
  {
  }

  /** Where the symbol goes and which locale formats the number. */
  function LocaleOf(c: Currency): Locale {
    match c
    case UAH => UkUA
    case RUB => UkUA
    case PLN => PlPL
    case _ => EnUS
  }

  /** `formatCurrency`: hryvnia and rouble put the symbol and a space in front,
      zloty puts a space and the symbol behind, the others put the symbol
      directly in front. */
  function FormatCurrency(amount: real, c: Currency, render: (real, Locale) -> string): (r: string)
    ensures var sym, num := GetCurrencySymbol(c), render(amount, LocaleOf(c));
            (c in {UAH, RUB} ==> r == sym + " " + num)
            && (c == PLN ==> r == num + " " + sym)
            && (c in {USD, EUR, GBP} ==> r == sym + num)
  {
    var symbol := GetCurrencySymbol(c);
    if c == UAH || c == RUB then symbol + " " + render(amount, UkUA)
    else if c == PLN then render(amount, PlPL) + " " + symbol
    else symbol + render(amount, EnUS)
  }

  /** The formatted amount can be read back: stripping the symbol (and the space
      that goes with it) gives the number as the locale renders it. */
  lemma FormatRoundTrip(amount: real, c: Currency, render: (real, Locale) -> string)
    ensures var r, sym, num := FormatCurrency(amount, c, render), GetCurrencySymbol(c), render(amount, LocaleOf(c));
            var gap := if c in {USD, EUR, GBP} then 0 else 1;
            |r| == |sym| + gap + |num|
            && (if c == PLN then r[..|num|] == num && r[|num| + gap..] == sym
                else r[..|sym|] == sym && r[|sym| + gap..] == num)
  {
  }

  /** `getCurrencyName`: the Ukrainian name of each currency, which starts
      with a capital Cyrillic letter. */
  function GetCurrencyName(c: Currency): (s: string)
    ensures |s| > 0 && '\U{0400}' <= s[0] <= '\U{042F}'
  {
    match c
    case UAH => "Гривня"
    case USD => "Долар США"
    case EUR => "Євро"
    case GBP => "Фунт стерлінгів"
    case RUB => "Російський рубль"
    case PLN => "Польський злотий"
  }

  /** No two currencies share a name. */
  lemma NamesDistinct(a: Currency, b: Currency)
    ensures GetCurrencyName(a) == GetCurrencyName(b) <==> a == b
  {
  }

  /** `useCurrency`: the formatter bound to the currency the preferences hold. */
  function UseCurrency(state: ThemeState, render: (real, Locale) -> string): (f: real -> string)
    ensures forall amount :: f(amount) == FormatCurrency(amount, state.currency, render)
  {
    (amount: real) => FormatCurrency(amount, state.currency, render)
  }

  /** Changing only the mode or the language does not change how money is shown. */
  lemma FormatFollowsCurrencyOnly(state: ThemeState, language: string, render: (real, Locale) -> string, amount: real)
    ensures UseCurrency(ToggleTheme(state), render)(amount) == UseCurrency(state, render)(amount)
    ensures UseCurrency(SetLanguage(state, language), render)(amount) == UseCurrency(state, render)(amount)
  {
  }
}
