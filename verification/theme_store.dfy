/** The persisted preferences of the web client (frontend/src/store/themeStore.ts):
    colour mode, interface language and display currency. Persistence to local
    storage is not modelled; the store is a value and each action a function
    from the old state to the new one. */
module ThemeStore {

  datatype Mode = Light | Dark

  /** The six currencies the client can display. */
  datatype Currency = UAH | USD | EUR | GBP | RUB | PLN

  datatype ThemeState = ThemeState(mode: Mode, language: string, currency: Currency)

  /** The state of a first visit: dark mode, Ukrainian, hryvnia. */
  const Initial := ThemeState(Dark, "uk", UAH)

  /** `toggleTheme`: light becomes dark and anything else becomes light. */
  function ToggleTheme(s: ThemeState): (r: ThemeState)
    ensures r.mode != s.mode
    ensures r.language == s.language && r.currency == s.currency
  {
    s.(mode := if s.mode == Light then Dark else Light)
  }

  /** `setLanguage`. */
  function SetLanguage(s: ThemeState, language: string): (r: ThemeState)
    ensures r.language == language && r.mode == s.mode && r.currency == s.currency
  {
    s.(language := language)
  }

  /** `setCurrency`. */
  function SetCurrency(s: ThemeState, currency: Currency): (r: ThemeState)
    ensures r.currency == currency && r.mode == s.mode && r.language == s.language
  {
    s.(currency := currency)
  }

  /** Toggling twice restores the mode. */
  lemma ToggleInvolutive(s: ThemeState)
    ensures ToggleTheme(ToggleTheme(s)) == s
  {
  }

  /** The three actions touch different fields, so their order does not matter,
      and setting a value twice is setting it once. */
  lemma ActionsCommute(s: ThemeState, language: string, currency: Currency)
    ensures SetCurrency(SetLanguage(s, language), currency) == SetLanguage(SetCurrency(s, currency), language)
    ensures ToggleTheme(SetLanguage(s, language)) == SetLanguage(ToggleTheme(s), language)
    ensures ToggleTheme(SetCurrency(s, currency)) == SetCurrency(ToggleTheme(s), currency)
    ensures SetLanguage(SetLanguage(s, language), language) == SetLanguage(s, language)
    ensures SetCurrency(SetCurrency(s, currency), currency) == SetCurrency(s, currency)
  {
  }

  /** Every state is reachable from the first visit's state. */
  lemma EveryStateReachable(s: ThemeState)
    ensures var base := SetCurrency(SetLanguage(Initial, s.language), s.currency);
            s == (if s.mode == Dark then base else ToggleTheme(base))
  {
  }
}
