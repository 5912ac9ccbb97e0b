/** The category-name normalisation of the web client's pages. A stored
    category may be an English key ("food") or a Russian or Ukrainian name
    typed in earlier versions ("Еда", "їжа"); before looking up its
    translation, a page lower-cases and trims it, maps known names to their
    English key, and otherwise replaces runs of white space by `_`
    (`getCategoryKey` of BudgetsPage.tsx, DashboardPage.tsx and
    RecurringTransactionsPage.tsx). TransactionsPage.tsx keeps an older,
    exact-case table instead. The translation lookup `t(...)` itself is not
    modelled. */
module CategoryKeys {
  import opened Common
  import opened Text

  /** A word of lower-case ASCII letters: the shape of every English key. */
  predicate LowerWord(s: string) {
    |s| > 0 && forall i :: 0 <= i < |s| ==> 'a' <= s[i] <= 'z'
  }

  /** The English keys the pages translate: eight spending categories ... */
  predicate SpendingKey(k: string) {
    k == "food" || k == "transport" || k == "entertainment" || k == "utilities"
    || k == "healthcare" || k == "shopping" || k == "education" || k == "other"
  }

  /** ... and four income categories. */
  predicate IncomeKey(k: string) {
    k == "salary" || k == "freelance" || k == "investment" || k == "gift"
  }

  predicate IsKey(k: string) {
    SpendingKey(k) || IncomeKey(k)
  }

  /** The shape of every Russian or Ukrainian name in the tables: non-empty,
      without `_`, and not starting with a Latin lower-case letter. */
  predicate ForeignName(name: string) {
    |name| > 0 && '_' !in name && !('a' <= name[0] <= 'z')
  }

  /** The Russian names of the spending categories in `CATEGORY_NAME_TO_KEY`. */
  function RussianSpending(name: string): (r: Option<string>)
    ensures r.Some? ==> SpendingKey(r.value) && ForeignName(name)
  {
    match name
    case "еда" => Some("food")
    case "транспорт" => Some("transport")
    case "развлечения" => Some("entertainment")
    case "коммунальные услуги" => Some("utilities")
    case "здоровье" => Some("healthcare")
    case "покупки" => Some("shopping")
    case "образование" => Some("education")
    case "другое" => Some("other")
    case _ => None
  }

  /** The Ukrainian names of the spending categories that differ from the
      Russian ones ("транспорт" and "покупки" are spelled alike). */
  function UkrainianSpending(name: string): (r: Option<string>)
    ensures r.Some? ==> SpendingKey(r.value) && ForeignName(name)
  {
    match name
    case "їжа" => Some("food")
    case "комунальні послуги" => Some("utilities")
    case "здоров'я" => Some("healthcare")
    case "розваги" => Some("entertainment")
    case "освіта" => Some("education")
    case "інше" => Some("other")
    case _ => None
  }

  /** The Russian names of the income categories (dashboard table only). */
  function RussianIncome(name: string): (r: Option<string>)
    ensures r.Some? ==> IncomeKey(r.value) && ForeignName(name)
  {
    match name
    case "зарплата" => Some("salary")
    case "фриланс" => Some("freelance")
    case "инвестиции" => Some("investment")
    case "подарок" => Some("gift")
    case _ => None
  }

  /** The Ukrainian names of the income categories that differ from the
      Russian ones ("зарплата" is spelled alike). */
  function UkrainianIncome(name: string): (r: Option<string>)
    ensures r.Some? ==> IncomeKey(r.value) && ForeignName(name)
  {
    match name
    case "фріланс" => Some("freelance")
    case "інвестиції" => Some("investment")
    case "подарунок" => Some("gift")
    case _ => None
  }

  lemma SpendingKeysAreLowerWords(k: string)
    requires SpendingKey(k)
    ensures LowerWord(k)
  {
  }

  lemma IncomeKeysAreLowerWords(k: string)
    requires IncomeKey(k)
    ensures LowerWord(k)
  {
  }

  /** Every key is an English word. */
  lemma KeysAreLowerWords(k: string)
    requires IsKey(k)
    ensures LowerWord(k)
  {
    if SpendingKey(k) {
      SpendingKeysAreLowerWords(k);
    } else {
      IncomeKeysAreLowerWords(k);
    }
  }

  /** `CATEGORY_NAME_TO_KEY[name]` of BudgetsPage.tsx: the Russian, Ukrainian
      and English names of the spending categories, the English ones mapping
      to themselves. A name the object does not hold reads as `undefined`,
      here `None`. The names of different languages never coincide, so the
      object is the union of the per-language tables. */
  function BudgetsName(name: string): (r: Option<string>)
    ensures r.Some? ==> SpendingKey(r.value)
    ensures r.Some? ==> |name| > 0 && '_' !in name
    ensures r.Some? && r.value != name ==> !('a' <= name[0] <= 'z')
  {
    if SpendingKey(name) then
      SpendingKeysAreLowerWords(name);
      Some(name)
    else
      var ru := RussianSpending(name);
      if ru.Some? then ru else UkrainianSpending(name)
  }

  /** `CATEGORY_NAME_TO_KEY[name]` of DashboardPage.tsx, which adds the income
      categories; RecurringTransactionsPage.tsx holds an entry-for-entry copy of
      the same object. */
  function DashboardName(name: string): (r: Option<string>)
    ensures r.Some? ==> IsKey(r.value)
    ensures r.Some? ==> |name| > 0 && '_' !in name
    ensures r.Some? && r.value != name ==> !('a' <= name[0] <= 'z')
  {
    if IsKey(name) then
      KeysAreLowerWords(name);
      Some(name)
    else
      var spending := BudgetsName(name);
      if spending.Some? then spending
      else
        var ru := RussianIncome(name);
        if ru.Some? then ru else UkrainianIncome(name)
  }

  /** Each table reads every key it can answer with as that key itself. */
  lemma KeysNameThemselves(k: string)
    ensures SpendingKey(k) ==> BudgetsName(k) == Some(k)
    ensures IsKey(k) ==> DashboardName(k) == Some(k)
  {
  }

  /** An English word a table knows is its own key. */
  lemma EnglishNamesSelf(name: string)
    requires LowerWord(name)
    ensures BudgetsName(name).Some? ==> BudgetsName(name) == Some(name)
    ensures DashboardName(name).Some? ==> DashboardName(name) == Some(name)
  {
    assert 'a' <= name[0] <= 'z';
  }

  /** The pages that carry a copy of `getCategoryKey`. */
  datatype Page = BudgetsPage | DashboardPage | RecurringPage

  /** The table a page consults. */
  function Lookup(page: Page, name: string): (r: Option<string>)
    ensures r.Some? ==> IsKey(r.value) && |r.value| > 0 && |name| > 0 && '_' !in name
    ensures page == BudgetsPage && r.Some? ==> SpendingKey(r.value)
  {
    match page
    case BudgetsPage => BudgetsName(name)
    case DashboardPage => DashboardName(name)
    case RecurringPage => DashboardName(name)
  }

  /** The recurring page's copy of the table and normalisation agrees with the
      dashboard's on every input. */
  lemma RecurringAgreesWithDashboard(category: string)
    ensures GetCategoryKey(RecurringPage, category) == GetCategoryKey(DashboardPage, category)
  {
  }

  /** `category.toLowerCase().trim()`. */
  function Normalize(category: string): string {
    Trim(ToLower(category))
  }

  /** `getCategoryKey`: the English key of a known name, otherwise the
      normalised name with white space runs replaced by `_`. The result never
      holds white space. */
  function GetCategoryKey(page: Page, category: string): (r: string)
    ensures Lookup(page, Normalize(category)).Some? ==>
              r == Lookup(page, Normalize(category)).value && IsKey(r)
    ensures Lookup(page, Normalize(category)).None? ==> r == UnderscoreWhitespace(Normalize(category))
    ensures NoWhitespace(r)
  {
    var n := Normalize(category);
    var found := Lookup(page, n);
    if found.Some? && found.value != "" then
      KeysAreNormal(found.value);
      found.value
    else UnderscoreWhitespace(n)
  }

  /** English keys are left as they are by lower-casing, trimming and the
      white-space replacement. */
  lemma LowerWordFixed(s: string)
    requires LowerWord(s)
    ensures ToLower(s) == s && Normalize(s) == s && UnderscoreWhitespace(s) == s && NoWhitespace(s)
  {
    assert forall i :: 0 <= i < |s| ==> !IsUpper(s[i]) && !IsWhitespace(s[i]);
    NormalFormFixed(s);
  }

  /** A string with no upper-case letter and no white space is its own
      normal form. */
  lemma NormalFormFixed(s: string)
    requires forall i :: 0 <= i < |s| ==> !IsUpper(s[i]) && !IsWhitespace(s[i])
    ensures Normalize(s) == s
  {
    assert ToLower(s) == s;
  }

  /** A string whose lower-cased form neither starts nor ends with white
      space normalises to that form. */
  lemma NormalizeOf(s: string, lowered: string)
    requires ToLower(s) == lowered
    requires |lowered| > 0 && !IsWhitespace(lowered[0]) && !IsWhitespace(lowered[|lowered| - 1])
    ensures Normalize(s) == lowered
  {
  }

  /** Normalising a key a second time gives the same key, so a key can be
      stored or passed around and looked up again. */
  lemma GetCategoryKeyIdempotent(page: Page, category: string)
    ensures GetCategoryKey(page, GetCategoryKey(page, category)) == GetCategoryKey(page, category)
  {
    var r := GetCategoryKey(page, category);
    if Lookup(page, Normalize(category)).Some? {
      KeysAreNormal(r);
      KeysNameThemselves(r);
    } else {
      UnderscoredIsNormal(category);
      UnderscoredIsUnknown(page, category);
    }
  }

  /** A key is its own normal form and holds no white space. */
  lemma KeysAreNormal(k: string)
    requires IsKey(k)
    ensures NoWhitespace(k) && Normalize(k) == k && UnderscoreWhitespace(k) == k
  {
    KeysAreLowerWords(k);
    LowerWordFixed(k);
  }

  /** A normalised name with its white space replaced is left as it is by a
      second normalisation. */
  lemma UnderscoredIsNormal(category: string)
    ensures var r := UnderscoreWhitespace(Normalize(category));
            Normalize(r) == r && UnderscoreWhitespace(r) == r
  {
    TrimKeepsLower(ToLower(category));
    UnderscoredLowerIsNormal(Normalize(category));
  }

  /** Trimming text without upper-case letters leaves none. */
  lemma TrimKeepsLower(s: string)
    requires forall i :: 0 <= i < |s| ==> !IsUpper(s[i])
    ensures var t := Trim(s); forall i :: 0 <= i < |t| ==> !IsUpper(t[i])
  {
    var t := Trim(s);
    forall i | 0 <= i < |t|
      ensures !IsUpper(t[i])
    {
      assert t[i] in t;
      var j :| 0 <= j < |s| && s[j] == t[i];
    }
  }

  /** Text without upper-case letters, once its white space is replaced, is
      its own normal form. */
  lemma UnderscoredLowerIsNormal(n: string)
    requires forall i :: 0 <= i < |n| ==> !IsUpper(n[i])
    ensures var r := UnderscoreWhitespace(n);
            Normalize(r) == r && UnderscoreWhitespace(r) == r
  {
    var r := UnderscoreWhitespace(n);
    forall i | 0 <= i < |r|
      ensures !IsUpper(r[i]) && !IsWhitespace(r[i])
    {
      assert r[i] in r;
      if r[i] != '_' {
        assert r[i] in n;
        var j :| 0 <= j < |n| && n[j] == r[i];
      }
    }
    NormalFormFixed(r);
  }

  /** A name no table knows stays unknown once its white space is replaced:
      either nothing changed, or it now holds `_`, which no table name does. */
  lemma UnderscoredIsUnknown(page: Page, category: string)
    requires Lookup(page, Normalize(category)).None?
    ensures Lookup(page, UnderscoreWhitespace(Normalize(category))).None?
  {
    var n := Normalize(category);
    var r := UnderscoreWhitespace(n);
    if r != n {
      assert '_' in r;
    }
  }

  /** Names of one category in either language and any letter case reach the
      same English key: a Russian name with a capital ... */
  lemma RussianCapitalized()
    ensures GetCategoryKey(BudgetsPage, "Еда") == "food"
  {
    CapitalEdaNormalized();
    EdaKnown();
  }

  lemma CapitalEdaNormalized()
    ensures Normalize("Еда") == "еда"
  {
    assert ToLower("Еда") == "еда";
    NormalizeOf("Еда", "еда");
  }

  lemma EdaKnown()
    ensures Lookup(BudgetsPage, "еда") == Some("food")
    ensures Lookup(DashboardPage, "еда") == Some("food")
  {
  }

  /** ... the Ukrainian name ... */
  lemma UkrainianName()
    ensures GetCategoryKey(BudgetsPage, "їжа") == "food"
  {
    IzhaNormalized();
    IzhaKnown();
  }

  lemma IzhaNormalized()
    ensures Normalize("їжа") == "їжа"
  {
    assert ToLower("їжа") == "їжа";
    NormalizeOf("їжа", "їжа");
  }

  lemma IzhaKnown()
    ensures Lookup(BudgetsPage, "їжа") == Some("food")
  {
  }

  /** ... and a name in capitals. */
  lemma RussianCapitals()
    ensures GetCategoryKey(DashboardPage, "ЗАРПЛАТА") == "salary"
  {
    SalaryNormalized();
    SalaryKnown();
  }

  lemma SalaryNormalized()
    ensures Normalize("ЗАРПЛАТА") == "зарплата"
  {
    assert ToLower("ЗАРПЛАТА") == "зарплата";
    NormalizeOf("ЗАРПЛАТА", "зарплата");
  }

  lemma SalaryKnown()
    ensures Lookup(DashboardPage, "зарплата") == Some("salary")
  {
  }

  /** A name no table knows keeps its words, joined by `_`. */
  lemma UnknownNameUnderscored()
    ensures GetCategoryKey(BudgetsPage, "Pet Care") == "pet_care"
  {
    PetCareNormalized();
    PetCareUnknown();
    PetCareJoined();
  }

  lemma PetCareJoined()
    ensures UnderscoreWhitespace("pet" + " " + "care") == "pet_care"
  {
    assert NoWhitespace("pet") && NoWhitespace("care");
    UnderscoreJoin("pet", "care");
  }

  lemma PetCareUnknown()
    ensures Lookup(BudgetsPage, "pet" + " " + "care").None?
  {
    assert "pet" + " " + "care" == "pet care";
  }

  lemma PetCareNormalized()
    ensures Normalize("Pet Care") == "pet" + " " + "care"
  {
    assert ToLower("Pet Care") == "pet" + " " + "care";
    NormalizeOf("Pet Care", "pet" + " " + "care");
  }

  /** `categoryKeyMap[category]` of TransactionsPage.tsx: the older,
      exact-case table of Russian names. */
  function LegacyName(category: string): (r: Option<string>)
    ensures r.Some? ==> IsKey(r.value) && r.value != category
  {
    match category
    case "Еда" => Some("food")
    case "Транспорт" => Some("transport")
    case "Развлечения" => Some("entertainment")
    case "Здоровье" => Some("healthcare")
    case "Покупки" => Some("shopping")
    case "Жилье" => Some("utilities")
    case "Образование" => Some("other")
    case "Другое" => Some("other")
    case "Зарплата" => Some("salary")
    case "Фриланс" => Some("freelance")
    case "Инвестиции" => Some("investment")
    case "Подарок" => Some("other")
    case "Коммунальные услуги" => Some("utilities")
    case _ => None
  }

  /** `categoryKeyMap[category] || category`: no normalisation at all. A known
      name becomes an English key; any other text is shown as it is. */
  function LegacyCategoryKey(category: string): (r: string)
    ensures LegacyName(category).Some? ==> r == LegacyName(category).value && IsKey(r) && r != category
    ensures LegacyName(category).None? ==> r == category
  {
    var found := LegacyName(category);
    if found.Some? && found.value != "" then found.value else category
  }

  /** The two kinds of table disagree: the transactions list shows "Образование"
      under "other" where the dashboard shows it under "education" ... */
  lemma LegacyEducationDisagrees()
    ensures LegacyCategoryKey("Образование") == "other"
    ensures GetCategoryKey(DashboardPage, "Образование") == "education"
  {
    LegacyEducation();
    EducationNormalized();
    EducationKnown();
  }

  lemma LegacyEducation()
    ensures LegacyName("Образование") == Some("other")
  {
  }

  lemma EducationKnown()
    ensures Lookup(DashboardPage, "образование") == Some("education")
  {
  }

  lemma EducationNormalized()
    ensures Normalize("Образование") == "образование"
  {
    assert ToLower("Образование") == "образование";
    NormalizeOf("Образование", "образование");
  }

  /** ... and a lower-case "еда" is translated on the dashboard but shown
      untranslated in the transactions list. */
  lemma LegacyIsCaseSensitive()
    ensures LegacyCategoryKey("еда") == "еда"
    ensures GetCategoryKey(DashboardPage, "еда") == "food"
  {
    LegacyEdaUnknown();
    EdaNormalized();
    EdaKnown();
  }

  lemma LegacyEdaUnknown()
    ensures LegacyName("еда").None?
  {
  }

  lemma EdaNormalized()
    ensures Normalize("еда") == "еда"
  {
    assert ToLower("еда") == "еда";
    NormalizeOf("еда", "еда");
  }
}
