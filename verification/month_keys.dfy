/** Calendar months and their "YYYY-MM" keys. Budgets store their month as such a
    key, the budget form offers them, and the analytics endpoints bucket
    transactions by them and sort them as strings. */
module MonthKeys {
  import opened Common
  import opened Text
  import Calendar

  datatype YearMonth = YearMonth(year: int, month: int)

  type Month = ym: YearMonth | 1 <= ym.year && 1 <= ym.month <= 12 witness YearMonth(2000, 1)

  /** The month a date falls in. */
  function MonthOf(d: Calendar.CalendarDate): (m: Month)
    ensures m.year == d.year && m.month == d.month
  {
    YearMonth(d.year, d.month)
  }

  /** Months counted from January of year 0, so consecutive months differ by one. */
  function MonthIndex(m: YearMonth): int {
    m.year * 12 + m.month - 1
  }

  /** `new Date(y, m - 1 + 1, 1)`: the month after `m`, wrapping into January. */
  function NextMonth(m: Month): (r: Month)
    ensures MonthIndex(r) == MonthIndex(m) + 1
  {
    if m.month == 12 then YearMonth(m.year + 1, 1) else YearMonth(m.year, m.month + 1)
  }

  /** `new Date(y, m - 1 - 1)`: the month before `m`, wrapping into December. */
  function PrevMonth(m: Month): (r: Month)
    requires m.year > 1 || m.month > 1
    ensures MonthIndex(r) == MonthIndex(m) - 1
  {
    if m.month == 1 then YearMonth(m.year - 1, 12) else YearMonth(m.year, m.month - 1)
  }

  lemma MonthIndexInjective(a: Month, b: Month)
    ensures MonthIndex(a) == MonthIndex(b) <==> a == b
  {
  }

  /** `${year}-${String(month).padStart(2, '0')}`. */
  function MonthKey(m: Month): string {
    NatToString(m.year) + "-" + Pad2(m.month)
  }

  predicate AllDigits(s: string) {
    forall i :: 0 <= i < |s| ==> IsDigit(s[i])
  }

  /** The number a string of decimal digits denotes (Horner's rule from the left). */
  function DigitsValue(s: string): nat
    requires AllDigits(s)
  {
    if |s| == 0 then 0 else DigitsValue(s[..|s| - 1]) * 10 + DigitValue(s[|s| - 1])
  }

  /** Printing a number and reading it back gives the number. */
  lemma {:induction false} NatToStringValue(n: nat)
    ensures AllDigits(NatToString(n))
    ensures DigitsValue(NatToString(n)) == n
  {
    if n >= 10 {
      NatToStringValue(n / 10);
      var prefix := NatToString(n / 10);
      assert (prefix + [DigitChar(n % 10)])[..|prefix|] == prefix;
    }
  }

  lemma FourDigitYearString(y: int)
    requires 1000 <= y <= 9999
    ensures |NatToString(y)| == 4
  {
    var a, b, c := y / 1000, y / 100, y / 10;
    assert c / 10 == b && b / 10 == a;
    assert |NatToString(a)| == 1;
    assert |NatToString(b)| == 2;
    assert |NatToString(c)| == 3;
  }

  lemma Pad2Value(n: nat)
    requires n < 100
    ensures AllDigits(Pad2(n)) && DigitsValue(Pad2(n)) == n
  {
    var s := Pad2(n);
    assert s[..1] == [DigitChar(n / 10)];
    assert DigitsValue(s[..1]) == n / 10;
  }

  /** Reads back a key of the form "YYYY-MM" (a four-digit year and a month
      01..12), the shape the budget endpoints turn into `YYYY-MM-01` dates. */
  function ParseMonthKey(s: string): Option<Month> {
    if |s| == 7 && s[4] == '-' && AllDigits(s[..4]) && AllDigits(s[5..]) then
      var y := DigitsValue(s[..4]);
      var m := DigitsValue(s[5..]);
      if 1 <= y && 1 <= m <= 12 then Some(YearMonth(y, m)) else None
    else None
  }

  /** Keys of four-digit years read back to the month they were made from. */
  lemma MonthKeyRoundTrip(m: Month)
    requires 1000 <= m.year <= 9999
    ensures ParseMonthKey(MonthKey(m)) == Some(m)
  {
    var y := NatToString(m.year);
    var key := MonthKey(m);
    FourDigitYearString(m.year);
    NatToStringValue(m.year);
    Pad2Value(m.month);
    assert key[..4] == y;
    assert key[5..] == Pad2(m.month);
  }

  /** Different months of four-digit years have different keys. */
  lemma MonthKeyInjective(a: Month, b: Month)
    requires 1000 <= a.year <= 9999 && 1000 <= b.year <= 9999
    ensures MonthKey(a) == MonthKey(b) <==> a == b
  {
    MonthKeyRoundTrip(a);
    MonthKeyRoundTrip(b);
  }

  /** JavaScript's default string order (`sort()` without a comparator). */
  predicate LexLess(a: string, b: string) {
    if |b| == 0 then false
    else if |a| == 0 then true
    else if a[0] != b[0] then a[0] < b[0]
    else LexLess(a[1..], b[1..])
  }

  lemma {:induction false} LexLessConcat(p: string, q: string, p': string, q': string)
    requires |p| == |p'|
    ensures LexLess(p + q, p' + q') <==> LexLess(p, p') || (p == p' && LexLess(q, q'))
  {
    if |p| > 0 {
      assert (p + q)[1..] == p[1..] + q;
      assert (p' + q')[1..] == p'[1..] + q';
      LexLessConcat(p[1..], q, p'[1..], q');
      if p[0] == p'[0] {
        assert p == p' <==> p[1..] == p'[1..];
      }
    } else {
      assert p + q == q && p' + q' == q';
    }
  }

  lemma {:induction false} LexLessDigits(s: string, t: string)
    requires AllDigits(s) && AllDigits(t) && |s| == |t|
    ensures LexLess(s, t) <==> DigitsValue(s) < DigitsValue(t)
    ensures s == t <==> DigitsValue(s) == DigitsValue(t)
  {
    if |s| > 0 {
      var n := |s| - 1;
      LexLessDigits(s[..n], t[..n]);
      assert s == s[..n] + [s[n]] && t == t[..n] + [t[n]];
      LexLessConcat(s[..n], [s[n]], t[..n], [t[n]]);
      assert s == t <==> s[..n] == t[..n] && s[n] == t[n];
      assert s[n] == t[n] <==> DigitValue(s[n]) == DigitValue(t[n]);
    }
  }

  /** For four-digit years, sorting keys as strings sorts the months
      chronologically. */
  lemma MonthKeyOrder(a: Month, b: Month)
    requires 1000 <= a.year <= 9999 && 1000 <= b.year <= 9999
    ensures LexLess(MonthKey(a), MonthKey(b)) <==> MonthIndex(a) < MonthIndex(b)
  {
    var ya, yb := NatToString(a.year), NatToString(b.year);
    FourDigitYearString(a.year);
    FourDigitYearString(b.year);
    NatToStringValue(a.year);
    NatToStringValue(b.year);
    Pad2Value(a.month);
    Pad2Value(b.month);
    LexLessDigits(ya, yb);
    LexLessDigits(Pad2(a.month), Pad2(b.month));
    assert MonthKey(a) == ya + ("-" + Pad2(a.month));
    assert MonthKey(b) == yb + ("-" + Pad2(b.month));
    LexLessConcat(ya, "-" + Pad2(a.month), yb, "-" + Pad2(b.month));
    LexLessConcat("-", Pad2(a.month), "-", Pad2(b.month));
  }
}
