/** The recurring-transaction materialiser (backend/src/utils/processRecurringTransactions.ts).
    One pass over the series table with "today" as a parameter: an active series
    whose end date has passed is switched off; otherwise, when its next due date
    (the date of its last run advanced by one period of its frequency, or its
    start date when it has never run) is not after today, one transaction dated
    today is emitted and the series' marker moves to today. */
module RecurringProcessor {
  import opened Common
  import opened Calendar
  import opened Records

  /** `getNextDate`: advances a start-of-day date by one period of the frequency
      tag. Unknown tags fall back to the monthly rule. */
  function GetNextDate(last: CalendarDate, frequency: string): (r: CalendarDate)
    ensures IsAfter(r, last)
    ensures frequency == "daily" ==> ToDays(r) == ToDays(last) + 1
    ensures frequency == "weekly" ==> ToDays(r) == ToDays(last) + 7
    ensures frequency == "yearly" ==> 365 <= ToDays(r) - ToDays(last) <= 366
    ensures frequency == "yearly" ==> r == AddOneYear(last)
    ensures frequency != "daily" && frequency != "weekly" && frequency != "yearly"
            ==> 28 <= ToDays(r) - ToDays(last) <= 31 && r == AddOneMonth(last)
  {
    match frequency
    case "daily" => NextDay(last)
    case "weekly" => AddDays(last, 7)
    case "monthly" => AddOneMonth(last)
    case "yearly" => AddOneYear(last)
    case _ => AddOneMonth(last)
  }

  /** A tag other than the four known ones is treated exactly like "monthly". */
  lemma UnknownFrequencyIsMonthly(last: CalendarDate, frequency: string)
    requires frequency !in {"daily", "weekly", "monthly", "yearly"}
    ensures GetNextDate(last, frequency) == GetNextDate(last, "monthly")
  {
  }

  /** The date the series is next due: one period after its marker, or its
      start date when it has never run. */
  function CandidateDate(s: Series): CalendarDate {
    match s.lastProcessed
    case Some(p) => GetNextDate(p, s.frequency)
    case None => s.startDate
  }

  /** The end date is set and today is strictly after it. */
  predicate IsExpired(s: Series, today: CalendarDate) {
    s.endDate.Some? && IsAfter(today, s.endDate.value)
  }

  /** The next due date is not after today. */
  predicate IsDue(s: Series, today: CalendarDate) {
    !IsAfter(CandidateDate(s), today)
  }

  /** The transaction a due series produces. */
  function Generated(s: Series, today: CalendarDate): (t: NewTransaction)
    ensures t.userId == s.userId && t.amount == s.amount && t.kind == s.kind
    ensures t.category == s.category && t.date == today
    ensures TruthyString(s.description) ==> t.description == s.description
    ensures !TruthyString(s.description) ==> t.description == Some("[AUTO] " + s.category)
  {
    NewTransaction(
      s.userId, s.amount, s.kind, s.category,
      if TruthyString(s.description) then s.description else Some("[AUTO] " + s.category),
      today)
  }

  /** The series after the pass has looked at it. Only `isActive` (expiry) and
      `lastProcessed` (materialisation) can change, and the marker only ever
      moves to today. */
  function Advance(s: Series, today: CalendarDate): (r: Series)
    ensures r == s.(isActive := r.isActive, lastProcessed := r.lastProcessed)
    ensures !s.isActive ==> r == s
    ensures s.isActive && IsExpired(s, today) ==> r == s.(isActive := false)
    ensures r.lastProcessed != s.lastProcessed ==> r.lastProcessed == Some(today)
  {
    if !s.isActive then s
    else if IsExpired(s, today) then s.(isActive := false)
    else if IsDue(s, today) then s.(lastProcessed := Some(today))
    else s
  }

  /** The transaction the pass creates for the series, if any: exactly when the
      series is active, not expired and due. */
  function Emitted(s: Series, today: CalendarDate): (r: Option<NewTransaction>)
    ensures r.Some? <==> s.isActive && !IsExpired(s, today) && IsDue(s, today)
    ensures r.Some? ==> r.value == Generated(s, today)
  {
    if s.isActive && !IsExpired(s, today) && IsDue(s, today) then Some(Generated(s, today)) else None
  }

  function AsSeq<T>(o: Option<T>): (r: seq<T>)
    ensures |r| <= 1
  {
    match o
    case Some(x) => [x]
    case None => []
  }

  /** The series table after one pass. */
  function AdvanceAll(all: seq<Series>, today: CalendarDate): (r: seq<Series>)
    ensures |r| == |all|
    ensures forall j :: 0 <= j < |all| ==> r[j] == Advance(all[j], today)
  {
    if |all| == 0 then [] else AdvanceAll(all[..|all| - 1], today) + [Advance(all[|all| - 1], today)]
  }

  /** The transactions one pass creates, in table order. */
  function Emissions(all: seq<Series>, today: CalendarDate): seq<NewTransaction>
  {
    if |all| == 0 then [] else Emissions(all[..|all| - 1], today) + AsSeq(Emitted(all[|all| - 1], today))
  }

  /** Taking one more series of the table appends its advanced row and what
      it emits. */
  lemma EmissionsStep(all: seq<Series>, i: nat, today: CalendarDate)
    requires i < |all|
    ensures AdvanceAll(all[..i + 1], today) == AdvanceAll(all[..i], today) + [Advance(all[i], today)]
    ensures Emissions(all[..i + 1], today) == Emissions(all[..i], today) + AsSeq(Emitted(all[i], today))
  {
    assert all[..i + 1][..i] == all[..i];
  }

  /** The body of the loop for one series fetched by the active-series query. */
  method ProcessOne(s: Series, today: CalendarDate) returns (next: Series, tx: Option<NewTransaction>)
    ensures next == Advance(s, today)
    ensures tx == Emitted(s, today)
  {
    if !s.isActive {
      // `findMany({ where: { isActive: true } })` never returns it
      return s, None;
    }
    if s.endDate.Some? && IsAfter(today, s.endDate.value) {
      return s.(isActive := false), None;
    }
    var nextDate := CandidateDate(s);
    if !IsAfter(nextDate, today) {
      return s.(lastProcessed := Some(today)), Some(Generated(s, today));
    }
    return s, None;
  }

  /** `processRecurringTransactions`: the pass itself, returning the updated
      table, the created transactions and `processedCount`. */
  method ProcessRecurringTransactions(all: seq<Series>, today: CalendarDate)
    returns (updated: seq<Series>, created: seq<NewTransaction>, processedCount: nat)
    ensures |updated| == |all|
    ensures forall j :: 0 <= j < |all| ==> updated[j] == Advance(all[j], today)
    ensures created == Emissions(all, today)
    ensures processedCount == |created|
  {
    updated, created, processedCount := [], [], 0;
    var i := 0;
    while i < |all|
      invariant 0 <= i <= |all|
      invariant updated == AdvanceAll(all[..i], today)
      invariant created == Emissions(all[..i], today)
      invariant processedCount == |created|
    {
      var next, tx := ProcessOne(all[i], today);
      EmissionsStep(all, i, today);
      updated := updated + [next];
      if tx.Some? {
        assert AsSeq(tx) == [tx.value];
        created := created + [tx.value];
        processedCount := processedCount + 1;
      } else {
        assert created + AsSeq(tx) == created;
      }
      i := i + 1;
    }
    assert all[..|all|] == all;
  }

  /** Every created transaction is dated today, and each series contributes at
      most one: a gap of several periods is caught up by a single transaction. */
  lemma {:induction false} EmissionsAtMostOnePerSeries(all: seq<Series>, today: CalendarDate)
    ensures |Emissions(all, today)| <= |all|
    ensures forall k :: 0 <= k < |Emissions(all, today)| ==> Emissions(all, today)[k].date == today
  {
    if |all| > 0 {
      EmissionsAtMostOnePerSeries(all[..|all| - 1], today);
    }
  }

  /** An expired series never fires, keeps its marker, and is switched off; a
      series whose end date is today is not expired. */
  lemma ExpiredNeverFires(s: Series, today: CalendarDate)
    requires s.endDate.Some?
    ensures IsAfter(today, s.endDate.value) ==> Emitted(s, today).None?
    ensures IsAfter(today, s.endDate.value) ==> Advance(s, today).lastProcessed == s.lastProcessed
    ensures IsAfter(today, s.endDate.value) && s.isActive ==> !Advance(s, today).isActive
    ensures s.endDate.value == today ==> !IsExpired(s, today)
  {
  }

  /** A series that fired today is not due again today. */
  lemma SeriesIdempotentSameDay(s: Series, today: CalendarDate)
    ensures Emitted(Advance(s, today), today).None?
  {
    if Emitted(s, today).Some? {
      var p := Advance(s, today);
      assert p.lastProcessed == Some(today);
      assert IsAfter(CandidateDate(p), today);
    }
  }

  /** Running the pass a second time on the same day creates nothing. */
  lemma {:induction false} SecondRunSameDayCreatesNothing(all: seq<Series>, today: CalendarDate)
    ensures Emissions(AdvanceAll(all, today), today) == []
  {
    if |all| > 0 {
      var n := |all| - 1;
      var after := AdvanceAll(all, today);
      assert after[..n] == AdvanceAll(all[..n], today);
      SecondRunSameDayCreatesNothing(all[..n], today);
      SeriesIdempotentSameDay(all[n], today);
    }
  }

  /** The marker never moves backwards, and when the series fires it moves
      strictly forward to today. */
  lemma MarkerMonotone(s: Series, today: CalendarDate)
    ensures Emitted(s, today).Some? && s.lastProcessed.Some?
            ==> Before(s.lastProcessed.value, today)
    ensures s.lastProcessed.Some? ==>
              (Advance(s, today).lastProcessed.Some?
               && !Before(Advance(s, today).lastProcessed.value, s.lastProcessed.value))
  {
  }

  /** A monthly series started on 2025-01-01 fires on its first run that day and
      then is not due on 2025-01-15, its next due date being 2025-02-01. */
  lemma MonthlyScenario(s: Series)
    requires s.frequency == "monthly" && s.isActive && s.endDate.None?
    requires s.startDate == Date(2025, 1, 1) && s.lastProcessed.None?
    ensures Emitted(s, Date(2025, 1, 1)).Some?
    ensures Advance(s, Date(2025, 1, 1)).lastProcessed == Some(Date(2025, 1, 1))
    ensures CandidateDate(Advance(s, Date(2025, 1, 1))) == Date(2025, 2, 1)
    ensures Emitted(Advance(s, Date(2025, 1, 1)), Date(2025, 1, 15)).None?
  {
    var first := Advance(s, Date(2025, 1, 1));
    assert CandidateDate(first) == Date(2025, 2, 1);
    OrdinalIsCalendarOrder(Date(2025, 1, 15), Date(2025, 2, 1));
  }
}
