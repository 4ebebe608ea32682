/** Gregorian dates, the roll-over rule for "the n-th of the month", and the date a
    commitment resolves to. */
module Calendar {
  import opened Domain

  datatype Date = Date(year: int, month: int, day: int)

  const DAYS_IN_MONTH := [31, 28, 31, 30, 31, 30, 31, 31, 30, 31, 30, 31]
  const DAYS_BEFORE_MONTH := [0, 31, 59, 90, 120, 151, 181, 212, 243, 273, 304, 334]

  predicate IsLeap(year: int) { year % 4 == 0 && (year % 100 != 0 || year % 400 == 0) }

  function MonthLength(year: int, month: int): (n: int)
    requires 1 <= month <= 12
    ensures 28 <= n <= 31
  {
    if month == 2 && IsLeap(year) then 29 else DAYS_IN_MONTH[month - 1]
  }

  /** The dates the calendar has, from year 1 on. */
  predicate IsDate(d: Date) {
    1 <= d.year && 1 <= d.month <= 12 && 1 <= d.day <= MonthLength(d.year, d.month)
  }

  function DaysBeforeYear(year: int): int {
    var y := year - 1;
    y * 365 + y / 4 - y / 100 + y / 400
  }

  function DaysBeforeMonth(year: int, month: int): int
    requires 1 <= month <= 12
  {
    DAYS_BEFORE_MONTH[month - 1] + if month > 2 && IsLeap(year) then 1 else 0
  }

  /** The day count, the first of January of year 1 being day 1. */
  function Ordinal(d: Date): int
    requires IsDate(d)
  {
    DaysBeforeYear(d.year) + DaysBeforeMonth(d.year, d.month) + d.day
  }

  /** The month after. */
  function MonthAfter(year: int, month: int): (int, int) {
    if month == 12 then (year + 1, 1) else (year, month + 1)
  }

  function FirstOfNext(d: Date): Date {
    var next := MonthAfter(d.year, d.month);
    Date(next.0, next.1, 1)
  }

  function NextDay(d: Date): (r: Date)
    requires IsDate(d)
    ensures IsDate(r)
  {
    if d.day < MonthLength(d.year, d.month) then d.(day := d.day + 1) else FirstOfNext(d)
  }

  function AddDays(d: Date, n: nat): (r: Date)
    requires IsDate(d)
    ensures IsDate(r)
  {
    if n == 0 then d else NextDay(AddDays(d, n - 1))
  }

  /** A year is 365 or 366 days long. */
  lemma YearLength(year: int)
    ensures DaysBeforeYear(year + 1) == DaysBeforeYear(year) + if IsLeap(year) then 366 else 365
  {
    assert year / 4 == (year - 1) / 4 + if year % 4 == 0 then 1 else 0;
    assert year / 100 == (year - 1) / 100 + if year % 100 == 0 then 1 else 0;
    assert year / 400 == (year - 1) / 400 + if year % 400 == 0 then 1 else 0;
  }

  lemma FirstOfNextFollows(d: Date)
    requires IsDate(d)
    ensures IsDate(FirstOfNext(d))
    ensures Ordinal(FirstOfNext(d)) == Ordinal(d) - d.day + MonthLength(d.year, d.month) + 1
  {
    if d.month == 12 { YearLength(d.year); }
  }

  predicate Earlier(a: Date, b: Date) {
    a.year < b.year || (a.year == b.year && (a.month < b.month || (a.month == b.month && a.day < b.day)))
  }

  lemma {:induction false} LaterYearStartsLater(a: int, b: int)
    requires a < b
    ensures DaysBeforeYear(a) + (if IsLeap(a) then 366 else 365) <= DaysBeforeYear(b)
    decreases b - a
  {
    YearLength(b - 1);
    if a < b - 1 { LaterYearStartsLater(a, b - 1); }
  }

  lemma {:induction false} LaterMonthStartsLater(year: int, a: int, b: int)
    requires 1 <= a < b <= 12
    ensures DaysBeforeMonth(year, a) + MonthLength(year, a) <= DaysBeforeMonth(year, b)
    decreases b - a
  {
    if a < b - 1 { LaterMonthStartsLater(year, a, b - 1); }
  }

  lemma DayOfYearFits(d: Date)
    requires IsDate(d)
    ensures 1 <= Ordinal(d) - DaysBeforeYear(d.year) <= if IsLeap(d.year) then 366 else 365
  {}

  /** The day count orders dates as the calendar does, so no two dates share one. */
  lemma OrdinalFollowsTheCalendar(a: Date, b: Date)
    requires IsDate(a) && IsDate(b)
    ensures Earlier(a, b) <==> Ordinal(a) < Ordinal(b)
    ensures Ordinal(a) == Ordinal(b) ==> a == b
  {
    if Earlier(a, b) {
      EarlierHasSmallerOrdinal(a, b);
    } else if a != b {
      EarlierHasSmallerOrdinal(b, a);
    }
  }

  lemma EarlierHasSmallerOrdinal(a: Date, b: Date)
    requires IsDate(a) && IsDate(b) && Earlier(a, b)
    ensures Ordinal(a) < Ordinal(b)
  {
    if a.year < b.year {
      LaterYearStartsLater(a.year, b.year);
      DayOfYearFits(a);
      DayOfYearFits(b);
    } else if a.month < b.month {
      LaterMonthStartsLater(a.year, a.month, b.month);
    }
  }

  lemma NextDayIsOneLater(d: Date)
    requires IsDate(d)
    ensures Ordinal(NextDay(d)) == Ordinal(d) + 1
  {
    FirstOfNextFollows(d);
  }

  /** Day arithmetic agrees with the day count. */
  lemma {:induction false} AddDaysAddsToTheOrdinal(d: Date, n: nat)
    requires IsDate(d)
    ensures Ordinal(AddDays(d, n)) == Ordinal(d) + n
  {
    if n > 0 {
      AddDaysAddsToTheOrdinal(d, n - 1);
      NextDayIsOneLater(AddDays(d, n - 1));
    }
  }

  // ------------------------------------------------------ the n-th of a month

  /** The month the n-th is looked for in: this one, or the next when it has passed. */
  function TargetMonth(n: nat, today: Date): (int, int) {
    if n < today.day then MonthAfter(today.year, today.month) else (today.year, today.month)
  }

  /** The first of the month that the 31st day of `(year, month)` falls in. */
  function RollOver(year: int, month: int): (r: Date)
    requires 1 <= year && 1 <= month <= 12
    ensures IsDate(r)
  {
    AddDays(Date(year, month, 1), 30).(day := 1)
  }

  function NthOfMonth(n: nat, today: Date): (r: Date)
    requires IsDate(today)
    ensures IsDate(r)
  {
    var (year, month) := TargetMonth(n, today);
    if IsDate(Date(year, month, n)) then Date(year, month, n) else RollOver(year, month)
  }

  method RollToMonth(n: nat, today: Date) returns (r: Date)
    requires IsDate(today)
    ensures r == NthOfMonth(n, today)
  {
    var year, month := today.year, today.month;
    if n < today.day {
      month := month + 1;
      if month > 12 {
        month, year := 1, year + 1;
      }
    }
    if IsDate(Date(year, month, n)) {
      r := Date(year, month, n);
    } else {
      r := RollOver(year, month);
    }
  }

  lemma {:induction false} AddDaysWithinTheMonth(d: Date, n: nat)
    requires IsDate(d) && d.day + n <= MonthLength(d.year, d.month)
    ensures AddDays(d, n) == d.(day := d.day + n)
  {
    if n > 0 { AddDaysWithinTheMonth(d, n - 1); }
  }

  lemma {:induction false} AddDaysIsAdditive(d: Date, m: nat, n: nat)
    requires IsDate(d)
    ensures AddDays(AddDays(d, m), n) == AddDays(d, m + n)
  {
    if n > 0 { AddDaysIsAdditive(d, m, n - 1); }
  }

  /** Thirty days on, a long month still holds its last day; a shorter one has ended. */
  lemma RollOverIsTheMonthAfterUnlessLong(year: int, month: int)
    requires 1 <= year && 1 <= month <= 12
    ensures RollOver(year, month)
         == if MonthLength(year, month) == 31 then Date(year, month, 1) else FirstOfNext(Date(year, month, 1))
  {
    var first, length := Date(year, month, 1), MonthLength(year, month);
    AddDaysWithinTheMonth(first, length - 1);
    if length < 31 {
      AddDaysIsAdditive(first, length - 1, 1);
      AddDaysWithinTheMonth(FirstOfNext(first), 30 - length);
      AddDaysIsAdditive(first, length, 30 - length);
      assert AddDays(AddDays(first, length - 1), 1) == NextDay(AddDays(AddDays(first, length - 1), 0));
    }
  }

  /** For every day of the month a customer can name: the date is the n-th of its
      target month or, where that month is too short, the first of the one after. */
  lemma NthOrFirstOfTheNext(n: nat, today: Date)
    requires IsDate(today) && 1 <= n <= 31
    ensures var (year, month) := TargetMonth(n, today);
            NthOfMonth(n, today)
              == if n <= MonthLength(year, month) then Date(year, month, n) else FirstOfNext(Date(year, month, 1))
  {
    var (year, month) := TargetMonth(n, today);
    RollOverIsTheMonthAfterUnlessLong(year, month);
  }

  /** And it is today or one of the thirty days after. */
  lemma NthWithinThirtyDays(n: nat, today: Date)
    requires IsDate(today) && 1 <= n <= 31
    ensures Ordinal(today) <= Ordinal(NthOfMonth(n, today)) <= Ordinal(today) + 30
  {
    NthOrFirstOfTheNext(n, today);
    FirstOfNextFollows(today);
    FirstOfNextFollows(FirstOfNext(today));
  }

  /** The bound is met: the 30th, asked for on the 31st of a month before a long one. */
  lemma ThirtyDaysIsReached()
    ensures IsDate(Date(2026, 7, 31)) && NthOfMonth(30, Date(2026, 7, 31)) == Date(2026, 8, 30)
    ensures Ordinal(Date(2026, 8, 30)) == Ordinal(Date(2026, 7, 31)) + 30
  {
    NthOrFirstOfTheNext(30, Date(2026, 7, 31));
  }

  /** A two-digit number that is no day of any month can resolve to the past, against
      the promise "at or after today": "45 tarikh" said on 15 July 2026 gives the 1st of July. */
  lemma FortyFifthOfJulyIsInThePast()
    ensures NthOfMonth(45, Date(2026, 7, 15)) == Date(2026, 7, 1)
    ensures Ordinal(Date(2026, 7, 1)) < Ordinal(Date(2026, 7, 15))
  {
    RollOverIsTheMonthAfterUnlessLong(2026, 7);
  }

  /** For every number the rule can be given, the promise "at or after today" is broken
      exactly for a number above 31 in a long month that has begun. */
  lemma InThePastExactlyWhen(n: nat, today: Date)
    requires IsDate(today)
    ensures Ordinal(NthOfMonth(n, today)) < Ordinal(today)
       <==> n > 31 && MonthLength(today.year, today.month) == 31 && today.day > 1
  {
    var (year, month) := TargetMonth(n, today);
    FirstOfNextFollows(today);
    FirstOfNextFollows(FirstOfNext(today));
    if 1 <= n <= 31 {
      NthWithinThirtyDays(n, today);
    } else {
      RollOverIsTheMonthAfterUnlessLong(year, month);
    }
  }

  // --------------------------------------------------------- promise dates

  /** When the judge says the customer will pay. */
  datatype When =
    | OnToday | OnTomorrow | OnDayAfterTomorrow | NextWeek | MonthEnd | InDays | OnDayOfMonth | NotStated

  /** `explicit` is the date written out with "/" or "-" in the reply, if there is one. */
  function ResolveDate(when: When, number: Option<nat>, explicit: Option<Date>, today: Date): Option<Date>
    requires IsDate(today)
  {
    match when
    case OnToday => Some(today)
    case OnTomorrow => Some(AddDays(today, 1))
    case OnDayAfterTomorrow => Some(AddDays(today, 2))
    case NextWeek => Some(AddDays(today, 7))
    case MonthEnd => Some(today.(day := MonthLength(today.year, today.month)))
    case InDays => if number.Some? then Some(AddDays(today, number.value)) else None
    case OnDayOfMonth =>
      if explicit.Some? then explicit
      else if number.Some? then Some(NthOfMonth(number.value, today)) else None
    case NotStated => None
  }

  /** Each time a customer can say, as a day count from today: none, one, two and seven days,
      the number of days named, the last day of the month, the day of the month named, or
      the date written out. */
  lemma ResolvedDayIs(when: When, number: Option<nat>, explicit: Option<Date>, today: Date)
    requires IsDate(today)
    ensures var date := ResolveDate(when, number, explicit, today);
      match when
      case OnToday => date == Some(today)
      case OnTomorrow => date.Some? && IsDate(date.value) && Ordinal(date.value) == Ordinal(today) + 1
      case OnDayAfterTomorrow => date.Some? && IsDate(date.value) && Ordinal(date.value) == Ordinal(today) + 2
      case NextWeek => date.Some? && IsDate(date.value) && Ordinal(date.value) == Ordinal(today) + 7
      case InDays =>
        && (date.Some? <==> number.Some?)
        && (date.Some? ==> IsDate(date.value) && Ordinal(date.value) == Ordinal(today) + number.value)
      case MonthEnd =>
        && date.Some? && IsDate(date.value) && (date.value.year, date.value.month) == (today.year, today.month)
        && IsDate(FirstOfNext(today)) && Ordinal(date.value) + 1 == Ordinal(FirstOfNext(today))
      case OnDayOfMonth =>
        && (explicit.Some? ==> date == explicit)
        && (explicit.None? && number.None? ==> date == None)
        && (explicit.None? && number.Some? && 1 <= number.value <= 31 ==>
              && date.Some? && IsDate(date.value) && Ordinal(today) <= Ordinal(date.value) <= Ordinal(today) + 30
              && (date.value.day == number.value || date.value.day == 1))
      case NotStated => date == None
  {
    match when
    case InDays => if number.Some? { AddDaysAddsToTheOrdinal(today, number.value); }
    case OnDayOfMonth =>
      if number.Some? && 1 <= number.value <= 31 {
        NthWithinThirtyDays(number.value, today);
        NthOrFirstOfTheNext(number.value, today);
      }
    case OnTomorrow => AddDaysAddsToTheOrdinal(today, 1);
    case OnDayAfterTomorrow => AddDaysAddsToTheOrdinal(today, 2);
    case NextWeek => AddDaysAddsToTheOrdinal(today, 7);
    case MonthEnd => FirstOfNextFollows(today);
    case _ =>
  }

  ghost predicate FromTodayWithin(d: Date, today: Date, days: nat)
    requires IsDate(today)
  {
    IsDate(d) && Ordinal(today) <= Ordinal(d) <= Ordinal(today) + days
  }

  lemma ResolvedDateIsWithinAMonth(when: When, number: Option<nat>, today: Date)
    requires IsDate(today)
    requires number.Some? ==> 1 <= number.value <= 31
    ensures var date := ResolveDate(when, number, None, today);
            date.Some? ==> FromTodayWithin(date.value, today, 31)
  {
    match when
    case InDays => if number.Some? { AddDaysAddsToTheOrdinal(today, number.value); }
    case OnDayOfMonth => if number.Some? { NthWithinThirtyDays(number.value, today); }
    case OnTomorrow => AddDaysAddsToTheOrdinal(today, 1);
    case OnDayAfterTomorrow => AddDaysAddsToTheOrdinal(today, 2);
    case NextWeek => AddDaysAddsToTheOrdinal(today, 7);
    case _ =>
  }
}
