/**
  `get_last_12_months`: the month labels of today, today - 30 days, ...,
  today - 330 days, de-duplicated and sorted. The clock reading `utcnow()` is a
  parameter; dates are civil (proleptic Gregorian) dates, as Python's
  `datetime` counts them.
 */
module LastMonths {
  import opened Wrappers
  import opened Decimal
  import opened StringOrder

  datatype Date = Date(year: int, month: int, day: int)

  predicate IsLeapYear(y: int) {
    y % 4 == 0 && (y % 100 != 0 || y % 400 == 0)
  }

  function DaysInMonth(y: int, m: int): (n: int)
    requires 1 <= m <= 12
    ensures 28 <= n <= 31
  {
    if m == 2 then (if IsLeapYear(y) then 29 else 28)
    else if m == 4 || m == 6 || m == 9 || m == 11 then 30
    else 31
  }

  /** A date `datetime` can hold: years MINYEAR = 1 to MAXYEAR = 9999. */
  predicate ValidDate(d: Date) {
    1 <= d.year <= 9999 && 1 <= d.month <= 12 && 1 <= d.day <= DaysInMonth(d.year, d.month)
  }

  /**
    `d - timedelta(days=n)`, stepping back a month at a time; None stands for
    the OverflowError raised when the result would precede 0001-01-01.
   */
  function DaysBefore(d: Date, n: nat): (r: Option<Date>)
    requires ValidDate(d)
    ensures r.Some? ==> ValidDate(r.value)
    decreases n
  {
    if n < d.day then Some(Date(d.year, d.month, d.day - n))
    else if d.month > 1 || d.year > 1 then DaysBefore(PreviousMonthEnd(d), n - d.day)
    else None
  }

  function YearLength(y: int): int {
    if IsLeapYear(y) then 366 else 365
  }

  /** Days in the years 1 .. y - 1. */
  function DaysBeforeYear(y: int): nat
    requires y >= 1
  {
    if y == 1 then 0 else DaysBeforeYear(y - 1) + YearLength(y - 1)
  }

  /** Days in the months 1 .. m - 1 of year y. */
  function DaysBeforeMonth(y: int, m: int): nat
    requires 1 <= m <= 13
  {
    if m == 1 then 0 else DaysBeforeMonth(y, m - 1) + DaysInMonth(y, m - 1)
  }

  /** The day number of a date, 0001-01-01 being day 1 (Python's `toordinal`). */
  function Ordinal(d: Date): int
    requires ValidDate(d)
  {
    DaysBeforeYear(d.year) + DaysBeforeMonth(d.year, d.month) + d.day
  }

  lemma MonthsMakeTheYear(y: int)
    ensures DaysBeforeMonth(y, 13) == YearLength(y)
  {
    assert DaysBeforeMonth(y, 2) == 31;
    assert DaysBeforeMonth(y, 3) == 31 + DaysInMonth(y, 2);
    assert DaysBeforeMonth(y, 4) == DaysBeforeMonth(y, 3) + 31;
    assert DaysBeforeMonth(y, 5) == DaysBeforeMonth(y, 3) + 61;
    assert DaysBeforeMonth(y, 6) == DaysBeforeMonth(y, 3) + 92;
    assert DaysBeforeMonth(y, 7) == DaysBeforeMonth(y, 3) + 122;
    assert DaysBeforeMonth(y, 8) == DaysBeforeMonth(y, 3) + 153;
    assert DaysBeforeMonth(y, 9) == DaysBeforeMonth(y, 3) + 184;
    assert DaysBeforeMonth(y, 10) == DaysBeforeMonth(y, 3) + 214;
    assert DaysBeforeMonth(y, 11) == DaysBeforeMonth(y, 3) + 245;
    assert DaysBeforeMonth(y, 12) == DaysBeforeMonth(y, 3) + 275;
    assert DaysBeforeMonth(y, 13) == DaysBeforeMonth(y, 3) + 306;
  }

  /** The last day of the previous month. */
  function PreviousMonthEnd(d: Date): (r: Date)
    requires ValidDate(d) && (d.month > 1 || d.year > 1)
    ensures ValidDate(r)
  {
    if d.month > 1 then Date(d.year, d.month - 1, DaysInMonth(d.year, d.month - 1))
    else Date(d.year - 1, 12, 31)
  }

  lemma PreviousMonthEndOrdinal(d: Date)
    requires ValidDate(d) && (d.month > 1 || d.year > 1)
    ensures Ordinal(PreviousMonthEnd(d)) == Ordinal(d) - d.day
  {
    if d.month > 1 {
      assert DaysBeforeMonth(d.year, d.month)
        == DaysBeforeMonth(d.year, d.month - 1) + DaysInMonth(d.year, d.month - 1);
    } else {
      MonthsMakeTheYear(d.year - 1);
      assert DaysBeforeYear(d.year) == DaysBeforeYear(d.year - 1) + YearLength(d.year - 1);
      assert DaysBeforeMonth(d.year - 1, 13) == DaysBeforeMonth(d.year - 1, 12) + 31;
    }
  }

  /**
    Stepping back `n` days lowers the day number by exactly `n`, and fails
    exactly when that would reach day 0 or below.
   */
  lemma {:induction false} DaysBeforeOrdinal(d: Date, n: nat)
    requires ValidDate(d)
    ensures DaysBefore(d, n).Some? <==> n < Ordinal(d)
    ensures DaysBefore(d, n).Some? ==> Ordinal(DaysBefore(d, n).value) == Ordinal(d) - n
    decreases n
  {
    if n >= d.day {
      if d.month > 1 || d.year > 1 {
        PreviousMonthEndOrdinal(d);
        assert DaysBefore(d, n) == DaysBefore(PreviousMonthEnd(d), n - d.day);
        DaysBeforeOrdinal(PreviousMonthEnd(d), n - d.day);
      } else {
        assert DaysBeforeYear(1) == 0 && DaysBeforeMonth(1, 1) == 0;
      }
    }
  }

  /** `date.strftime("%Y-%m")`: the year zero-padded to four digits, the month to two. */
  function MonthLabel(d: Date): string
    requires ValidDate(d)
  {
    ZeroPad(d.year, 4) + "-" + ZeroPad(d.month, 2)
  }

  /** What `OverflowError` from the date arithmetic stands for. */
  datatype DateError = OverflowError

  /** Python's loop raises at the first `i` whose date would precede year 1. */
  predicate InRange(today: Date)
    requires ValidDate(today)
  {
    330 < Ordinal(today)
  }

  /** The date of iteration `i`: `today - timedelta(days=30 * i)`. */
  function SampleDate(today: Date, i: nat): (d: Date)
    requires ValidDate(today) && InRange(today) && i < 12
    ensures ValidDate(d) && Ordinal(d) == Ordinal(today) - 30 * i
  {
    DaysBeforeOrdinal(today, 30 * i);
    DaysBefore(today, 30 * i).value
  }

  /** The labels the loop appends, in loop order: i = 0, 1, ..., 11. */
  function Samples(today: Date): (r: seq<string>)
    requires ValidDate(today) && InRange(today)
    ensures |r| == 12
  {
    seq(12, i requires 0 <= i < 12 => MonthLabel(SampleDate(today, i)))
  }

  /** What the loop has appended after `i` iterations. */
  predicate Appended(today: Date, months: seq<string>, i: nat)
    requires ValidDate(today)
  {
    |months| == i && forall k :: 0 <= k < i ==> LabelAfter(today, 30 * k) == Some(months[k])
  }

  /** The label of `today - timedelta(days=n)`, or None where that raises. */
  function LabelAfter(today: Date, n: nat): Option<string>
    requires ValidDate(today)
  {
    var d := DaysBefore(today, n);
    if d.Some? then Some(MonthLabel(d.value)) else None
  }

  lemma AppendedAll(today: Date, months: seq<string>)
    requires ValidDate(today) && Appended(today, months, 12)
    ensures InRange(today) && months == Samples(today)
  {
    assert LabelAfter(today, 30 * 11) == Some(months[11]);
    DaysBeforeOrdinal(today, 330);
    forall k | 0 <= k < 12
      ensures months[k] == Samples(today)[k]
    {
      assert LabelAfter(today, 30 * k) == Some(months[k]);
    }
  }

  /** One more iteration appends the label of `today - 30·i` days. */
  lemma AppendedStep(today: Date, months: seq<string>, i: nat, appended: string)
    requires ValidDate(today) && Appended(today, months, i) && LabelAfter(today, 30 * i) == Some(appended)
    ensures Appended(today, months + [appended], i + 1)
  {
    var grown := months + [appended];
    forall k | 0 <= k < i + 1
      ensures LabelAfter(today, 30 * k) == Some(grown[k])
    {
      if k < i {
        assert grown[k] == months[k];
      }
    }
  }

  /** An iteration that raises shows that some sample precedes year 1. */
  lemma OverflowOutOfRange(today: Date, i: nat)
    requires ValidDate(today) && i < 12 && DaysBefore(today, 30 * i).None?
    ensures !InRange(today)
  {
    DaysBeforeOrdinal(today, 30 * i);
  }

  /** `get_last_12_months()` with the clock reading passed in as `today`. */
  method GetLast12Months(today: Date) returns (r: Result<seq<string>, DateError>)
    requires ValidDate(today)
    ensures r.Success? <==> InRange(today)
    ensures r.Success? ==> r.value == SortedSet(Samples(today))
  {
    var months: seq<string> := [];
    for i := 0 to 12
      invariant Appended(today, months, i)
    {
      var date := DaysBefore(today, 30 * i);
      if date.None? {
        OverflowOutOfRange(today, i);
        return Failure(OverflowError);
      }
      AppendedStep(today, months, i, MonthLabel(date.value));
      months := months + [MonthLabel(date.value)];
    }
    AppendedAll(today, months);
    return Success(SortedSet(months));
  }

  /** Two dates with the same label lie in the same month. */
  lemma MonthLabelInjective(a: Date, b: Date)
    requires ValidDate(a) && ValidDate(b) && MonthLabel(a) == MonthLabel(b)
    ensures a.year == b.year && a.month == b.month
  {
    MonthLabelParts(a);
    MonthLabelParts(b);
  }

  /** A four-digit and a two-digit zero-padded field joined by '-', and the values they read back as. */
  lemma PaddedFields(a: nat, b: nat)
    requires a < 10000 && b < 100
    ensures var s := ZeroPad(a, 4) + "-" + ZeroPad(b, 2);
      |s| == 7 && AllDigits(s[..4]) && s[4] == '-' && AllDigits(s[5..])
      && Value(s[..4]) == a && Value(s[5..]) == b
  {
    assert Pow10(2) == 100;
    assert Pow10(4) == 10000;
    ZeroPadFixed(a, 4);
    ZeroPadFixed(b, 2);
    SplitJoined(ZeroPad(a, 4), '-', ZeroPad(b, 2));
  }

  lemma MonthLabelParts(d: Date)
    requires ValidDate(d)
    ensures var s := MonthLabel(d);
      |s| == 7 && AllDigits(s[..4]) && s[4] == '-' && AllDigits(s[5..])
      && Value(s[..4]) == d.year && Value(s[5..]) == d.month
  {
    PaddedFields(d.year, d.month);
  }

  /**
    The result holds at most 12 labels, strictly increasing (so none twice),
    always including today's month, and exactly the months of the sampled dates.
   */
  lemma ResultShape(today: Date)
    requires ValidDate(today) && InRange(today)
    ensures var r := SortedSet(Samples(today));
      && |r| <= 12
      && StrictlySorted(r)
      && (forall i, j :: 0 <= i < j < |r| ==> r[i] != r[j])
      && MonthLabel(today) in r
      && (forall x :: x in r <==> exists i :: 0 <= i < 12 && x == MonthLabel(SampleDate(today, i)))
  {
    var r, samples := SortedSet(Samples(today)), Samples(today);
    SortedIsDistinct(r);
    assert SampleDate(today, 0) == today;
    assert samples[0] in Elements(samples);
    forall x
      ensures x in r <==> exists i :: 0 <= i < 12 && x == MonthLabel(SampleDate(today, i))
    {
      assert x in r <==> x in Elements(samples);
      if x in Elements(samples) {
        var i :| 0 <= i < 12 && samples[i] == x;
      }
      if exists i :: 0 <= i < 12 && x == MonthLabel(SampleDate(today, i)) {
        var i :| 0 <= i < 12 && x == MonthLabel(SampleDate(today, i));
        assert samples[i] == x;
      }
    }
  }

  /**
    On the 31st, today and today - 30 days fall in the same month, so the result
    has at most 11 labels: the months are not always twelve.
   */
  lemma ThirtyFirstRepeatsMonth(today: Date)
    requires ValidDate(today) && InRange(today) && today.day == 31
    ensures |SortedSet(Samples(today))| <= 11
  {
    FirstTwoSamplesAgree(today);
    RepeatShrinks(Samples(today));
  }

  /** On the 31st, the first two samples fall in the same month. */
  lemma FirstTwoSamplesAgree(today: Date)
    requires ValidDate(today) && InRange(today) && today.day == 31
    ensures Samples(today)[0] == Samples(today)[1]
  {
    assert SampleDate(today, 0) == today;
    assert SampleDate(today, 1) == Date(today.year, today.month, 1);
  }

  /** Any date after the first year is far enough from 0001-01-01 for the loop. */
  lemma InRangeAfterYearOne(d: Date)
    requires ValidDate(d) && d.year >= 2
    ensures InRange(d)
  {
    assert DaysBeforeYear(d.year) == DaysBeforeYear(d.year - 1) + YearLength(d.year - 1);
  }

  /** The first three samples from March 31 of year y. */
  lemma SamplesFromMarch31(y: int)
    requires 2 <= y <= 9999
    ensures var today := Date(y, 3, 31);
      ValidDate(today) && InRange(today)
      && SampleDate(today, 1) == Date(y, 3, 1)
      && SampleDate(today, 2).year == y && SampleDate(today, 2).month == 1
      && Ordinal(today) == Ordinal(Date(y, 2, 1)) + DaysInMonth(y, 2) + 30
  {
    var today := Date(y, 3, 31);
    InRangeAfterYearOne(today);
    assert DaysBeforeMonth(y, 3) == DaysBeforeMonth(y, 2) + DaysInMonth(y, 2);
    var feb := Date(y, 2, DaysInMonth(y, 2));
    assert DaysBefore(today, 60) == DaysBefore(feb, 29);
    assert DaysBefore(feb, 29) == DaysBefore(Date(y, 1, 31), 29 - DaysInMonth(y, 2));
  }

  /**
    From March 31 the samples step from March 1 straight to a day in January,
    so January and March are listed and February is skipped: the result is not
    a run of consecutive months.
   */
  lemma FebruarySkipped(y: int)
    requires 2 <= y <= 9999
    ensures var today := Date(y, 3, 31);
      ValidDate(today) && InRange(today)
      && MonthLabel(Date(y, 1, 1)) in SortedSet(Samples(today))
      && MonthLabel(today) in SortedSet(Samples(today))
      && MonthLabel(Date(y, 2, 1)) !in SortedSet(Samples(today))
  {
    var today := Date(y, 3, 31);
    var feb := Date(y, 2, 1);
    SamplesFromMarch31(y);
    var samples := Samples(today);
    assert samples[2] == MonthLabel(Date(y, 1, 1));
    assert samples[2] in Elements(samples);
    assert SampleDate(today, 0) == today;
    assert samples[0] in Elements(samples);
    FebruaryLabelAbsent(y);
  }

  /** No label sampled from March 31 is February's. */
  lemma FebruaryLabelAbsent(y: int)
    requires 2 <= y <= 9999
    ensures var today := Date(y, 3, 31);
      ValidDate(today) && InRange(today)
      && MonthLabel(Date(y, 2, 1)) !in Elements(Samples(today))
  {
    var today := Date(y, 3, 31);
    var feb := Date(y, 2, 1);
    SamplesFromMarch31(y);
    forall i | 0 <= i < 12
      ensures Samples(today)[i] != MonthLabel(feb)
    {
      FebruaryNotSampled(y, i);
      if MonthLabel(SampleDate(today, i)) == MonthLabel(feb) {
        MonthLabelInjective(SampleDate(today, i), feb);
        assert false;
      }
    }
  }

  /** No sample taken from March 31 falls in February of the same year. */
  lemma FebruaryNotSampled(y: int, i: nat)
    requires 2 <= y <= 9999 && i < 12
    ensures var today := Date(y, 3, 31);
      ValidDate(today) && InRange(today)
      && !(SampleDate(today, i).year == y && SampleDate(today, i).month == 2)
  {
    var today := Date(y, 3, 31);
    SamplesFromMarch31(y);
    var d := SampleDate(today, i);
    if d.year == y && d.month == 2 {
      FebruaryOrdinals(d);
      assert false;
    }
  }

  /** The days of February of a year occupy the ordinals from its first day on. */
  lemma FebruaryOrdinals(d: Date)
    requires ValidDate(d) && d.month == 2
    ensures Ordinal(Date(d.year, 2, 1)) <= Ordinal(d) < Ordinal(Date(d.year, 2, 1)) + DaysInMonth(d.year, 2)
    ensures DaysInMonth(d.year, 2) <= 29
  {
  }
}
