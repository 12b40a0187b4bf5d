/**
  The month picker's option list (`generateMonthOptions`): every month from a
  start month to an end month, inclusive, rendered as `${year}-${MM}`.

  The code parses `start + "-01"` with `new Date`, compares the two dates,
  and steps the start forward with `setMonth(getMonth() + 1)`. Here a date is
  the pair (year, month) it denotes; time zones are not modelled.
 */
module MonthOptions {
  import opened Wrappers
  import opened Decimal

  /** A calendar month; `month` is 1-based, as `getMonth() + 1` yields it. */
  datatype YearMonth = YearMonth(year: nat, month: nat)

  predicate ValidMonth(ym: YearMonth) {
    1 <= ym.month <= 12
  }

  /** Months elapsed since January of year 0: the order `<=` on dates follows it. */
  function Index(ym: YearMonth): int {
    12 * ym.year + ym.month - 1
  }

  function FromIndex(k: nat): (ym: YearMonth)
    ensures ValidMonth(ym) && Index(ym) == k
  {
    YearMonth(k / 12, k % 12 + 1)
  }

  lemma FromIndexOfIndex(ym: YearMonth)
    requires ValidMonth(ym)
    ensures Index(ym) >= 0 && FromIndex(Index(ym)) == ym
  {
    var k := Index(ym);
    assert k == 12 * ym.year + (ym.month - 1);
    assert k / 12 == ym.year && k % 12 == ym.month - 1;
  }

  /** `setMonth(getMonth() + 1)` on the first day of a month: December rolls over. */
  function NextMonth(ym: YearMonth): (r: YearMonth)
    requires ValidMonth(ym)
    ensures ValidMonth(r) && Index(r) == Index(ym) + 1
  {
    if ym.month == 12 then YearMonth(ym.year + 1, 1) else YearMonth(ym.year, ym.month + 1)
  }

  /**
    The month that `new Date(arg + "-01")` denotes, or None for an Invalid Date.
    ISO date-only strings are modelled: `arg` of the form YYYY-MM (month 01..12)
    gives that month, and `arg` of the form YYYY gives January of that year
    (`"YYYY-01"` is itself an ISO date).
   */
  function StartOfMonth(arg: string): (r: Option<YearMonth>)
    ensures r.Some? ==> ValidMonth(r.value) && r.value.year <= 9999
  {
    if |arg| == 7 && AllDigits(arg[..4]) && arg[4] == '-' && AllDigits(arg[5..])
       && 1 <= Value(arg[5..]) <= 12
    then
      NatToStringLength(Value(arg[..4]), 4);
      ValueBound(arg[..4]);
      Some(YearMonth(Value(arg[..4]), Value(arg[5..])))
    else if |arg| == 4 && AllDigits(arg) then
      ValueBound(arg);
      Some(YearMonth(Value(arg), 1))
    else
      None
  }

  lemma {:induction false} ValueBound(s: string)
    requires AllDigits(s)
    ensures Value(s) < Pow10(|s|)
    decreases |s|
  {
    if s != [] {
      ValueBound(s[..|s| - 1]);
    }
  }

  /** The label pushed for a month: `${year}-${String(month).padStart(2, "0")}`. */
  function Label(ym: YearMonth): string {
    NatToString(ym.year) + "-" + ZeroPad(ym.month, 2)
  }

  /** Reads a label back: the digits before the last '-' and the two after it. */
  function Unlabel(s: string): Option<YearMonth> {
    if |s| >= 4 && s[|s| - 3] == '-' && AllDigits(s[..|s| - 3]) && AllDigits(s[|s| - 2..])
    then Some(YearMonth(Value(s[..|s| - 3]), Value(s[|s| - 2..])))
    else None
  }

  /** Reading back a year part and a two-digit month part joined by '-'. */
  lemma UnlabelJoin(y: string, m: string)
    requires |y| >= 1 && AllDigits(y) && |m| == 2 && AllDigits(m)
    ensures Unlabel(y + "-" + m) == Some(YearMonth(Value(y), Value(m)))
  {
    var s := y + "-" + m;
    var n := |s|;
    assert n == |y| + 3;
    assert s[..n - 3] == y by {
      forall i | 0 <= i < |y| ensures s[i] == y[i] { }
    }
    assert s[n - 2..] == m by {
      assert s[n - 2] == m[0] && s[n - 1] == m[1];
    }
    assert s[n - 3] == '-';
  }

  /** Labels of valid months have a two-digit month part and read back to the same month. */
  lemma LabelRoundTrip(ym: YearMonth)
    requires ValidMonth(ym)
    ensures var s := Label(ym);
      |s| >= 4 && s[|s| - 3] == '-' && s[|s| - 2..] == ZeroPad(ym.month, 2)
      && Unlabel(s) == Some(ym)
  {
    var y, m := NatToString(ym.year), ZeroPad(ym.month, 2);
    NatToStringLength(ym.month, 2);
    assert |m| == 2;
    ValueOfNatToString(ym.year);
    ValueOfZeroPad(ym.month, 2);
    UnlabelJoin(y, m);
    var s := Label(ym);
    assert s == y + "-" + m;
    assert s[|s| - 2..] == m;
  }

  lemma LabelInjective(a: YearMonth, b: YearMonth)
    requires ValidMonth(a) && ValidMonth(b) && Label(a) == Label(b)
    ensures a == b
  {
    LabelRoundTrip(a);
    LabelRoundTrip(b);
  }

  /** For four-digit years a label has the YYYY-MM shape: four digits, '-', two digits. */
  lemma LabelShape(ym: YearMonth)
    requires ValidMonth(ym) && 1000 <= ym.year <= 9999
    ensures var s := Label(ym);
      |s| == 7 && s[..4] == NatToString(ym.year) && s[4] == '-' && s[5..] == ZeroPad(ym.month, 2)
      && AllDigits(s[..4]) && AllDigits(s[5..])
  {
    NatToStringLength(ym.year, 4);
    NatToStringLength(ym.year, 3);
    LabelRoundTrip(ym);
  }

  /** An option with a four-digit year, fed back as `start`, denotes the same month. */
  lemma OptionParsesBack(ym: YearMonth)
    requires ValidMonth(ym) && 1000 <= ym.year <= 9999
    ensures StartOfMonth(Label(ym)) == Some(ym)
  {
    LabelShape(ym);
    ValueOfNatToString(ym.year);
    ValueOfZeroPad(ym.month, 2);
  }

  /** The months from index `first` to index `last`, inclusive; empty when `first > last`. */
  function MonthSpan(first: nat, last: int): (r: seq<YearMonth>)
    ensures |r| == if first <= last then last - first + 1 else 0
    ensures forall i :: 0 <= i < |r| ==> r[i] == FromIndex(first + i)
  {
    seq(if first <= last then last - first + 1 else 0, i requires 0 <= i => FromIndex(first + i))
  }

  /** If the start is later than the end, there are no options. */
  lemma SpanEmptyWhenReversed(start: YearMonth, end: YearMonth)
    requires ValidMonth(start) && ValidMonth(end) && Index(start) > Index(end)
    ensures MonthSpan(Index(start), Index(end)) == []
  {
  }

  /**
    Otherwise the options run from the start month to the end month, and there
    are 12 * (endYear - startYear) + (endMonth - startMonth) + 1 of them.
   */
  lemma SpanEnds(start: YearMonth, end: YearMonth)
    requires ValidMonth(start) && ValidMonth(end) && Index(start) <= Index(end)
    ensures var r := MonthSpan(Index(start), Index(end));
      && |r| == 12 * (end.year - start.year) + (end.month - start.month) + 1
      && r[0] == start && r[|r| - 1] == end
  {
    FromIndexOfIndex(start);
    FromIndexOfIndex(end);
  }

  /** Each option is the month after the previous one (December is followed by January). */
  lemma SpanSuccessor(first: nat, last: int, i: nat)
    requires i + 1 < |MonthSpan(first, last)|
    ensures MonthSpan(first, last)[i + 1] == NextMonth(MonthSpan(first, last)[i])
  {
    var r := MonthSpan(first, last);
    FromIndexOfIndex(NextMonth(r[i]));
  }

  /** The options are strictly increasing in time. */
  lemma SpanIncreasing(first: nat, last: int, i: nat, j: nat)
    requires i < j < |MonthSpan(first, last)|
    ensures Index(MonthSpan(first, last)[i]) < Index(MonthSpan(first, last)[j])
  {
  }

  /**
    The `while (startDate <= endDate)` loop of `generateMonthOptions`: push the
    label of the current month, then step to the next.
   */
  method EnumerateMonths(first: YearMonth, last: YearMonth) returns (options: seq<string>)
    requires ValidMonth(first) && ValidMonth(last)
    ensures var span := MonthSpan(Index(first), Index(last));
      |options| == |span| && forall i :: 0 <= i < |options| ==> options[i] == Label(span[i])
    ensures forall i, j :: 0 <= i < j < |options| ==> options[i] != options[j]
  {
    options := [];
    FromIndexOfIndex(first);
    var cur := first;
    ghost var span := MonthSpan(Index(first), Index(last));
    while Index(cur) <= Index(last)
      invariant ValidMonth(cur)
      invariant Index(cur) == Index(first) + |options|
      invariant |options| <= |span|
      invariant forall i :: 0 <= i < |options| ==> options[i] == Label(span[i])
      decreases Index(last) - Index(cur)
    {
      FromIndexOfIndex(cur);
      options := options + [Label(cur)];
      cur := NextMonth(cur);
    }
    forall i, j | 0 <= i < j < |options|
      ensures options[i] != options[j]
    {
      if options[i] == options[j] {
        LabelInjective(span[i], span[j]);
      }
    }
  }

  /**
    `generateMonthOptions(start, end)`. An argument that does not parse is an
    Invalid Date, every comparison with which is false, so the loop does not run.
   */
  method GenerateMonthOptions(start: string, end: string) returns (options: seq<string>)
    ensures StartOfMonth(start).None? || StartOfMonth(end).None? ==> options == []
    ensures StartOfMonth(start).Some? && StartOfMonth(end).Some? ==>
      var span := MonthSpan(Index(StartOfMonth(start).value), Index(StartOfMonth(end).value));
      |options| == |span| && forall i :: 0 <= i < |options| ==> options[i] == Label(span[i])
    ensures forall i, j :: 0 <= i < j < |options| ==> options[i] != options[j]
  {
    var startDate, endDate := StartOfMonth(start), StartOfMonth(end);
    if startDate.None? || endDate.None? {
      return [];
    }
    options := EnumerateMonths(startDate.value, endDate.value);
  }

  lemma ValueOfLiteral(s: string, n: nat)
    requires |s| == 4 && AllDigits(s)
    requires n == 1000 * DigitValue(s[0]) + 100 * DigitValue(s[1]) + 10 * DigitValue(s[2]) + DigitValue(s[3])
    ensures Value(s) == n
  {
    var s1, s2, s3 := s[..1], s[..2], s[..3];
    assert s3[..2] == s2 && s2[..1] == s1 && s1[..0] == [];
    assert Value(s1) == DigitValue(s[0]);
    assert Value(s2) == 10 * Value(s1) + DigitValue(s[1]);
    assert Value(s3) == 10 * Value(s2) + DigitValue(s[2]);
    assert Value(s) == 10 * Value(s3) + DigitValue(s[3]);
  }

  lemma ParseSelectorBounds()
    ensures StartOfMonth("2023-01") == Some(YearMonth(2023, 1))
    ensures StartOfMonth("2025-08") == Some(YearMonth(2025, 8))
  {
    var a, b := "2023-01", "2025-08";
    assert a[..4] == "2023" && a[5..] == "01" && b[..4] == "2025" && b[5..] == "08";
    ValueOfLiteral("2023", 2023);
    ValueOfLiteral("2025", 2025);
    assert Value("01") == 1 by { assert "01"[..1] == "0"; }
    assert Value("08") == 8 by { assert "08"[..1] == "0"; }
  }

  lemma LabelSelectorBounds()
    ensures Label(YearMonth(2023, 1)) == "2023-01"
    ensures Label(YearMonth(2025, 8)) == "2025-08"
  {
    assert NatToString(202) == "202" by {
      assert NatToString(20) == "20" by { assert NatToString(2) == "2"; }
    }
    assert NatToString(2023) == "2023";
    assert NatToString(2025) == "2025";
    assert ZeroPad(1, 2) == "01";
    assert ZeroPad(8, 2) == "08";
  }

  /** The date selector's call `generateMonthOptions("2023-01", "2025-08")` offers 32 months. */
  method DateSelectorOptions() returns (options: seq<string>)
    ensures |options| == 32
    ensures options[0] == "2023-01" && options[31] == "2025-08"
  {
    ParseSelectorBounds();
    options := GenerateMonthOptions("2023-01", "2025-08");
    SpanEnds(YearMonth(2023, 1), YearMonth(2025, 8));
    LabelSelectorBounds();
  }
}
