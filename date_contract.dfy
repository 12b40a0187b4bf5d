/**
  Agreement between the month strings the system produces and the backend's
  date check `validate_date_format`.
 */
module DateContract {
  import opened Decimal
  import MonthOptions
  import DateValidator
  import LastMonths

  /** Every option with a four-digit year has the shape the validator accepts. */
  lemma OptionsPassValidation(ym: MonthOptions.YearMonth)
    requires MonthOptions.ValidMonth(ym) && 1000 <= ym.year <= 9999
    ensures DateValidator.ValidateDateFormat(MonthOptions.Label(ym)).Success?
  {
    var s := MonthOptions.Label(ym);
    MonthOptions.LabelShape(ym);
    DateValidator.AcceptsExactly(s);
    assert IsDigit(s[5..][0]) && IsDigit(s[5..][1]);
  }

  /** Every label `get_last_12_months` produces has the shape the validator accepts. */
  lemma MonthLabelsPassValidation(d: LastMonths.Date)
    requires LastMonths.ValidDate(d)
    ensures DateValidator.ValidateDateFormat(LastMonths.MonthLabel(d)).Success?
  {
    var s := LastMonths.MonthLabel(d);
    LastMonths.MonthLabelParts(d);
    DateValidator.AcceptsExactly(s);
    assert IsDigit(s[5..][0]) && IsDigit(s[5..][1]);
  }
}
