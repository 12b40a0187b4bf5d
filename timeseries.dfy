/**
  The `/timeseries` route (`get_timeseries`): for each month label from
  `get_last_12_months`, sample land-surface temperature and NDVI at the point
  over the window `{month}-01` .. `{month}-28`, and record both values, or
  None for both when either `getInfo()` raises. Earth Engine is an oracle.
 */
module Timeseries {
  import opened Wrappers
  import opened StringOrder
  import LastMonths

  /** The two Earth Engine bands sampled each month. */
  datatype Band = LstDay1km | Ndvi

  /** `ee.Geometry.Point([lng, lat])`. */
  datatype Point = Point(lng: real, lat: real)

  /** What `sample.getInfo()` does: returns a value (None for a null) or raises. */
  datatype Info = Returned(value: Option<real>) | Raised

  /** Earth Engine: the result of sampling a band at a point over a date window. */
  type Sampler = (Band, Point, string, string) -> Info

  /** One `{"month": month, "value": value}` record. */
  datatype Entry = Entry(month: string, value: Option<real>)

  /** The response body `{"lst": [...], "ndvi": [...]}`. */
  datatype Series = Series(lst: seq<Entry>, ndvi: seq<Entry>)

  function WindowStart(month: string): string {
    month + "-01"
  }

  function WindowEnd(month: string): string {
    month + "-28"
  }

  /** The pair of values the `try`/`except` records for one month. */
  function MonthValues(lst: Info, ndvi: Info): (r: (Option<real>, Option<real>))
    ensures lst.Raised? || ndvi.Raised? ==> r == (None, None)
    ensures lst.Returned? && ndvi.Returned? ==> r == (lst.value, ndvi.value)
  {
    if lst.Raised? || ndvi.Raised? then (None, None) else (lst.value, ndvi.value)
  }

  /** The values one month's samples yield. */
  function Sampled(sample: Sampler, point: Point, month: string): (Option<real>, Option<real>) {
    MonthValues(sample(LstDay1km, point, WindowStart(month), WindowEnd(month)),
                sample(Ndvi, point, WindowStart(month), WindowEnd(month)))
  }

  /**
    `series` holds, in order, one LST and one NDVI entry per month of `months`,
    with the values that month's samples yield.
   */
  predicate Recorded(series: Series, months: seq<string>, sample: Sampler, point: Point) {
    && |series.lst| == |months| && |series.ndvi| == |months|
    && forall i :: 0 <= i < |months| ==>
      && series.lst[i].month == months[i] && series.ndvi[i].month == months[i]
      && (series.lst[i].value, series.ndvi[i].value) == Sampled(sample, point, months[i])
  }

  /** Recording one more month extends the series by that month's entries. */
  lemma RecordedStep(series: Series, months: seq<string>, sample: Sampler, point: Point,
                     month: string, lst: Option<real>, ndvi: Option<real>)
    requires Recorded(series, months, sample, point)
    requires (lst, ndvi) == Sampled(sample, point, month)
    ensures Recorded(Series(series.lst + [Entry(month, lst)], series.ndvi + [Entry(month, ndvi)]),
                     months + [month], sample, point)
  {
  }

  /**
    The loop of `get_timeseries`: sample both bands for each month in turn,
    catching any exception from `getInfo()` so that later months still run.
   */
  method SampleMonths(months: seq<string>, sample: Sampler, point: Point) returns (series: Series)
    ensures Recorded(series, months, sample, point)
  {
    series := Series([], []);
    for i := 0 to |months|
      invariant Recorded(series, months[..i], sample, point)
    {
      var month := months[i];
      var start, end := WindowStart(month), WindowEnd(month);
      var lstSample := sample(LstDay1km, point, start, end);
      var ndviSample := sample(Ndvi, point, start, end);
      var lstVal: Option<real>, ndviVal: Option<real>;
      if lstSample.Raised? || ndviSample.Raised? {
        lstVal, ndviVal := None, None;
      } else {
        lstVal, ndviVal := lstSample.value, ndviSample.value;
      }
      RecordedStep(series, months[..i], sample, point, month, lstVal, ndviVal);
      assert months[..i + 1] == months[..i] + [month];
      series := Series(series.lst + [Entry(month, lstVal)], series.ndvi + [Entry(month, ndviVal)]);
    }
    assert months[..|months|] == months;
  }

  /**
    `get_timeseries(lat, lng)` with the clock reading `today` and Earth Engine
    `sample` passed in. It fails only where `get_last_12_months` does; a month
    whose sampling raises is recorded as None and the loop goes on.
   */
  method GetTimeseries(lat: real, lng: real, today: LastMonths.Date, sample: Sampler)
    returns (r: Result<Series, LastMonths.DateError>)
    requires LastMonths.ValidDate(today)
    ensures r.Failure? <==> !LastMonths.InRange(today)
    ensures r.Success? ==>
      Recorded(r.value, SortedSet(LastMonths.Samples(today)), sample, Point(lng, lat))
  {
    var got := LastMonths.GetLast12Months(today);
    if got.Failure? {
      return Failure(got.error);
    }
    var series := SampleMonths(got.value, sample, Point(lng, lat));
    return Success(series);
  }
}
