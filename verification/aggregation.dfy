/**
 * The aggregation transform of the weather app: hourly relative humidity is
 * cut into consecutive 24-hour chunks, each chunk is reduced to one daily
 * value, and the daily values are paired by position with the forecast's
 * dates and temperature extremes.
 *
 * Humidity and temperatures are exact reals. Python rounds each daily value
 * with round(..., 2) on floats; that rounding is a parameter `round` here,
 * so nothing below depends on how it behaves.
 */
module Aggregation {

  /** Hourly samples per day, and also the fixed divisor of every daily value. */
  const HoursPerDay: nat := 24

  function Min(a: int, b: int): (m: int)
    ensures m <= a && m <= b
    ensures m == a || m == b
  {
    if a <= b then a else b
  }

  /** Python's sum() over a list of numbers. */
  function Sum(s: seq<real>): real
  {
    if |s| == 0 then 0.0 else s[0] + Sum(s[1..])
  }

  /** Arithmetic mean of a non-empty sequence. */
  function Mean(s: seq<real>): real
    requires |s| > 0
  {
    Sum(s) / (|s| as real)
  }

  /**
   * How many values range(0, n, 24) visits, that is, how many daily values an
   * hourly series of length n yields: the ceiling of n / 24.
   */
  function DayCount(n: nat): (days: nat)
    ensures HoursPerDay * days >= n
    ensures HoursPerDay * days < n + HoursPerDay
  {
    (n + HoursPerDay - 1) / HoursPerDay
  }

  /**
   * The slice hourly[24*d : 24*d + 24] of day d. Python slicing stops at the
   * end of the list, so the last day may hold fewer than 24 samples.
   */
  function DayChunk(hourly: seq<real>, d: nat): (chunk: seq<real>)
    requires d < DayCount(|hourly|)
    ensures 0 < |chunk| <= HoursPerDay
    ensures |chunk| == HoursPerDay <==> HoursPerDay * (d + 1) <= |hourly|
    ensures HoursPerDay * d + |chunk| == Min(HoursPerDay * (d + 1), |hourly|)
    ensures forall j :: 0 <= j < |chunk| ==> chunk[j] == hourly[HoursPerDay * d + j]
  {
    hourly[HoursPerDay * d .. Min(HoursPerDay * d + HoursPerDay, |hourly|)]
  }

  /** The daily value Python computes for one chunk: its sum divided by 24, rounded. */
  function DailyValue(chunk: seq<real>, round: real -> real): real
  {
    round(Sum(chunk) / (HoursPerDay as real))
  }

  /**
   * calculate_daily_humidity, chunk by chunk: one daily value for the first
   * (up to) 24 samples, then the same for the rest of the series.
   */
  function DailyHumidity(hourly: seq<real>, round: real -> real): (daily: seq<real>)
    ensures |daily| == DayCount(|hourly|)
    ensures forall d :: 0 <= d < |daily| ==> daily[d] == DailyValue(DayChunk(hourly, d), round)
    decreases |hourly|
  {
    if |hourly| == 0 then []
    else
      var k := Min(HoursPerDay, |hourly|);
      var rest := hourly[k..];
      var tail := DailyHumidity(rest, round);
      assert forall d :: 1 <= d < 1 + |tail| ==> DayChunk(rest, d - 1) == DayChunk(hourly, d);
      [DailyValue(hourly[..k], round)] + tail
  }

  /**
   * calculate_daily_humidity as the Python loop writes it: i runs over
   * 0, 24, 48, ... below the series length, and each step appends the value
   * of the slice starting at i.
   */
  method CalculateDailyHumidity(hourly: seq<real>, round: real -> real) returns (daily: seq<real>)
    ensures daily == DailyHumidity(hourly, round)
  {
    daily := [];
    var i := 0;
    while i < |hourly|
      invariant i == HoursPerDay * |daily|
      invariant |daily| <= DayCount(|hourly|)
      invariant forall d :: 0 <= d < |daily| ==> daily[d] == DailyValue(DayChunk(hourly, d), round)
    {
      var dailyValues := hourly[i .. Min(i + HoursPerDay, |hourly|)];
      daily := daily + [DailyValue(dailyValues, round)];
      i := i + HoursPerDay;
    }
    var spec := DailyHumidity(hourly, round);
    assert |daily| == |spec|;
  }

  /**
   * For a series of whole days, there is one value per day and each is the
   * rounded mean of exactly 24 samples.
   */
  lemma WholeDays(hourly: seq<real>, round: real -> real, days: nat)
    requires |hourly| == HoursPerDay * days
    ensures |DailyHumidity(hourly, round)| == days
    ensures forall d :: 0 <= d < days ==>
              |DayChunk(hourly, d)| == HoursPerDay
              && DailyHumidity(hourly, round)[d] == round(Mean(DayChunk(hourly, d)))
  {
  }

  /** The sum of n copies of c is n * c. */
  lemma {:induction false} SumConstant(s: seq<real>, c: real)
    requires forall j :: 0 <= j < |s| ==> s[j] == c
    ensures Sum(s) == c * (|s| as real)
  {
    if |s| > 0 {
      SumConstant(s[1..], c);
    }
  }

  /** c spread over `hours` of the 24 hours of a day: c * hours / 24. */
  function Share(c: real, hours: nat): real
  {
    c * (hours as real) / (HoursPerDay as real)
  }

  /** A chunk of m samples that all equal c has daily value round(c * m / 24). */
  lemma ConstantChunk(chunk: seq<real>, round: real -> real, c: real)
    requires forall j :: 0 <= j < |chunk| ==> chunk[j] == c
    ensures DailyValue(chunk, round) == round(Share(c, |chunk|))
  {
    SumConstant(chunk, c);
  }

  /**
   * On a constant series every day's value is c scaled by the share of 24
   * hours its chunk covers: a full day gives round(c), while a short last day
   * of m < 24 samples gives round(c * m / 24) rather than round(c).
   */
  lemma ConstantSeries(hourly: seq<real>, round: real -> real, c: real)
    requires forall j :: 0 <= j < |hourly| ==> hourly[j] == c
    ensures forall d :: 0 <= d < DayCount(|hourly|) ==>
              DailyHumidity(hourly, round)[d] == round(Share(c, |DayChunk(hourly, d)|))
  {
    forall d | 0 <= d < DayCount(|hourly|)
      ensures DailyHumidity(hourly, round)[d] == round(Share(c, |DayChunk(hourly, d)|))
    {
      ConstantChunk(DayChunk(hourly, d), round, c);
    }
  }

  /**
   * When the series length is not a multiple of 24, the last chunk holds
   * n % 24 samples but is still divided by 24, so a constant series of value
   * c reports round(c * (n % 24) / 24) for its last day instead of round(c).
   */
  lemma PartialDayUnderweighted(hourly: seq<real>, round: real -> real, c: real)
    requires |hourly| % HoursPerDay != 0
    requires forall j :: 0 <= j < |hourly| ==> hourly[j] == c
    ensures var daily := DailyHumidity(hourly, round);
            |daily| > 0 && daily[|daily| - 1] == round(Share(c, |hourly| % HoursPerDay))
  {
    var n := |hourly|;
    var q := n / HoursPerDay;
    assert n == HoursPerDay * q + n % HoursPerDay;
    assert DayCount(n) == q + 1;
    var chunk := DayChunk(hourly, q);
    assert |chunk| == n % HoursPerDay;
    assert forall j :: 0 <= j < |chunk| ==> chunk[j] == c;
    ConstantChunk(chunk, round, c);
  }

  /** One processed day of the forecast, as stored and displayed. */
  datatype DayRecord = DayRecord(date: string, minTemp: real, maxTemp: real, humidity: real)

  /** The parts of the forecast reply that process_weather_data reads. */
  datatype WeatherResponse = WeatherResponse(
    dailyTime: seq<string>,
    dailyMin: seq<real>,
    dailyMax: seq<real>,
    hourlyHumidity: seq<real>)

  /** Python's zip over four lists, building one record per position. */
  function ZipRecords(dates: seq<string>, mins: seq<real>, maxs: seq<real>, hums: seq<real>)
    : (records: seq<DayRecord>)
    ensures |records| == Min(Min(|dates|, |mins|), Min(|maxs|, |hums|))
    ensures forall i :: 0 <= i < |records| ==>
              records[i] == DayRecord(dates[i], mins[i], maxs[i], hums[i])
  {
    if |dates| == 0 || |mins| == 0 || |maxs| == 0 || |hums| == 0 then []
    else [DayRecord(dates[0], mins[0], maxs[0], hums[0])]
         + ZipRecords(dates[1..], mins[1..], maxs[1..], hums[1..])
  }

  /**
   * process_weather_data: daily humidity from the hourly series, zipped with
   * the daily dates, minima and maxima; zip stops at the shortest input.
   */
  function ProcessWeatherData(resp: WeatherResponse, round: real -> real): (records: seq<DayRecord>)
    ensures |records| == Min(Min(|resp.dailyTime|, |resp.dailyMin|),
                             Min(|resp.dailyMax|, DayCount(|resp.hourlyHumidity|)))
    ensures forall i :: 0 <= i < |records| ==>
              && records[i].date == resp.dailyTime[i]
              && records[i].minTemp == resp.dailyMin[i]
              && records[i].maxTemp == resp.dailyMax[i]
              && records[i].humidity == DailyValue(DayChunk(resp.hourlyHumidity, i), round)
  {
    var humidityList := DailyHumidity(resp.hourlyHumidity, round);
    ZipRecords(resp.dailyTime, resp.dailyMin, resp.dailyMax, humidityList)
  }

  /**
   * A well-formed forecast of n days (n dates, minima, maxima and 24 * n
   * hourly samples) yields exactly n records, day i holding the rounded mean
   * of its 24 samples.
   */
  lemma WellFormedForecast(resp: WeatherResponse, round: real -> real, days: nat)
    requires |resp.dailyTime| == days && |resp.dailyMin| == days && |resp.dailyMax| == days
    requires |resp.hourlyHumidity| == HoursPerDay * days
    ensures |ProcessWeatherData(resp, round)| == days
    ensures forall i :: 0 <= i < days ==>
              ProcessWeatherData(resp, round)[i].humidity
              == round(Mean(DayChunk(resp.hourlyHumidity, i)))
  {
    WholeDays(resp.hourlyHumidity, round, days);
  }
}
