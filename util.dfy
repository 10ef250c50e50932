/**
 * src/util.py: the calendar-month interval handed to the statement API and
 * the retrying GET used to fetch statements.
 *
 * Wall-clock time is taken at a fixed UTC offset (seconds east of UTC):
 * a local date-time D corresponds to the epoch second D - utcOffset.
 */
module Util {
  import opened Common

  const SecondsPerDay: int := 86400

  /** Python's datetime accepts years 1 to 9999 only. */
  const MinYear: int := 1
  const MaxYear: int := 9999

  /** Proleptic Gregorian day number (day 1 is 0001-01-01) of 1970-01-01. */
  const EpochOrdinal: int := 719163

  /** Gregorian leap year: divisible by 4, and not by 100 unless by 400. */
  predicate IsLeap(year: int)
  {
    year % 4 == 0 && (year % 100 != 0 || year % 400 == 0)
  }

  /** Last day of the month, the second value of `calendar.monthrange`. */
  function DaysInMonth(year: int, month: int): (d: int)
    requires 1 <= month <= 12
    ensures 28 <= d <= 31
    ensures d == 29 <==> month == 2 && IsLeap(year)
    ensures d == 28 <==> month == 2 && !IsLeap(year)
    ensures d == 30 <==> month in {4, 6, 9, 11}
  {
    if month == 2 then (if IsLeap(year) then 29 else 28)
    else if month == 4 || month == 6 || month == 9 || month == 11 then 30
    else 31
  }

  /** Days of the year that precede day 1 of `month`. */
  function DaysBeforeMonth(year: int, month: int): int
    requires 1 <= month <= 12
  {
    [0, 31, 59, 90, 120, 151, 181, 212, 243, 273, 304, 334][month - 1]
      + (if month > 2 && IsLeap(year) then 1 else 0)
  }

  /** Days from 0001-01-01 up to day 1 of `year`. */
  function DaysBeforeYear(year: int): int
    requires year >= 1
  {
    var y := year - 1;
    y * 365 + y / 4 - y / 100 + y / 400
  }

  /** Days from 1970-01-01 to the given calendar date. */
  function EpochDay(year: int, month: int, day: int): int
    requires year >= 1 && 1 <= month <= 12
  {
    DaysBeforeYear(year) + DaysBeforeMonth(year, month) + day - EpochOrdinal
  }

  /** `int(datetime(year, month, day, h, m, s).timestamp())` at a fixed offset. */
  function LocalTimestamp(year: int, month: int, day: int, h: int, m: int, s: int, utcOffset: int): int
    requires year >= 1 && 1 <= month <= 12
  {
    EpochDay(year, month, day) * SecondsPerDay + h * 3600 + m * 60 + s - utcOffset
  }

  /** The calendar day number (days since 1970-01-01, local) of a timestamp:
      `datetime.fromtimestamp(t)` reduced to its date. */
  function DayOf(time: int, utcOffset: int): int
  {
    (time + utcOffset) / SecondsPerDay
  }

  /** A local time `secs` seconds into local day `day` lies on that day. */
  lemma TimeOfDay(day: int, secs: int, utcOffset: int)
    requires 0 <= secs < SecondsPerDay
    ensures DayOf(day * SecondsPerDay + secs - utcOffset, utcOffset) == day
    ensures (day * SecondsPerDay + secs - utcOffset + utcOffset) % SecondsPerDay == secs
  {
    var local := day * SecondsPerDay + secs;
    assert local - utcOffset + utcOffset == local;
  }

  /** The ValueError raised by `get_month_epoch_bounds` or by `datetime`. */
  datatype BoundsError = MonthOutOfRange | YearOutOfRange

  /** `get_month_epoch_bounds`: first second of day 1 and last second
      (23:59:59) of the last day of the month, both inclusive. */
  function MonthEpochBounds(year: int, month: int, utcOffset: int): (r: Result<(int, int), BoundsError>)
    ensures r == Err(MonthOutOfRange) <==> !(1 <= month <= 12)
    ensures r == Err(YearOutOfRange) <==> 1 <= month <= 12 && !(MinYear <= year <= MaxYear)
    ensures r.Ok? ==> r.value.1 - r.value.0 == DaysInMonth(year, month) * SecondsPerDay - 1
    ensures r.Ok? ==> r.value.0 < r.value.1 < r.value.0 + 31 * SecondsPerDay
    ensures r.Ok? ==> (r.value.0 + utcOffset) % SecondsPerDay == 0
    ensures r.Ok? ==> (r.value.1 + utcOffset) % SecondsPerDay == SecondsPerDay - 1
    ensures r.Ok? ==> DayOf(r.value.0, utcOffset) == EpochDay(year, month, 1)
    ensures r.Ok? ==> DayOf(r.value.1, utcOffset) == EpochDay(year, month, DaysInMonth(year, month))
  {
    if !(1 <= month <= 12) then Err(MonthOutOfRange)
    else if !(MinYear <= year <= MaxYear) then Err(YearOutOfRange)
    else
      var lastDay := DaysInMonth(year, month);
      TimeOfDay(EpochDay(year, month, 1), 0, utcOffset);
      TimeOfDay(EpochDay(year, month, lastDay), 23 * 3600 + 59 * 60 + 59, utcOffset);
      Ok((LocalTimestamp(year, month, 1, 0, 0, 0, utcOffset),
          LocalTimestamp(year, month, lastDay, 23, 59, 59, utcOffset)))
  }

  /** The month after (year, month); December rolls over to January. */
  function NextMonth(year: int, month: int): (int, int)
    requires 1 <= month <= 12
  {
    if month == 12 then (year + 1, 1) else (year, month + 1)
  }

  /** A year has 365 days, one more when it is a leap year. */
  lemma YearLength(year: int)
    requires year >= 1
    ensures DaysBeforeYear(year + 1) == DaysBeforeYear(year) + 365 + (if IsLeap(year) then 1 else 0)
  {
    QuotientStep4(year);
    QuotientStep100(year);
    QuotientStep400(year);
  }

  lemma QuotientStep4(year: int)
    ensures year / 4 == (year - 1) / 4 + (if year % 4 == 0 then 1 else 0)
  {
  }

  lemma QuotientStep100(year: int)
    ensures year / 100 == (year - 1) / 100 + (if year % 100 == 0 then 1 else 0)
  {
  }

  lemma QuotientStep400(year: int)
    ensures year / 400 == (year - 1) / 400 + (if year % 400 == 0 then 1 else 0)
  {
  }

  /** Consecutive months tile the time line: each month's interval ends one
      second before the next month's begins, December included. */
  lemma MonthsTile(year: int, month: int, utcOffset: int)
    requires 1 <= month <= 12 && MinYear <= year && NextMonth(year, month).0 <= MaxYear
    ensures MonthEpochBounds(year, month, utcOffset).Ok?
    ensures MonthEpochBounds(NextMonth(year, month).0, NextMonth(year, month).1, utcOffset).Ok?
    ensures MonthEpochBounds(year, month, utcOffset).value.1 + 1
         == MonthEpochBounds(NextMonth(year, month).0, NextMonth(year, month).1, utcOffset).value.0
  {
    if month == 12 {
      YearLength(year);
    }
  }

  /** Every timestamp inside a month's interval falls on a day of that month. */
  lemma DaysWithinMonth(year: int, month: int, utcOffset: int, time: int)
    requires MonthEpochBounds(year, month, utcOffset).Ok?
    requires MonthEpochBounds(year, month, utcOffset).value.0 <= time <= MonthEpochBounds(year, month, utcOffset).value.1
    ensures EpochDay(year, month, 1) <= DayOf(time, utcOffset) <= EpochDay(year, month, DaysInMonth(year, month))
  {
  }

  /** February 2024 (a leap year) runs from Feb 1 00:00:00 to Feb 29
      23:59:59; 1970-01 starts at epoch 0. */
  lemma KnownMonths()
    ensures MonthEpochBounds(2024, 2, 0) == Ok((1706745600, 1709251199))
    ensures MonthEpochBounds(1970, 1, 0) == Ok((0, 2678399))
    ensures MonthEpochBounds(2023, 2, 7200) == Ok((1675202400, 1677621599))
  {
  }

  // ---------------------------------------------------------------------
  // fetch_with_retries
  // ---------------------------------------------------------------------

  /** The outcome of one GET: a 2xx response, or a RequestException
      (network error, timeout, or a non-2xx status). */
  datatype Attempt<R> = Responded(response: R) | Failed(reason: string)

  /** What `fetch_with_retries` ends with: the response it returns, the
      exception it re-raises, or `None` when it made no attempt. */
  datatype Fetched<R> = Response(response: R) | Raised(reason: string) | NoResponse

  /** `fetch_with_retries(url, headers, delay)`: `network(k)` is what the
      k-th attempt (counted from 1) gets. Returns what it ended with, how many
      attempts it made and the delays it slept, in order. */
  method FetchWithRetries<R>(delay: seq<nat>, network: nat -> Attempt<R>)
    returns (r: Fetched<R>, attempts: nat, sleeps: seq<nat>)
    ensures attempts <= |delay|
    ensures r.NoResponse? <==> |delay| == 0
    ensures r.NoResponse? ==> attempts == 0
    ensures forall k :: 1 <= k < attempts ==> network(k).Failed?
    ensures r.Response? ==> attempts >= 1 && network(attempts) == Responded(r.response)
    ensures r.Raised? ==> attempts == |delay| && network(attempts) == Failed(r.reason)
    ensures sleeps == if attempts == 0 then [] else delay[1..attempts]
  {
    sleeps := [];
    var attempt := 1;
    while attempt <= |delay|
      invariant 1 <= attempt <= |delay| + 1
      invariant |delay| == 0 || attempt <= |delay|
      invariant forall k :: 1 <= k < attempt ==> network(k).Failed?
      invariant sleeps == if attempt == 1 then [] else delay[1..attempt]
    {
      var outcome := network(attempt);
      if outcome.Responded? {
        return Response(outcome.response), attempt, sleeps;
      }
      if attempt < |delay| {
        sleeps := sleeps + [delay[attempt]];
      } else {
        return Raised(outcome.reason), attempt, sleeps;
      }
      attempt := attempt + 1;
    }
    return NoResponse, 0, sleeps;
  }
}
