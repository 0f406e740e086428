/**
 * The date helpers `rand_date`, `rand_order_date` and `rand_shipment_date`.
 *
 * A date is a day ordinal (see module Config). The one random draw of each
 * helper is a parameter whose range is the range the source draws from.
 */
module Dates {
  import opened Config

  predicate IsLeap(y: int)
  {
    y % 4 == 0 && (y % 100 != 0 || y % 400 == 0)
  }

  /** Day ordinal of 1 January of year `y` (Python's `datetime(y, 1, 1).toordinal()`). */
  function Jan1(y: int): int
    requires y >= 1
  {
    365 * (y - 1) + (y - 1) / 4 - (y - 1) / 100 + (y - 1) / 400 + 1
  }

  /** Day ordinal of 31 December of year `y`. */
  function Dec31(y: int): int
    requires y >= 1
  {
    Jan1(y + 1) - 1
  }

  /** The ordinals of consecutive New Year's days are a Gregorian year apart. */
  lemma YearLength(y: int)
    requires y >= 1
    ensures Jan1(y + 1) - Jan1(y) == if IsLeap(y) then 366 else 365
  {
    assert y / 4 - (y - 1) / 4 == if y % 4 == 0 then 1 else 0;
    assert y / 100 - (y - 1) / 100 == if y % 100 == 0 then 1 else 0;
    assert y / 400 - (y - 1) / 400 == if y % 400 == 0 then 1 else 0;
  }

  /** Every year has at least 365 days, so a span of whole years is at least that long. */
  lemma {:induction false} YearsSpan(startYear: int, endYear: int)
    requires 1 <= startYear <= endYear
    ensures Dec31(endYear) - Jan1(startYear) >= 365 * (endYear - startYear) + 364
    decreases endYear - startYear
  {
    YearLength(endYear);
    if startYear < endYear {
      YearsSpan(startYear, endYear - 1);
    }
  }

  /**
   * `(datetime(end_year, 12, 31) - datetime(start_year, 1, 1)).days`, the
   * upper bound of the offset that `rand_date` draws. `datetime` accepts
   * only the years 1 to 9999.
   */
  function SpanDays(startYear: int, endYear: int): (delta: int)
    requires 1 <= startYear <= endYear <= 9999
    ensures delta >= 364
  {
    YearsSpan(startYear, endYear);
    Dec31(endYear) - Jan1(startYear)
  }

  /**
   * `rand_date(start_year, end_year)`: 1 January of `startYear` plus the
   * drawn `offset`, which `randint(0, delta)` keeps inside the range; so the
   * result is a day of the years `startYear` to `endYear`.
   */
  function RandDate(startYear: int, endYear: int, offset: int): (d: int)
    requires 1 <= startYear <= endYear <= 9999
    requires 0 <= offset <= SpanDays(startYear, endYear)
    ensures Jan1(startYear) <= d <= Dec31(endYear)
    ensures d - Jan1(startYear) == offset
  {
    Jan1(startYear) + offset
  }

  /** First and last day an order may be placed on: `rand_order_date()` draws from 2021 to 2024. */
  const FIRST_ORDER_DAY: int := Jan1(2021)
  const LAST_ORDER_DAY: int := Dec31(2024)

  /** `rand_order_date()`, which is `rand_date(2021, 2024)`. */
  function RandOrderDate(offset: int): (d: int)
    requires 0 <= offset <= SpanDays(2021, 2024)
    ensures FIRST_ORDER_DAY <= d <= LAST_ORDER_DAY
  {
    RandDate(2021, 2024, offset)
  }

  /** The configured ranges: 2021 to 2024 spans 1461 days, 2018 to 2024 spans 2557. */
  lemma ConfiguredSpans()
    ensures SpanDays(2021, 2024) == 1460
    ensures SpanDays(2018, 2024) == 2556
  {
  }

  /**
   * The delay drawn by `rand_shipment_date`: `randint(0, 10)` (weight 0.8),
   * `randint(11, 20)` (weight 0.15) or `None` (weight 0.05).
   */
  datatype Delay = OnTime(days: int) | Late(days: int) | Lost

  predicate ValidDelay(d: Delay)
  {
    match d
    case OnTime(n) => 0 <= n <= 10
    case Late(n) => 11 <= n <= 20
    case Lost => true
  }

  /**
   * `rand_shipment_date(date)`: no date stays no date; otherwise the drawn
   * delay is added, or the result is absent when the draw is `None`.
   */
  function RandShipmentDate(date: Option<int>, delay: Delay): (r: Option<int>)
    requires ValidDelay(delay)
    ensures date.None? ==> r.None?
    ensures r.Some? <==> date.Some? && !delay.Lost?
    ensures r.Some? ==> date.value <= r.value <= date.value + 20
    ensures r.Some? && delay.OnTime? ==> r.value <= date.value + 10
    ensures r.Some? && delay.Late? ==> date.value + 11 <= r.value
  {
    match date
    case None => None
    case Some(day) =>
      match delay
      case Lost => None
      case OnTime(n) => Some(day + n)
      case Late(n) => Some(day + n)
  }
}
