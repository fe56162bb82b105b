/**
 Hourly, daily, ..., yearly totals: the API's conversion (apps/api/src/cost-time.ts)
 and the web app's multipliers (apps/web/src/cost-time.ts).
 */
module CostTime {
  import opened Wrappers
  import opened Money

  const HOURS_PER_DAY := 24.0
  const HOURS_PER_WEEK := 168.0 // 24 * 7
  const HOURS_PER_MONTH := 730.0
  const MONTHS_PER_QUARTER := 3.0
  const HOURS_PER_YEAR := 8760.0 // 730 * 12

  datatype IntervalKey = Hourly | Daily | Weekly | Monthly | Quarterly | Yearly

  datatype CostIntervals = CostIntervals(
    hourly: real, daily: real, weekly: real, monthly: real, quarterly: real, yearly: real)
  {
    function At(interval: IntervalKey): real {
      match interval
      case Hourly => hourly
      case Daily => daily
      case Weekly => weekly
      case Monthly => monthly
      case Quarterly => quarterly
      case Yearly => yearly
    }
  }

  function IntervalCostsFromHourly(hourlyCostUsd: real): Outcome<CostIntervals> {
    if hourlyCostUsd < 0.0 then RangeError
    else
      var hourly := RoundRateUsd(hourlyCostUsd);
      var daily := RoundUsd(hourlyCostUsd * HOURS_PER_DAY, 2);
      var weekly := RoundUsd(hourlyCostUsd * HOURS_PER_WEEK, 2);
      var monthly := RoundUsd(hourlyCostUsd * HOURS_PER_MONTH, 2);
      var quarterly := RoundUsd(hourlyCostUsd * HOURS_PER_MONTH * MONTHS_PER_QUARTER, 2);
      var yearly := RoundUsd(hourlyCostUsd * HOURS_PER_YEAR, 2);
      if hourly.Ok? && daily.Ok? && weekly.Ok? && monthly.Ok? && quarterly.Ok? && yearly.Ok? then
        Ok(CostIntervals(hourly.value, daily.value, weekly.value, monthly.value, quarterly.value, yearly.value))
      else RangeError
  }

  function HourlyFromMonthly(monthlyCostUsd: real): Outcome<real> {
    if monthlyCostUsd < 0.0 then RangeError else Ok(monthlyCostUsd / HOURS_PER_MONTH)
  }

  /** The web app's copy has no guard. */
  function WebHourlyFromMonthly(monthlyCostUsd: real): real {
    monthlyCostUsd / HOURS_PER_MONTH
  }

  function IntervalMultiplierFromMonthly(interval: IntervalKey): real {
    match interval
    case Hourly => 1.0 / HOURS_PER_MONTH
    case Daily => HOURS_PER_DAY / HOURS_PER_MONTH
    case Weekly => HOURS_PER_WEEK / HOURS_PER_MONTH
    case Monthly => 1.0
    case Quarterly => MONTHS_PER_QUARTER
    case Yearly => HOURS_PER_YEAR / HOURS_PER_MONTH
  }

  /** The decimals each interval is rounded to: rates finely, totals to cents. */
  function DecimalsFor(interval: IntervalKey): int {
    if interval == Hourly then 6 else 2
  }

  /** The conversion is refused exactly for negative rates and for rates whose yearly total is out of range. */
  lemma IntervalCostsDefined(hourlyCostUsd: real)
    ensures IntervalCostsFromHourly(hourlyCostUsd).Ok? <==>
            hourlyCostUsd >= 0.0 && InRange(hourlyCostUsd * HOURS_PER_YEAR)
  {
  }

  lemma RateError(usd: real, r: real)
    requires RoundRateUsd(usd) == Ok(r)
    ensures Abs(r - usd) <= 0.0000005
  {
    RateIsMicros(usd);
    RoundHalfAwayLaws(usd * MICROS_PER_USD, 0.0);
  }

  lemma CentsOrder(a: real, b: real, ra: real, rb: real)
    requires a <= b && RoundUsd(a, 2) == Ok(ra) && RoundUsd(b, 2) == Ok(rb)
    ensures ra <= rb
  {
    RoundUsdIsMonotone(a, b, 2);
  }

  /** The six totals tell one story: multiplying a shorter interval up reproduces the longer one. */
  lemma IntervalsReconcile(h: real, c: CostIntervals)
    requires IntervalCostsFromHourly(h) == Ok(c)
    ensures Abs(c.hourly * 24.0 - c.daily) < 0.0051
    ensures Abs(c.daily * 7.0 - c.weekly) < 0.0401
    ensures Abs(c.hourly * HOURS_PER_MONTH - c.monthly) < 0.0054
    ensures Abs(c.monthly * 3.0 - c.quarterly) < 0.0201
    ensures Abs(c.quarterly * 4.0 - c.yearly) < 0.0251
    ensures Abs(c.monthly * 12.0 - c.yearly) <= 0.0651
    ensures 0.0 <= c.daily <= c.weekly <= c.monthly <= c.quarterly <= c.yearly
  {
    hide RoundUsd, RoundRateUsd;
    RateError(h, c.hourly);
    CentsError(h * HOURS_PER_DAY, c.daily);
    CentsError(h * HOURS_PER_WEEK, c.weekly);
    CentsError(h * HOURS_PER_MONTH, c.monthly);
    CentsError(h * HOURS_PER_MONTH * MONTHS_PER_QUARTER, c.quarterly);
    CentsError(h * HOURS_PER_YEAR, c.yearly);
    IntervalsIncrease(h, c);
  }

  lemma IntervalsIncrease(h: real, c: CostIntervals)
    requires IntervalCostsFromHourly(h) == Ok(c)
    ensures 0.0 <= c.daily <= c.weekly <= c.monthly <= c.quarterly <= c.yearly
  {
    hide RoundRateUsd;
    CentsOrder(0.0, h * HOURS_PER_DAY, 0.0, c.daily);
    CentsOrder(h * HOURS_PER_DAY, h * HOURS_PER_WEEK, c.daily, c.weekly);
    CentsOrder(h * HOURS_PER_WEEK, h * HOURS_PER_MONTH, c.weekly, c.monthly);
    CentsOrder(h * HOURS_PER_MONTH, h * HOURS_PER_MONTH * MONTHS_PER_QUARTER, c.monthly, c.quarterly);
    CentsOrder(h * HOURS_PER_MONTH * MONTHS_PER_QUARTER, h * HOURS_PER_YEAR, c.quarterly, c.yearly);
  }

  /** The billing hours in each interval. */
  function HoursIn(interval: IntervalKey): real {
    match interval
    case Hourly => 1.0
    case Daily => HOURS_PER_DAY
    case Weekly => HOURS_PER_WEEK
    case Monthly => HOURS_PER_MONTH
    case Quarterly => 2190.0
    case Yearly => HOURS_PER_YEAR
  }

  /** Each field is the interval's hours at the hourly rate, rounded. */
  lemma IntervalCostsAt(h: real, c: CostIntervals, interval: IntervalKey, total: real)
    requires IntervalCostsFromHourly(h) == Ok(c)
    requires total == h * HoursIn(interval)
    ensures RoundUsd(total, DecimalsFor(interval)) == Ok(c.At(interval))
  {
    match interval {
      case Hourly => assert total == h;
      case Daily => assert total == h * HOURS_PER_DAY;
      case Weekly => assert total == h * HOURS_PER_WEEK;
      case Monthly => assert total == h * HOURS_PER_MONTH;
      case Quarterly => assert total == h * HOURS_PER_MONTH * MONTHS_PER_QUARTER;
      case Yearly => assert total == h * HOURS_PER_YEAR;
    }
  }

  lemma MultiplierCountsHours(monthlyCostUsd: real, interval: IntervalKey)
    ensures monthlyCostUsd * IntervalMultiplierFromMonthly(interval)
            == WebHourlyFromMonthly(monthlyCostUsd) * HoursIn(interval)
  {
  }

  /** API and web agree: converting a monthly cost through the API gives, at every interval, the rounded
      product with the web app's multiplier; the monthly figure comes back as itself, rounded. */
  lemma ApiAgreesWithWeb(monthlyCostUsd: real, h: real, c: CostIntervals, interval: IntervalKey)
    requires HourlyFromMonthly(monthlyCostUsd) == Ok(h)
    requires IntervalCostsFromHourly(h) == Ok(c)
    ensures h == WebHourlyFromMonthly(monthlyCostUsd)
    ensures RoundUsd(monthlyCostUsd * IntervalMultiplierFromMonthly(interval), DecimalsFor(interval))
            == Ok(c.At(interval))
    ensures RoundUsd(monthlyCostUsd, 2) == Ok(c.monthly)
  {
    hide RoundUsd, IntervalCostsFromHourly, IntervalMultiplierFromMonthly;
    MultiplierCountsHours(monthlyCostUsd, interval);
    IntervalCostsAt(h, c, interval, monthlyCostUsd * IntervalMultiplierFromMonthly(interval));
    IntervalCostsAt(h, c, Monthly, monthlyCostUsd);
  }
}
