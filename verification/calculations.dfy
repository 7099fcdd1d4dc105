/**
 The cost-normalisation engine: a purchase or subscription becomes one cost
 per day, from which per-month and per-year figures are derived with the
 nominal month of 30 days and year of 365 days.
 */
module Calculations {
  import opened Wrappers
  import opened DateHelpers
  import opened Types
  import RealArith

  /** Nominal billing-cycle length; one-time payments have no cycle. */
  function GetPaymentIntervalDays(interval: PaymentInterval): (days: nat)
    ensures days == 0 <==> interval == Once
    ensures interval != Once ==> days >= 30
    ensures interval == Monthly ==> days == 30
    ensures interval == Yearly ==> days == 365
  {
    match interval
    case Once => 0
    case Monthly => 30
    case Yearly => 365
  }

  /** Inclusive day count of a date range (`diff` in days, plus one). */
  function GetDaysBetweenDates(startDate: Date, endDate: Date): (days: int)
    ensures days == GetDaysDifference(startDate, endDate)
    ensures startDate.ordinal <= endDate.ordinal ==> days >= 1
  {
    endDate.ordinal - startDate.ordinal + 1
  }

  function PeriodDays(p: Period): int
  {
    GetDaysBetweenDates(p.startDate, p.endDate)
  }

  /** `Math.ceil(a / b)` for a positive divisor and any sign of `a`. */
  function CeilDiv(a: int, b: int): (q: int)
    requires b > 0
    ensures (q - 1) * b < a <= q * b
  {
    var f := (-a) / b;
    assert b * f + (-a) % b == -a;
    -f
  }

  function UsageDays(data: ItemFormData): int
  {
    PeriodDays(data.usagePeriod)
  }

  /** The days billing runs for: the payment period if given, else the usage period. */
  function BilledDays(data: ItemFormData): int
  {
    match data.paymentPeriod
    case Some(p) => PeriodDays(p)
    case None => UsageDays(data)
  }

  /**
   Number of billing cycles charged for a recurring item: a partial final
   cycle is charged in full.
   */
  function PaymentCount(data: ItemFormData): (count: int)
    requires data.paymentInterval != Once
    ensures var n := GetPaymentIntervalDays(data.paymentInterval);
      (count - 1) * n < BilledDays(data) <= count * n
  {
    CeilDiv(BilledDays(data), GetPaymentIntervalDays(data.paymentInterval))
  }

  /** What the item costs in total over its usage period. */
  function TotalPaid(data: ItemFormData): real
  {
    if data.paymentInterval == Once then data.price
    else data.price * PaymentCount(data) as real
  }

  /**
   The normalised daily cost: the total paid spread evenly over the usage
   days, and zero for a usage period of no days.
   */
  function CalculateCostPerDay(data: ItemFormData): (r: real)
    ensures UsageDays(data) <= 0 ==> r == 0.0
    ensures UsageDays(data) >= 1 ==> r * UsageDays(data) as real == TotalPaid(data)
  {
    var usageDays := UsageDays(data);
    if usageDays <= 0 then 0.0
    else if data.paymentInterval == Once then data.price / usageDays as real
    else
      var totalCost := data.price * PaymentCount(data) as real;
      totalCost / usageDays as real
  }

  /** A one-time price is spread over the usage days, whatever the payment period. */
  lemma OnceSpreadsPrice(data: ItemFormData, pp: Option<Period>)
    requires data.paymentInterval == Once
    requires UsageDays(data) >= 1
    ensures CalculateCostPerDay(data) == data.price / UsageDays(data) as real
    ensures CalculateCostPerDay(data.(paymentPeriod := pp)) == CalculateCostPerDay(data)
  {
  }

  /** One-time purchase over the range `[d, d + n - 1]` costs `price / n` a day. */
  lemma OnceOverNDays(price: real, d: Date, n: int, pp: Option<Period>, name: string, category: Option<string>)
    requires n >= 1
    ensures CalculateCostPerDay(ItemFormData(name, price, Once, pp, Period(d, AddDays(d, n - 1)), category))
         == price / n as real
  {
  }

  /** A month of 30 days is one monthly payment. */
  lemma MonthlyExactMonth(data: ItemFormData)
    requires data.paymentInterval == Monthly && data.paymentPeriod == None
    requires UsageDays(data) == 30
    ensures CalculateCostPerDay(data) == data.price / 30.0
  {
    assert PaymentCount(data) == 1;
  }

  /** A 31-day usage period is charged two monthly payments. */
  lemma MonthlyOneDayOver(data: ItemFormData)
    requires data.paymentInterval == Monthly && data.paymentPeriod == None
    requires UsageDays(data) == 31
    ensures CalculateCostPerDay(data) == 2.0 * data.price / 31.0
  {
    assert PaymentCount(data) == 2;
  }

  /**
   Billing for the whole usage period never charges less than the price
   spread over it, and at most one cycle's price spread over a cycle more.
   */
  lemma RecurringCoversUsage(data: ItemFormData)
    requires data.paymentInterval != Once && data.paymentPeriod == None
    requires UsageDays(data) >= 1 && data.price >= 0.0
    ensures var u := UsageDays(data) as real;
      var n := GetPaymentIntervalDays(data.paymentInterval) as real;
      data.price / u <= CalculateCostPerDay(data) <= data.price / u + data.price / n
  {
    var u := UsageDays(data);
    var n := GetPaymentIntervalDays(data.paymentInterval);
    var c := PaymentCount(data);
    RealArith.CyclesAsReals(c, n, u);
    RecurringCostIsSpread(data);
    RealArith.SpreadBoundsOf(data.price, c as real, n as real, u as real, CalculateCostPerDay(data));
  }

  /** A recurring item's daily cost is its cycles' price spread over the usage days. */
  lemma RecurringCostIsSpread(data: ItemFormData)
    requires data.paymentInterval != Once && UsageDays(data) >= 1
    ensures CalculateCostPerDay(data) == data.price * PaymentCount(data) as real / UsageDays(data) as real
  {
    var total := data.price * PaymentCount(data) as real;
    assert CalculateCostPerDay(data) == total / UsageDays(data) as real;
  }

  /**
   With an explicit payment period the total paid depends on that period
   alone; the usage period is only the divisor.
   */
  lemma PaymentPeriodFixesTotal(a: ItemFormData, b: ItemFormData)
    requires a.paymentInterval != Once && a.paymentPeriod.Some?
    requires b == a.(usagePeriod := b.usagePeriod)
    requires UsageDays(a) >= 1 && UsageDays(b) >= 1
    ensures CalculateCostPerDay(a) * UsageDays(a) as real == CalculateCostPerDay(b) * UsageDays(b) as real
  {
  }

  /**
   The engine does not check the payment period: one ending 40 days before it
   starts charges a negative number of cycles.
   */
  lemma ReversedPaymentPeriodCharge()
    ensures var data := ItemFormData("x", 300.0, Monthly,
        Some(Period(Date(100, true), Date(59, true))), Period(Date(0, true), Date(29, true)), None);
      CalculateCostPerDay(data) == -10.0
  {
    var data := ItemFormData("x", 300.0, Monthly,
        Some(Period(Date(100, true), Date(59, true))), Period(Date(0, true), Date(29, true)), None);
    assert PeriodDays(data.paymentPeriod.value) == -40;
    assert PaymentCount(data) == -1;
  }

  /**
   A yearly 12000 subscription used for the 366 days of a leap year is
   charged `ceil(366 / 365) = 2` yearly payments, so its daily cost is
   24000/366.
   */
  lemma LeapYearYearlySubscription()
    ensures var data := ItemFormData("x", 12000.0, Yearly, None, Period(Date(0, true), Date(365, true)), None);
      CalculateCostPerDay(data) == 24000.0 / 366.0
  {
    var data := ItemFormData("x", 12000.0, Yearly, None, Period(Date(0, true), Date(365, true)), None);
    assert PaymentCount(data) == 2;
  }

  /** `calculateCostPerMonth`: a recurring price per month, or 30 days of the cached daily cost. */
  function CalculateCostPerMonth(item: Item): (monthly: real)
    ensures item.fields.paymentInterval == Monthly ==> monthly == item.fields.price
    ensures item.fields.paymentInterval == Yearly ==> 12.0 * monthly == item.fields.price
    ensures item.fields.paymentInterval == Once ==> monthly == 30.0 * item.costPerDay
  {
    match item.fields.paymentInterval
    case Monthly => item.fields.price
    case Yearly => item.fields.price / 12.0
    case Once => item.costPerDay * 30.0
  }

  /** `calculateCostPerYear`: a recurring price per year, or 365 days of the cached daily cost. */
  function CalculateCostPerYear(item: Item): (yearly: real)
    ensures item.fields.paymentInterval == Yearly ==> yearly == item.fields.price
    ensures item.fields.paymentInterval == Monthly ==> yearly == 12.0 * item.fields.price
    ensures item.fields.paymentInterval == Once ==> yearly == 365.0 * item.costPerDay
    ensures item.fields.paymentInterval != Once ==> yearly == 12.0 * CalculateCostPerMonth(item)
  {
    match item.fields.paymentInterval
    case Monthly => item.fields.price * 12.0
    case Yearly => item.fields.price
    case Once => item.costPerDay * 365.0
  }

  datatype MonthlyAndYearly = MonthlyAndYearly(monthlyAmount: real, yearlyAmount: real)

  /**
   Recurring items: a year is twelve months. One-time items: both figures
   come from the same daily cost, in the ratio 30 : 365.
   */
  function CalculateMonthlyAndYearlyCosts(item: Item): (r: MonthlyAndYearly)
    ensures item.fields.paymentInterval != Once ==> r.yearlyAmount == 12.0 * r.monthlyAmount
    ensures item.fields.paymentInterval == Once ==> 365.0 * r.monthlyAmount == 30.0 * r.yearlyAmount
    ensures item.fields.paymentInterval == Monthly ==> r.monthlyAmount == item.fields.price
    ensures item.fields.paymentInterval == Yearly ==> r.yearlyAmount == item.fields.price
    ensures item.fields.paymentInterval == Once ==>
      r.monthlyAmount == 30.0 * item.costPerDay && r.yearlyAmount == 365.0 * item.costPerDay
  {
    MonthlyAndYearly(CalculateCostPerMonth(item), CalculateCostPerYear(item))
  }

  /**
   Recurring figures come from the price alone: neither the cached daily
   cost nor either period affects them.
   */
  lemma RecurringConversionIgnoresDailyCost(item: Item, cost: real, pp: Option<Period>, usage: Period)
    requires item.fields.paymentInterval != Once
    ensures var other := item.(costPerDay := cost, fields := item.fields.(paymentPeriod := pp, usagePeriod := usage));
      CalculateCostPerMonth(other) == CalculateCostPerMonth(item)
      && CalculateCostPerYear(other) == CalculateCostPerYear(item)
  {
  }

  /** The fields of a new item before the store gives it an identity. */
  datatype ItemDraft = ItemDraft(fields: ItemFormData, costPerDay: real)

  /** The cached daily cost is the engine's value for the cached fields. */
  predicate CostInSync(fields: ItemFormData, costPerDay: real)
  {
    costPerDay == CalculateCostPerDay(fields)
  }

  predicate Consistent(item: Item)
  {
    CostInSync(item.fields, item.costPerDay)
  }

  function CreateItemFromFormData(data: ItemFormData): (r: ItemDraft)
    ensures r.fields == data
    ensures CostInSync(r.fields, r.costPerDay)
  {
    ItemDraft(data, CalculateCostPerDay(data))
  }

  /**
   For a one-time item whose cache is in sync, the month figure is the
   price spread over the usage days, times 30 (and the year figure times 365).
   */
  lemma OnceConversionFromPrice(item: Item)
    requires Consistent(item) && item.fields.paymentInterval == Once
    requires UsageDays(item.fields) >= 1
    ensures var u := UsageDays(item.fields) as real;
      CalculateCostPerMonth(item) == 30.0 * item.fields.price / u
      && CalculateCostPerYear(item) == 365.0 * item.fields.price / u
  {
  }

  /** A yearly 12000 subscription is 1000 a month and 12000 a year. */
  lemma YearlySubscriptionConversions(item: Item)
    requires item.fields.paymentInterval == Yearly && item.fields.price == 12000.0
    ensures CalculateCostPerMonth(item) == 1000.0
    ensures CalculateCostPerYear(item) == 12000.0
  {
  }
}
