/**
 The records of the application. Money is an exact real (the JavaScript
 `number` without rounding), dates are day ordinals.
 */
module Types {
  import opened Wrappers
  import opened DateHelpers

  datatype PaymentInterval = Once | Monthly | Yearly

  /** An inclusive date range. */
  datatype Period = Period(startDate: Date, endDate: Date)

  /** What the user enters for one purchase or subscription. */
  datatype ItemFormData = ItemFormData(
    name: string,
    price: real,
    paymentInterval: PaymentInterval,
    paymentPeriod: Option<Period>,
    usagePeriod: Period,
    category: Option<string>
  )

  /**
   A stored item: the submitted form fields, the cached daily cost and the
   identity and timestamps the store assigns.
   */
  datatype Item = Item(
    id: string,
    fields: ItemFormData,
    costPerDay: real,
    createdAt: string,
    updatedAt: string
  )

  /** The cached daily cost of an item, the key both the summary and the ranking total or sort by. */
  function DayCost(item: Item): real
  {
    item.costPerDay
  }

  datatype CategorySummary = CategorySummary(
    category: string,
    totalCostPerDay: real,
    totalCostPerMonth: real,
    totalCostPerYear: real,
    itemCount: nat
  )

  datatype SummaryData = SummaryData(
    totalCostPerDay: real,
    totalCostPerMonth: real,
    totalCostPerYear: real,
    categorySummary: seq<CategorySummary>
  )

  datatype DisplayPeriod = Day | Month | Year
}
