/**
 The summary card: which portfolio total it shows for the selected display
 period, the label beside it, and the arrows that cycle the period.
 */
module SummaryCard {
  import opened Seqs
  import opened Types
  import opened Calculations
  import opened Aggregation

  /** The per-category figure matching a display period. */
  function CategoryAmount(period: DisplayPeriod): CategorySummary -> real
  {
    match period
    case Day => SummaryDay
    case Month => SummaryMonth
    case Year => SummaryYear
  }

  /** The per-item figure matching a display period. */
  function ItemAmount(period: DisplayPeriod): Item -> real
  {
    match period
    case Day => DayCost
    case Month => CalculateCostPerMonth
    case Year => CalculateCostPerYear
  }

  /** `getTotalCost`: the portfolio total for the selected period. */
  function GetTotalCost(summaryData: SummaryData, period: DisplayPeriod): (r: real)
    ensures period == Day ==> r == summaryData.totalCostPerDay
    ensures period == Month ==> r == summaryData.totalCostPerMonth
    ensures period == Year ==> r == summaryData.totalCostPerYear
  {
    match period
    case Day => summaryData.totalCostPerDay
    case Month => summaryData.totalCostPerMonth
    case Year => summaryData.totalCostPerYear
  }

  /** `getPeriodLabel`: "per day", "per month" or "per year". */
  function GetPeriodLabel(period: DisplayPeriod): (text: string)
    ensures text == "1日" <==> period == Day
    ensures text == "1ヶ月" <==> period == Month
    ensures text == "1年" <==> period == Year
  {
    match period
    case Day => "1日"
    case Month => "1ヶ月"
    case Year => "1年"
  }

  /** Where a period sits in the order day, month, year; distinct periods sit apart. */
  function Position(period: DisplayPeriod): (i: nat)
    ensures i < 3
  {
    match period
    case Day => 0
    case Month => 1
    case Year => 2
  }

  /** `handleNextPeriod`: day, month, year, and back to day. */
  function NextPeriod(period: DisplayPeriod): (r: DisplayPeriod)
    ensures r != period
    ensures Position(r) == (Position(period) + 1) % 3
  {
    match period
    case Day => Month
    case Month => Year
    case Year => Day
  }

  /** `handlePreviousPeriod`: day, year, month, and back to day. */
  function PreviousPeriod(period: DisplayPeriod): (r: DisplayPeriod)
    ensures r != period
    ensures Position(r) == (Position(period) + 2) % 3
  {
    match period
    case Day => Year
    case Month => Day
    case Year => Month
  }

  /** The two arrows undo each other. */
  lemma ArrowsAreInverse(period: DisplayPeriod)
    ensures PreviousPeriod(NextPeriod(period)) == period
    ensures NextPeriod(PreviousPeriod(period)) == period
  {
  }

  /** Three steps in either direction come back to the start, and every period is reached. */
  lemma ArrowsCycle(period: DisplayPeriod)
    ensures NextPeriod(NextPeriod(NextPeriod(period))) == period
    ensures PreviousPeriod(PreviousPeriod(PreviousPeriod(period))) == period
    ensures {period, NextPeriod(period), NextPeriod(NextPeriod(period))} == {Day, Month, Year}
  {
  }

  /**
   The total shown for the summary of a store is the sum over its category
   entries of the matching figure, and also the sum over its items.
   */
  lemma ShownTotalAddsUp(items: seq<Item>, period: DisplayPeriod)
    ensures var s := GetSummaryData(items);
      && GetTotalCost(s, period) == SumOf(s.categorySummary, CategoryAmount(period))
      && GetTotalCost(s, period) == SumOf(items, ItemAmount(period))
  {
  }
}
