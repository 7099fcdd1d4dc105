/**
 Calendar dates as day ordinals (days since some fixed epoch). `parses`
 records whether the date library accepts the text the date came from; the
 library's leniency is not modelled, so it is simply given.
 */
module DateHelpers {

  datatype Date = Date(ordinal: int, parses: bool)

  /** The library's validity check on a date string. */
  predicate IsValidDate(d: Date)
  {
    d.parses
  }

  /**
   `isBefore || isSame`. Comparisons against an unparsable date are
   comparisons with NaN and therefore false.
   */
  predicate IsStartBeforeEnd(startDate: Date, endDate: Date): (ok: bool)
    ensures ok ==> startDate.parses && endDate.parses
    ensures startDate.parses && endDate.parses ==> (ok <==> startDate.ordinal <= endDate.ordinal)
  {
    var before := startDate.parses && endDate.parses && startDate.ordinal < endDate.ordinal;
    var same := startDate.parses && endDate.parses && startDate.ordinal == endDate.ordinal;
    before || same
  }

  /** Inclusive number of days from `startDate` to `endDate`. */
  function GetDaysDifference(startDate: Date, endDate: Date): (days: int)
    ensures days >= 1 <==> startDate.ordinal <= endDate.ordinal
    ensures startDate.ordinal == endDate.ordinal ==> days == 1
  {
    endDate.ordinal - startDate.ordinal + 1
  }

  /** `addDays`: the date `days` days on (or back, for a negative count). */
  function AddDays(d: Date, days: int): (r: Date)
    ensures r.parses == d.parses
    ensures GetDaysDifference(d, r) == days + 1
  {
    Date(d.ordinal + days, d.parses)
  }

  /** Both dates valid and the start not after the end. */
  predicate IsValidDateRange(startDate: Date, endDate: Date): (ok: bool)
    ensures ok <==> IsValidDate(startDate) && IsValidDate(endDate) && startDate.ordinal <= endDate.ordinal
  {
    if !IsValidDate(startDate) || !IsValidDate(endDate) then false
    else IsStartBeforeEnd(startDate, endDate)
  }

  /** On parseable dates the check is exactly `<=` on the calendar. */
  lemma StartBeforeEndIsLe(s: Date, e: Date)
    requires s.parses && e.parses
    ensures IsStartBeforeEnd(s, e) <==> s.ordinal <= e.ordinal
  {
  }

  /** Reflexive on parseable dates; antisymmetric on calendar days. */
  lemma StartBeforeEndOrder(s: Date, e: Date)
    ensures s.parses ==> IsStartBeforeEnd(s, s)
    ensures IsStartBeforeEnd(s, e) && IsStartBeforeEnd(e, s) ==> s.ordinal == e.ordinal
    ensures !s.parses ==> !IsStartBeforeEnd(s, e) && !IsStartBeforeEnd(e, s)
  {
  }

  /** A range with an invalid date is never valid; otherwise the order decides. */
  lemma ValidRangeIsOrderedRange(s: Date, e: Date)
    ensures !IsValidDate(s) || !IsValidDate(e) ==> !IsValidDateRange(s, e)
    ensures IsValidDateRange(s, e) <==> IsStartBeforeEnd(s, e)
  {
  }

  /** A valid range spans at least one day; a one-day range exactly one. */
  lemma ValidRangeSpansADay(s: Date, e: Date)
    ensures IsValidDateRange(s, e) ==> GetDaysDifference(s, e) >= 1
    ensures IsValidDateRange(s, e) && GetDaysDifference(s, e) == 1 ==> s.ordinal == e.ordinal
    ensures GetDaysDifference(s, s) == 1
  {
  }

  /** Moving `days` forward gives a range of `days + 1` days. */
  lemma AddDaysDifference(d: Date, days: int)
    ensures GetDaysDifference(d, AddDays(d, days)) == days + 1
    ensures IsValidDateRange(d, AddDays(d, days)) <==> d.parses && days >= 0
  {
  }

  /** Moving a date on and back by the same count returns it. */
  lemma AddDaysInverse(d: Date, days: int)
    ensures AddDays(AddDays(d, days), -days) == d
  {
  }
}
