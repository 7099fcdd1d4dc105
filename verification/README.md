# Hiwari cost tracker — a Dafny model of its calculation core

Hiwari records purchases and subscriptions and turns each of them into a
normalised cost per day, per month and per year. It then totals those figures
over the whole store and per category. This project models that logic as
pure functions over immutable values and proves properties of it:

- `DateHelpers`: date-range predicates over day ordinals.
- `Calculations`: the cost-normalisation engine. It uses nominal cycles of
  30 and 365 days and charges a partial last cycle in full (`Math.ceil`).
- `ItemStore`: the store hook's list operations over `seq<Item>`, plus the
  category queries.
- `Aggregation`: the summary. It totals the store, groups items under their
  category or `未分類` ("uncategorised") in order of first appearance, and
  stable-sorts the groups by descending daily total.
- `ItemForm`: form validation, submit shaping, and the payment-period switch.
- `TopItemsRanking`: the top-ten ranking by daily cost.
- `SummaryCard`: the three-state display-period cycle, its labels, and the
  total it shows.
- Support modules:
  - `Seqs`: folds, filters, maps, distinctness, and first appearance.
  - `Sorting`: one stable insertion sort standing for `Array.prototype.sort`.
  - `JsStrings`: `trim()`, UTF-16 `.length`, and the default string order.
  - `RealArith`: small arithmetic facts.
  - `Wrappers` and `Types`.

Modelling choices:

- Money is `real`, so every sum below is exact.
- A date is a day ordinal plus a flag saying whether the date library parses
  the date string.
- Identifiers and timestamps come in as parameters.
- A string's `.length` is its number of UTF-16 code units.
- The default `sort()` order compares code-unit sequences lexicographically.

## Model

| member | source | states |
|---|---|---|
| `DateHelpers.IsStartBeforeEnd` | app/src/utils/dateHelpers.ts:34-36 | True only when both dates parse. On parseable dates it holds exactly when the start's day is not after the end's. |
| `DateHelpers.GetDaysDifference` | app/src/utils/dateHelpers.ts:41-45 | The inclusive day count is at least 1 exactly when the start is not after the end, and a date to itself is one day. |
| `DateHelpers.AddDays` | app/src/utils/dateHelpers.ts:50-52 | The moved date parses exactly when the original does, and the range from the original to it spans `days + 1` days. |
| `DateHelpers.AddDaysInverse` | app/src/utils/dateHelpers.ts:50-52 | Moving a date on by `n` days and back by `n` days returns the same date. |
| `DateHelpers.IsValidDateRange` | app/src/utils/dateHelpers.ts:71-76 | Valid exactly when both dates parse and the start's day is not after the end's. |
| `DateHelpers.StartBeforeEndIsLe` | app/src/utils/dateHelpers.ts:34-36 | On dates that parse, "start before or same as end" holds exactly when start ≤ end. |
| `DateHelpers.StartBeforeEndOrder` | app/src/utils/dateHelpers.ts:34-36 | The check is reflexive on parseable dates and antisymmetric on calendar days. It is false whenever either date does not parse. |
| `DateHelpers.ValidRangeIsOrderedRange` | app/src/utils/dateHelpers.ts:71-76 | A range with an invalid date is never valid. Otherwise range validity equals the start-before-end check. |
| `DateHelpers.ValidRangeSpansADay` | app/src/utils/dateHelpers.ts:41-45 | A valid range spans at least one day, a one-day valid range has equal ends, and a date to itself is one day. |
| `DateHelpers.AddDaysDifference` | app/src/utils/dateHelpers.ts:50-52 | Moving a date `n` days on gives an inclusive difference of `n + 1`. The moved range is valid exactly when the date parses and `n ≥ 0`. |
| `Calculations.GetPaymentIntervalDays` | app/src/utils/calculations.ts:7-18 | The interval is 0 exactly for one-time payments, 30 days for monthly and 365 days for yearly ones, so the recurring branch never divides by zero. |
| `Calculations.GetDaysBetweenDates` | app/src/utils/calculations.ts:23-27 | The engine's day count agrees with the date helper's inclusive difference, and it is at least 1 when start ≤ end. |
| `Calculations.CeilDiv` | app/src/utils/calculations.ts:51-54 | `Math.ceil(a / b)` for a positive divisor and any numerator: the least `q` with `a ≤ q·b`. |
| `Calculations.PaymentCount` | app/src/utils/calculations.ts:44-55 | The cycle count is the least number of whole cycles covering the billed days: the payment period if given, else the usage period. |
| `Calculations.RecurringCostIsSpread` | app/src/utils/calculations.ts:52-58 | For a recurring item used for at least one day, the daily cost is the price of all charged cycles divided by the usage days. |
| `Calculations.CalculateCostPerDay` | app/src/utils/calculations.ts:32-59 | Zero when the usage period has no days. Otherwise the daily cost times the usage days is exactly the total paid. |
| `Calculations.OnceSpreadsPrice` | app/src/utils/calculations.ts:40-42 | A one-time price is spread over the usage days, and the payment period has no effect on it. |
| `Calculations.OnceOverNDays` | app/src/utils/calculations.ts:40-42 | A one-time purchase used for `n` days costs `price / n` a day. |
| `Calculations.MonthlyExactMonth` | app/src/utils/calculations.ts:52-58 | A monthly item used for 30 days costs `price / 30` a day. |
| `Calculations.MonthlyOneDayOver` | app/src/utils/calculations.ts:52-58 | A monthly item used for 31 days is charged two cycles: `2·price / 31` a day. |
| `Calculations.RecurringCoversUsage` | app/src/utils/calculations.ts:52-58 | For a non-negative price and no payment period, the daily cost is at least `price / usageDays` and exceeds it by at most `price / intervalDays`. |
| `Calculations.PaymentPeriodFixesTotal` | app/src/utils/calculations.ts:48-51 | With a payment period, the total paid does not depend on the usage period. The usage period only divides it. |
| `Calculations.ReversedPaymentPeriodCharge` | app/src/utils/calculations.ts:48-51 | The engine does not check the payment period: one that ends 40 days before it starts charges −1 cycles and a negative daily cost. |
| `Calculations.LeapYearYearlySubscription` | app/src/utils/calculations.ts:52-58 | A yearly 12000 subscription over 366 days is charged two payments: 24000/366 a day. |
| `Calculations.CalculateCostPerMonth` | app/src/utils/calculations.ts:64-74 | The month figure is the price for monthly items, a twelfth of the price for yearly items, and 30 days of the cached daily cost for one-time items. |
| `Calculations.CalculateCostPerYear` | app/src/utils/calculations.ts:79-89 | The year figure is the price for yearly items, twelve prices for monthly items, and 365 days of the cached daily cost for one-time items. For recurring items it is twelve times the month figure. |
| `Calculations.CalculateMonthlyAndYearlyCosts` | app/src/utils/calculations.ts:64-89 | For recurring items, the year figure is twelve month figures, and the figure of the item's own interval is its price. For one-time items, the figures are 30 and 365 times the cached daily cost. |
| `Calculations.RecurringConversionIgnoresDailyCost` | app/src/utils/calculations.ts:64-89 | Recurring conversions do not depend on the cached daily cost or on either period. |
| `Calculations.OnceConversionFromPrice` | app/src/utils/calculations.ts:64-89 | For an item whose cache is in sync, a one-time item's month and year figures are 30 and 365 times the price spread over the usage days. |
| `Calculations.YearlySubscriptionConversions` | app/src/utils/calculations.ts:147-152 | A yearly 12000 subscription converts to 1000 a month and 12000 a year. |
| `Calculations.CreateItemFromFormData` | app/src/utils/calculations.ts:94-106 | Every form field is copied unchanged, and the cached daily cost is the engine's value for those fields. |
| `ItemStore.AddItem` | app/src/hooks/useItems.ts:25-33 | Exactly one item is appended, and the earlier items are unchanged. The new item has the given id and fields, the two given timestamps (two separate clock reads), and a daily cost in sync. |
| `ItemStore.UpdateItem` | app/src/hooks/useItems.ts:50-62 | Length and order are kept. Items with the id get the new fields, a recomputed cost and the given update time, and keep their id and creation time. Every other item is untouched. |
| `ItemStore.DeleteItem` | app/src/hooks/useItems.ts:79 | The result is an order-preserving subsequence with no item of that id, and it keeps every item of any other id. |
| `ItemStore.GetItem` | app/src/hooks/useItems.ts:91-93 | Nothing exactly when no item has the id. Otherwise the first item carrying it. |
| `ItemStore.UnknownIdIsNoOp` | app/src/hooks/useItems.ts:50-79 | Updating or deleting an id that is not there leaves the list as it was. |
| `ItemStore.DeleteIdempotent` | app/src/hooks/useItems.ts:79-93 | Deleting twice is deleting once, and afterwards the id is not found. |
| `ItemStore.GetAfterAdd` | app/src/hooks/useItems.ts:25-33 | An item added under a fresh id is what a lookup of that id returns. |
| `ItemStore.GetAfterUpdate` | app/src/hooks/useItems.ts:50-62 | After an update of a present id, a lookup finds it with the new fields and a recomputed cost. |
| `ItemStore.StoreKeepsCostsInSync` | app/src/hooks/useItems.ts:25-79 | Adding, updating and deleting all keep every cached daily cost in sync with its fields. |
| `ItemStore.GetItemsByCategory` | app/src/hooks/useItems.ts:144-149 | An absent or empty category returns every item. Otherwise the result is the order-preserving filter on exact category equality. |
| `ItemStore.NamedCategories` | app/src/hooks/useItems.ts:155-160 | Collects exactly the non-empty categories that some item carries. |
| `ItemStore.SortedDistinctStrings` | app/src/hooks/useItems.ts:161 | Sorting distinct strings in code-unit order gives a strictly increasing list of the same strings. |
| `ItemStore.GetAllCategories` | app/src/hooks/useItems.ts:154-162 | Strictly ascending in code-unit order (so distinct), and holding exactly the non-empty categories in use. |
| `Aggregation.CategoryKey` | app/src/hooks/useItems.ts:109 | An absent or empty category is filed under `未分類`. Any other category is its own key, which is never empty. |
| `Aggregation.Groups` | app/src/hooks/useItems.ts:106-115 | The category map holds one entry per key in order of first appearance, and each entry holds exactly that key's items in their order. |
| `Aggregation.GroupsStep` | app/src/hooks/useItems.ts:108-115 | One `forEach` step preserves both facts about the map. |
| `Aggregation.UpsertItems` | app/src/hooks/useItems.ts:110-114 | `map.set` grows exactly the entry of the key by the item, or appends a new entry holding only the item. |
| `Aggregation.GroupsPartition` | app/src/hooks/useItems.ts:106-121 | The entries partition the items: per-entry sums add up to the sum over all items, and entry sizes add up to the item count. |
| `Aggregation.SummaryNames` | app/src/hooks/useItems.ts:117-131 | The summary's category names are distinct, and they are exactly the keys in use. |
| `Aggregation.SummariesDescribeBuckets` | app/src/hooks/useItems.ts:118-129 | Each category entry's three totals and count are those of exactly that category's items. |
| `Aggregation.GetSummaryData` | app/src/hooks/useItems.ts:98-139 | Empty input gives zeros and no entries. Each overall total equals the sum of the per-category totals. The counts add up to the item count. Entries are non-increasing by daily total. |
| `Aggregation.GetSummaryDataCategories` | app/src/hooks/useItems.ts:106-131 | The entries name each key in use once and describe that key's items. Entries with equal daily totals keep the order in which their categories first appear. |
| `Sorting.SortByStable` | app/src/hooks/useItems.ts:131 | The sort is stable: for a descending key, the elements of any one key value leave in the order they came. |
| `Sorting.SortBySorted` | app/src/hooks/useItems.ts:131 | For a total preorder, the sort's output is ordered. |
| `ItemForm.ValidateForm` | app/src/components/ItemForm.tsx:76-110 | Valid exactly when no error is recorded, which is exactly when the form is acceptable. Each field's error is recorded exactly when its own check fails, with that field's message. |
| `ItemForm.FieldErrors` | app/src/components/ItemForm.tsx:79-106 | Each field's message is recorded exactly when that field's check fails, and the message recorded is that check's own. |
| `ItemForm.HandleSubmit` | app/src/components/ItemForm.tsx:112-125 | Hands over data exactly when the form is acceptable. The data is the form's, except that the payment period is dropped when the switch is off. |
| `ItemForm.SubmittedDataHasPositiveCost` | app/src/components/ItemForm.tsx:92-101 | Anything handed over has at least one usage day, a payment period (if any) of at least one day, and a positive daily cost. |
| `ItemForm.PositiveCost` | app/src/utils/calculations.ts:32-59 | A positive price over at least one usage day and one billed day gives a positive daily cost. |
| `ItemForm.HandlePaymentPeriodToggle` | app/src/components/ItemForm.tsx:158-169 | The switch takes the new value. Switching on with no payment period seeds it as a copy of the usage period. An existing period, and all other fields, are kept. |
| `ItemForm.ToggleOnIdempotent` | app/src/components/ItemForm.tsx:158-169 | Switching on twice is switching on once. |
| `ItemForm.SeededPeriodChangesNothing` | app/src/components/ItemForm.tsx:158-169 | A seeded payment period does not change whether the form is acceptable or what the submitted item costs per day. |
| `ItemForm.ToggleOffDropsPeriod` | app/src/components/ItemForm.tsx:119-122 | With the switch off, a payment period left in the form is never handed over. |
| `ItemForm.LoadInitialData` | app/src/components/ItemForm.tsx:59-64 | Loading an item sets the switch exactly when the item has a payment period. |
| `ItemForm.LoadSubmitRoundTrip` | app/src/components/ItemForm.tsx:59-125 | Loading an acceptable item and submitting it unchanged hands back the same data. |
| `ItemForm.DefaultForm` | app/src/components/ItemForm.tsx:43-54 | The starting form has an empty name, price 0, a one-time payment, no payment period, the given usage range and an empty category, and the switch is off. |
| `ItemForm.DefaultFormRejected` | app/src/components/ItemForm.tsx:43-54 | The blank starting form is rejected for its name and its price, and for nothing about its category or payment period. |
| `JsStrings.TrimEmptyIffWhitespace` | app/src/components/ItemForm.tsx:80 | `trim()` is empty exactly when the string is all white space. |
| `JsStrings.Utf16Length` | app/src/components/ItemForm.tsx:82 | `.length` counts UTF-16 code units: at least the number of characters and at most twice it. |
| `TopItemsRanking.TopItems` | app/src/components/TopItemsRanking.tsx:27-33 | The ranking has min(10, n) items and is empty exactly for an empty store. It is non-increasing by daily cost and a sub-multiset of the store. No item left out costs more than any item shown. |
| `TopItemsRanking.TopItemsStable` | app/src/components/TopItemsRanking.tsx:28 | For each daily cost, the ranked items of that cost are a prefix of the stored ones, in store order. |
| `TopItemsRanking.SmallStoreFullyRanked` | app/src/components/TopItemsRanking.tsx:27-29 | With ten items or fewer, every item is ranked once. |
| `SummaryCard.GetTotalCost` | app/src/components/SummaryCard.tsx:29-40 | Shows the day, month or year total matching the period. |
| `SummaryCard.GetPeriodLabel` | app/src/components/SummaryCard.tsx:42-53 | The label is `1日`, `1ヶ月` or `1年` exactly for day, month or year, so labels are distinct. |
| `SummaryCard.NextPeriod` | app/src/components/SummaryCard.tsx:72-84 | The next arrow always changes the period, advancing one place in the cyclic order day, month, year. |
| `SummaryCard.PreviousPeriod` | app/src/components/SummaryCard.tsx:58-70 | The previous arrow always changes the period, stepping back one place in the cyclic order day, month, year. |
| `SummaryCard.ArrowsAreInverse` | app/src/components/SummaryCard.tsx:58-84 | The previous and next arrows undo each other. |
| `SummaryCard.ArrowsCycle` | app/src/components/SummaryCard.tsx:72-84 | Three steps either way return to the start, and the next arrow visits all three periods. |
| `SummaryCard.ShownTotalAddsUp` | app/src/components/SummaryCard.tsx:29-40 | The total shown for a store's summary is the sum of the matching per-category figures, and also of the per-item figures. |

## Left out

- Browser storage: the store is a plain `seq<Item>` value. Loading and saving to `localStorage` and JSON parsing are I/O.
- React state plumbing: the loading and error flags, `useCallback`, try/catch and the data context are not modelled.
- Item ids and timestamps: the uuid and `new Date().toISOString()` are parameters of `ItemStore.AddItem` and `ItemStore.UpdateItem`, because they are randomness and a clock.
- `ItemStore.UpdateItem`: takes one update time for every matching item. The source reads the clock once per matching item, inside the `map` callback, so the times can differ only when two items share an id.
- Currency formatting (`formatCurrency`, `formatCurrencyDetailed`, `formatDailyCost`): it depends on `Intl.NumberFormat` and rounding.
- Floating point: money is `real`. Sums are exact, so the partition equalities do not account for IEEE rounding drift, and `reduce`'s left-to-right order does not matter.
- Date parsing: the library's lenient parsing and its validity check are the opaque `parses` flag of a date.
- Unparseable dates: day counts of dates that do not parse (NaN arithmetic) are not modelled. The engine reads the ordinals whatever the flag.
- Time-zone effects on the day difference are not modelled.
- `addMonths`, `addYears`, `getTodayString` and the date formatters: calendar arithmetic with end-of-month clamping, and a clock. `ItemForm.DefaultForm` takes today and the date a year later as parameters.
- The form's input handlers and `parseFloat(...) || 0`: these are string-to-value parsing of individual fields, plus plain field assignment.
- The form's live cost preview: it only displays `calculateCostPerDay` of the current form.
- Rendering-only components (the item list grid, the pie chart, the category table, layout and navigation): they select fields and contain no logic beyond that.
- `TopItemsRanking.TopItems`: modelled as a pure function. The component actually sorts the caller's array in place, which also reorders the store's own array.
- `Calculations.GetPaymentIntervalDays`: the `default` branch of its switch (returning 0) is absent, because the payment interval is a closed enumeration.
- `SummaryCard.GetTotalCost`: the `default` branch of its switch is absent, because the display period is a closed enumeration.
- `SummaryCard.GetPeriodLabel`: the `default` branch is absent for the same reason.
- `Aggregation.Summarize`: the item count is the length of the entry's item list. The source also counts alongside (`existing.itemCount + 1`), which always equals that length.
