# Stock availability for product variants

A Dafny model of `saleor/warehouse/availability.py`, the module that decides how much of a
product variant can still be promised to a buyer. For a set of stock rows it computes the
quantity on hand, minus what orders have already allocated, minus (optionally) what
unexpired checkout reservations hold, floored at zero. On top of that sit a single-variant
check, a bulk check over many (variant, quantity) requests, a plain availability query and
an "is any variant of this product in stock" test.

The database querysets the module starts from become plain sequences of records
(`Models`): stock rows with their allocation quantities, reservations with their expiry
and checkout line, and stock rows carrying the value `annotate_available_quantity()` puts
on them. The clock is a parameter `now`. Raising `InsufficientStock` becomes returning
`InsufficientStock(items)` of the `StockCheck` datatype; returning normally is `Sufficient`.

Modules:

- `Lookup`: `Option`, and `Get`/`GetOr`, the explicit form of `dict.get` and `defaultdict` reads.
- `Aggregates`: `Sum`, `Distinct`, `SumDistinct` (SQL `SUM(DISTINCT x)`), `Max0` (`max(x, 0)`).
- `Models`: the records, and `NotExpired` / `NotExcluded` standing for the queryset
  methods `not_expired()` and `exclude_checkout_lines()`.
- `Reservations`: `get_reserved_quantity` as a function, and `get_reserved_quantity_bulk`
  as a method whose loop folds the grouped query rows into a per-variant map; the method is
  proved against `ReservedByVariant`, and that map is proved to hold, per variant, the sum
  of the counted reservations, and to agree with the scalar form.
- `Availability`: `_get_available_quantity`, `get_available_quantity`,
  `check_stock_quantity` and `is_product_in_stock`, all pure.
- `BulkCheck`: `check_stock_quantity_bulk` as a method with the grouping loop and the
  request loop, proved against the reference `BulkFailures`; lemmas about `BulkFailures`
  state what is reported and in what order.

Points where the code does something other than what its names suggest:

- The on-hand total is `Sum("quantity", distinct=True)`, SQL `SUM(DISTINCT quantity)`.
  That removes repeated quantity values, not repeated rows: two stocks holding 5 each
  count 5 (`EqualQuantitiesCountOnce`). It equals the per-row sum only when no two stocks
  share a quantity (`TotalQuantityAgainstRowSum`). The model keeps the code's behaviour.
- `get_reserved_quantity_bulk` excludes the reservations of `current_checkout_lines`, a
  name its own scope does not define (line 190). The model excludes the checkout lines of
  its own `lines` argument, which is what its caller passes.
- `is_product_in_stock` uses Python truthiness, so a stock whose annotated quantity is
  negative (over-allocated) counts as in stock, just as a positive one does.
- The single-variant check raises `InsufficientStockData(variant=variant)` without an
  available quantity (`None` here); the bulk check fills it in.

## Model

| member | source | states |
|---|---|---|
| `Aggregates.Distinct` | saleor/warehouse/availability.py:22 | the values kept by `SUM(DISTINCT ...)`: exactly the input's values, each once |
| `Aggregates.SumDistinctOfDistinctValues` | saleor/warehouse/availability.py:22 | with no repeated value, `SUM(DISTINCT x)` is the plain sum |
| `Aggregates.SumDistinctAtMostSum` | saleor/warehouse/availability.py:22 | over non-negative values, `SUM(DISTINCT x)` lies between 0 and the plain sum |
| `Reservations.SumCounted` | saleor/warehouse/availability.py:163-174 | the coalesced reserved sum is 0 when no reservation is on the stocks, unexpired and not excluded |
| `Reservations.GetReservedQuantity` | saleor/warehouse/availability.py:160-174 | `get_reserved_quantity` gives 0 when no reservation matches all three filters |
| `Reservations.SumCountedAppend` | saleor/warehouse/availability.py:169-171 | the reserved sum adds up reservation by reservation: the sum over `a + b` is the sum over `a` plus the sum over `b` |
| `Reservations.SumCountedNarrowing` | saleor/warehouse/availability.py:164-168 | fewer stocks, more excluded lines or a later clock never raise the reserved sum |
| `Reservations.ExpiredReservationsDoNotCount` | saleor/warehouse/availability.py:167 | an active hold of 3 and an expired hold of 5 on the same stock reserve 3 |
| `Reservations.CountedStockIds` | saleor/warehouse/availability.py:185-191 | the grouped query's stock ids are exactly those of the counted reservations |
| `Reservations.StockVariants` | saleor/warehouse/availability.py:197 | the stock-to-variant dict has exactly the stocks' ids as keys |
| `Reservations.FoldRows` | saleor/warehouse/availability.py:198-201 | the loop never stores the falsy variant id 0 |
| `Reservations.ReservedByVariant` | saleor/warehouse/availability.py:177-203 | definition of the returned map: empty for no stocks, otherwise the grouped rows folded by `FoldRows`; what it holds per variant is `ReservedByVariantPerVariant` |
| `Reservations.VariantReserved` | saleor/warehouse/availability.py:185-201 | reference per-variant total: 0 when no reservation is counted |
| `Reservations.FoldRowsPerVariant` | saleor/warehouse/availability.py:198-201 | after the loop, a truthy variant's entry (0 if absent) is the sum of the rows whose stock maps to it |
| `Reservations.GroupedTotalIsVariantReserved` | saleor/warehouse/availability.py:185-201 | summing per-stock group totals by variant equals summing the counted reservations by variant |
| `Reservations.AnyRowOrder` | saleor/warehouse/availability.py:185-201 | folding one row per stock id, in any order and each id once, gives every truthy variant the quantity of its counted reservations |
| `Reservations.ReservedByVariantPerVariant` | saleor/warehouse/availability.py:177-203 | for every truthy variant id, the returned map (0 if absent) holds the quantity of that variant's counted reservations |
| `Reservations.GetReservedQuantityBulk` | saleor/warehouse/availability.py:177-203 | returns the empty map for no stocks, never has key 0, and maps each truthy variant to its counted reserved quantity |
| `Reservations.BulkAgreesWithScalar` | saleor/warehouse/availability.py:160-203 | with unique stock ids, the bulk map's entry for a variant equals `get_reserved_quantity` over that variant's stocks with the same excluded lines |
| `Availability.TotalQuantity` | saleor/warehouse/availability.py:22 | definition: `SUM(DISTINCT quantity)` over the stocks; bounded by the row sum in `TotalQuantityAgainstRowSum` |
| `Availability.QuantityAllocated` | saleor/warehouse/availability.py:23 | definition: the sum of every allocation of every stock, a natural number |
| `Availability.QuantityReserved` | saleor/warehouse/availability.py:28-31 | definition: `get_reserved_quantity` when `check_reservations` is set, else 0 |
| `Availability.AvailableQuantity` | saleor/warehouse/availability.py:16-33 | never negative, never below on-hand minus allocated minus reserved, and equal to it unless that is negative; reserved counts only when `check_reservations` is set |
| `Availability.ReservationsLowerAvailability` | saleor/warehouse/availability.py:28-33 | checking reservations lowers availability by at most the reserved quantity, and never raises it |
| `Availability.ExcludingMoreLinesNeverLowersAvailability` | saleor/warehouse/availability.py:28-33 | excluding more checkout lines' holds never lowers availability |
| `Availability.AvailabilityNeverDropsAsReservationsExpire` | saleor/warehouse/availability.py:28-33 | a later clock never lowers availability |
| `Availability.TotalQuantityAgainstRowSum` | saleor/warehouse/availability.py:21-25 | the on-hand total is at most the sum of stock quantities, and equals it when no two stocks share a quantity |
| `Availability.EqualQuantitiesCountOnce` | saleor/warehouse/availability.py:22 | two unallocated stocks of 5 give an on-hand total and an availability of 5, against a row sum of 10 |
| `Availability.GetAvailableQuantity` | saleor/warehouse/availability.py:134-147 | 0 for no stocks, otherwise the calculator's value; never negative |
| `Availability.ShortcutAgreesWithCalculator` | saleor/warehouse/availability.py:145-147 | the early return for no stocks gives what the calculator would give |
| `Availability.OwnReservationNotCountedAgainstItself` | saleor/warehouse/availability.py:134-147 | 10 on hand and a hold of 4 by line L: 10 available to L, 6 to everyone else |
| `Availability.CheckStockQuantity` | saleor/warehouse/availability.py:49-60 | passes iff the variant is untracked, or it has stocks and the quantity is at most `get_available_quantity`; a failure names just that variant |
| `Availability.IsProductInStock` | saleor/warehouse/availability.py:150-157 | true iff some stock's annotated available quantity is non-zero |
| `BulkCheck.StocksForVariantMembers` | saleor/warehouse/availability.py:87-89 | a variant's group holds exactly the stocks of that variant |
| `BulkCheck.GroupStocksByVariant` | saleor/warehouse/availability.py:87-89 | the grouping loop leaves each variant's list (empty if absent) equal to its stocks in query order |
| `BulkCheck.SumAvailable` | saleor/warehouse/availability.py:107-109 | definition: the sum of the annotated available quantities of a variant's stocks |
| `BulkCheck.ExistingQuantities` | saleor/warehouse/availability.py:99-101 | definition of the dict comprehension, one update per existing line in order; its keys and values are `ExistingQuantitiesKeys` and `ExistingQuantitiesKeepLast` |
| `BulkCheck.ExistingQuantitiesKeys` | saleor/warehouse/availability.py:99-101 | the dict has a key for exactly the variants of the existing lines |
| `BulkCheck.ExistingQuantitiesKeepLast` | saleor/warehouse/availability.py:99-101 | when several existing lines share a variant, the last one's quantity is kept |
| `BulkCheck.RequestedQuantity` | saleor/warehouse/availability.py:103-104 | definition: the request as is with `replace`, else plus the existing quantity for the variant (0 without one); stated against the lines in `RequestedQuantityFromExistingLines` |
| `BulkCheck.RequestedQuantityFromExistingLines` | saleor/warehouse/availability.py:99-104 | the requested quantity as is with `replace`; otherwise plus the last existing line's quantity for the variant, or plus 0 without one |
| `BulkCheck.VariantAvailable` | saleor/warehouse/availability.py:106-112 | never negative, and 0 for a variant without stocks |
| `BulkCheck.VariantAvailableAgainstReservations` | saleor/warehouse/availability.py:91-96 | a variant's available quantity is max(its stocks' summed annotation minus its counted reservations, 0), with nothing subtracted without the reservation check or for a falsy id |
| `BulkCheck.LineFailure` | saleor/warehouse/availability.py:106-128 | definition of what one pair appends, if anything; its cases are `LineFailureCases` |
| `BulkCheck.LineFailureCases` | saleor/warehouse/availability.py:114-128 | no stocks: always reported with 0 available; untracked with stocks: never; tracked with stocks: iff requested exceeds available; a report carries the variant and its available quantity |
| `BulkCheck.LineOutcomes` | saleor/warehouse/availability.py:102 | one outcome per pair of `zip`, as many as the shorter list |
| `BulkCheck.CollectAppend` | saleor/warehouse/availability.py:98-128 | appending to `insufficient_stocks` step by step collects the outcomes of consecutive parts in order |
| `BulkCheck.CollectMembership` | saleor/warehouse/availability.py:98-128 | every failing step's entry is collected, nothing else is, and there are at most as many entries as steps |
| `BulkCheck.BulkFailuresIgnoreUnpaired` | saleor/warehouse/availability.py:102 | requests beyond the shorter of `variants` and `quantities` never change the result |
| `BulkCheck.BulkFailuresAppend` | saleor/warehouse/availability.py:98-128 | the failures of a batch are those of its first part followed by those of the rest |
| `BulkCheck.BulkFailuresCollectEveryFailure` | saleor/warehouse/availability.py:98-131 | every failing pair is reported, every report comes from a failing pair, at most one report per pair |
| `BulkCheck.BulkSufficientIffNoPairFails` | saleor/warehouse/availability.py:130-131 | the check raises iff at least one pair fails |
| `BulkCheck.TwoShortVariantsReportedInOrder` | saleor/warehouse/availability.py:102-128 | two failing requests both appear, in the order given |
| `BulkCheck.CheckPair` | saleor/warehouse/availability.py:103-128 | one iteration of the request loop returns exactly that pair's `LineFailure` |
| `BulkCheck.CollectShortfalls` | saleor/warehouse/availability.py:98-128 | the request loop leaves `insufficient_stocks` equal to `BulkFailures`: every pair checked, shortfalls appended in order |
| `BulkCheck.CheckStockQuantityBulk` | saleor/warehouse/availability.py:63-131 | returns `Sufficient` iff no pair fails, else raises with exactly the reference list of failures |

## Left out

- Stock lookups (`get_variant_stocks_for_country`, `for_country_and_channel`,
  `get_product_stocks_for_country_and_channel`), the `product_variant__in` filter and
  `additional_filter_lookup`: the stocks arrive as an already filtered sequence, so
  `country_code` and `channel_slug` are not parameters.
- `annotate_available_quantity`, `not_expired` and `exclude_checkout_lines` are defined in
  `saleor/warehouse/models.py`, which is not part of this model: the annotation is a given
  per-stock integer, and the other two are the predicates `reserved_until > now` and
  "checkout line not among the excluded ones".
- A reservation's checkout line is a plain id here, never null.
- `check_stock_quantity_bulk` declares `variants`, `quantities` and `existing_lines` as
  `Iterable` and reads `variants` and `existing_lines` twice each (lines 77 and 102, lines
  93 and 100). The model takes all three as lists; a one-shot iterator, which the first
  read would exhaust so that `zip` yields no pairs and nothing is ever reported, is not
  modelled.
- Wall-clock time: `now` is a parameter.
- `InsufficientStock` and `InsufficientStockData` are not modelled as exceptions; raising
  is returning `InsufficientStock(items)`, and an entry keeps only the variant and the
  available quantity.
- The order of the grouped reservation rows is not fixed by the query; the model takes
  first-occurrence order, and states the per-variant result independently of it.
- Reading `variant_reservations[variant.pk]` inserts a 0 into the `defaultdict`; the map is
  not used afterwards, so the model reads with a default instead.
- The `NameError` that line 190 would raise is not reproduced (see above).
- Concurrency: the module reads a snapshot; the race between this check and the writers
  that allocate stock belongs to other components.
- Reservations.GetReservedQuantity: its contract states only the zero case; how the sum
  adds up, which reservations it skips and how it moves with the filter are the lemmas
  `SumCountedAppend`, `SumCountedNarrowing` and `ExpiredReservationsDoNotCount`.
