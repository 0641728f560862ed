/** The availability calculator and the single-variant checks: how much of a variant
    can still be promised from a set of stock rows, and whether a requested quantity fits. */
module Availability {
  import opened Lookup
  import opened Aggregates
  import opened Models
  import opened Reservations

  function Quantities(stocks: seq<Stock>): seq<int>
  {
    seq(|stocks|, i requires 0 <= i < |stocks| => stocks[i].quantity)
  }

  /** `Coalesce(Sum("quantity", distinct=True), 0)`: SQL SUM(DISTINCT quantity), which adds
      each distinct quantity VALUE once, not each stock row once. */
  function TotalQuantity(stocks: seq<Stock>): int
  {
    SumDistinct(Quantities(stocks))
  }

  /** `Coalesce(Sum("allocations__quantity_allocated"), 0)`: every allocation of every stock. */
  function QuantityAllocated(stocks: seq<Stock>): nat
  {
    if stocks == [] then 0
    else
      var s := stocks[|stocks| - 1];
      SumNonNegative(s.allocations);
      QuantityAllocated(stocks[..|stocks| - 1]) + Sum(s.allocations)
  }

  function QuantityReserved(stocks: seq<Stock>, reservations: seq<Reservation>, checkoutLines: seq<CheckoutLine>,
                            checkReservations: bool, now: int): nat
  {
    if checkReservations then GetReservedQuantity(stocks, reservations, checkoutLines, now) else 0
  }

  /** `_get_available_quantity`: on hand minus allocated minus (when asked for) reserved,
      and never below zero. */
  function AvailableQuantity(stocks: seq<Stock>, reservations: seq<Reservation>, checkoutLines: seq<CheckoutLine>,
                             checkReservations: bool, now: int): (available: int)
    ensures available >= 0
    ensures available >= TotalQuantity(stocks) - QuantityAllocated(stocks)
                         - QuantityReserved(stocks, reservations, checkoutLines, checkReservations, now)
    ensures available == 0
         || available == TotalQuantity(stocks) - QuantityAllocated(stocks)
                         - QuantityReserved(stocks, reservations, checkoutLines, checkReservations, now)
    ensures !checkReservations ==> available == Max0(TotalQuantity(stocks) - QuantityAllocated(stocks))
  {
    Max0(TotalQuantity(stocks) - QuantityAllocated(stocks)
         - QuantityReserved(stocks, reservations, checkoutLines, checkReservations, now))
  }

  /** Counting reservations can only lower availability, and by at most what is reserved. */
  lemma ReservationsLowerAvailability(stocks: seq<Stock>, reservations: seq<Reservation>, checkoutLines: seq<CheckoutLine>, now: int)
    ensures AvailableQuantity(stocks, reservations, checkoutLines, true, now)
         <= AvailableQuantity(stocks, reservations, checkoutLines, false, now)
    ensures AvailableQuantity(stocks, reservations, checkoutLines, false, now)
         <= AvailableQuantity(stocks, reservations, checkoutLines, true, now)
            + GetReservedQuantity(stocks, reservations, checkoutLines, now)
  {
  }

  /** Excluding more checkout lines (so that their own holds are not counted) never
      lowers availability. */
  lemma ExcludingMoreLinesNeverLowersAvailability(stocks: seq<Stock>, reservations: seq<Reservation>,
                                                  lines: seq<CheckoutLine>, moreLines: seq<CheckoutLine>,
                                                  checkReservations: bool, now: int)
    requires LineIds(lines) <= LineIds(moreLines)
    ensures AvailableQuantity(stocks, reservations, lines, checkReservations, now)
         <= AvailableQuantity(stocks, reservations, moreLines, checkReservations, now)
  {
    SumCountedNarrowing(reservations, ScalarFilter(stocks, lines, now), ScalarFilter(stocks, moreLines, now));
  }

  /** As the clock advances and reservations expire, availability never drops. */
  lemma AvailabilityNeverDropsAsReservationsExpire(stocks: seq<Stock>, reservations: seq<Reservation>,
                                                   lines: seq<CheckoutLine>, checkReservations: bool,
                                                   now: int, later: int)
    requires now <= later
    ensures AvailableQuantity(stocks, reservations, lines, checkReservations, now)
         <= AvailableQuantity(stocks, reservations, lines, checkReservations, later)
  {
    SumCountedNarrowing(reservations, ScalarFilter(stocks, lines, now), ScalarFilter(stocks, lines, later));
  }

  /** The on-hand total is the plain sum of the stock quantities when no two stocks hold
      the same quantity, and never more than that sum otherwise. */
  lemma {:induction false} TotalQuantityAgainstRowSum(stocks: seq<Stock>)
    ensures 0 <= TotalQuantity(stocks) <= Sum(Quantities(stocks))
    ensures NoDuplicates(Quantities(stocks)) ==> TotalQuantity(stocks) == Sum(Quantities(stocks))
  {
    SumDistinctAtMostSum(Quantities(stocks));
    if NoDuplicates(Quantities(stocks)) {
      SumDistinctOfDistinctValues(Quantities(stocks));
    }
  }

  /** SUM(DISTINCT quantity) counts a repeated quantity once: two unallocated stocks of 5
      each give an on-hand total, and an availability, of 5 rather than 10. */
  lemma EqualQuantitiesCountOnce(a: Stock, b: Stock)
    requires a.quantity == 5 && b.quantity == 5 && a.allocations == [] && b.allocations == []
    ensures TotalQuantity([a, b]) == 5 && Sum(Quantities([a, b])) == 10
    ensures AvailableQuantity([a, b], [], [], false, 0) == 5
  {
    var qs := Quantities([a, b]);
    assert qs == [5, 5];
    assert qs[..1] == [5] && [5][..0] == [];
    assert Distinct([5]) == [5];
    assert Distinct(qs) == [5];
    assert Sum([5]) == 5;
    assert Sum(qs) == 10;
    assert [a, b][..1] == [a] && [a][..0] == [];
    assert QuantityAllocated([a]) == 0;
    assert QuantityAllocated([a, b]) == 0;
  }

  /** `get_available_quantity`: 0 when no stock serves the variant, otherwise the
      calculator's value. */
  function GetAvailableQuantity(stocks: seq<Stock>, reservations: seq<Reservation>, currentCheckoutLines: seq<CheckoutLine>,
                                checkReservations: bool, now: int): (available: int)
    ensures available >= 0
    ensures stocks == [] ==> available == 0
    ensures stocks != [] ==> available == AvailableQuantity(stocks, reservations, currentCheckoutLines, checkReservations, now)
  {
    if stocks == [] then 0
    else AvailableQuantity(stocks, reservations, currentCheckoutLines, checkReservations, now)
  }

  /** The early return for no stocks is only a shortcut: the calculator gives 0 there too,
      because with no stocks no reservation is counted. */
  lemma {:induction false} ShortcutAgreesWithCalculator(stocks: seq<Stock>, reservations: seq<Reservation>,
                                                        lines: seq<CheckoutLine>, checkReservations: bool, now: int)
    ensures GetAvailableQuantity(stocks, reservations, lines, checkReservations, now)
         == AvailableQuantity(stocks, reservations, lines, checkReservations, now)
  {
    if stocks == [] {
      assert Quantities(stocks) == [];
      assert TotalQuantity(stocks) == 0;
    }
  }

  /** A session's own hold is not counted against it: 10 on hand, nothing allocated and a
      hold of 4 by line `line` leave 10 available to that line and 6 to everyone else. */
  lemma OwnReservationNotCountedAgainstItself(s: Stock, r: Reservation, line: CheckoutLine, now: int)
    requires s.quantity == 10 && s.allocations == []
    requires r.stockId == s.id && r.quantityReserved == 4 && r.reservedUntil > now && r.checkoutLineId == line.id
    ensures GetAvailableQuantity([s], [r], [line], true, now) == 10
    ensures GetAvailableQuantity([s], [r], [], true, now) == 6
  {
    assert Quantities([s]) == [10] && [10][..0] == [];
    assert TotalQuantity([s]) == 10;
    assert [s][..0] == [] && QuantityAllocated([s]) == 0;
    assert StockIds([s]) == {s.id} && LineIds([line]) == {line.id};
    assert [r][..0] == [];
  }

  /** `check_stock_quantity`: an untracked variant always passes; a tracked one fails when
      no stock serves it or when the request exceeds what is available. */
  function CheckStockQuantity(variant: ProductVariant, quantity: int, stocks: seq<Stock>, reservations: seq<Reservation>,
                              checkoutLines: seq<CheckoutLine>, checkReservations: bool, now: int): (r: StockCheck)
    ensures r.Sufficient? <==>
              !variant.trackInventory
              || (stocks != [] && quantity <= GetAvailableQuantity(stocks, reservations, checkoutLines, checkReservations, now))
    ensures r.InsufficientStock? ==> r.items == [InsufficientStockData(variant, None)]
  {
    if variant.trackInventory then
      if stocks == [] then
        InsufficientStock([InsufficientStockData(variant, None)])
      else
        var availableQuantity := AvailableQuantity(stocks, reservations, checkoutLines, checkReservations, now);
        if quantity > availableQuantity then InsufficientStock([InsufficientStockData(variant, None)])
        else Sufficient
    else
      Sufficient
  }

  /** `is_product_in_stock`: `any(...)` over the annotated available quantities, so a stock
      counts when its value is truthy, that is, non-zero. */
  function IsProductInStock(stocks: seq<AnnotatedStock>): (inStock: bool)
    ensures inStock <==> exists i :: 0 <= i < |stocks| && stocks[i].availableQuantity != 0
  {
    if stocks == [] then false
    else
      var rest := IsProductInStock(stocks[1..]);
      assert forall i :: 0 < i < |stocks| ==> stocks[1..][i - 1] == stocks[i];
      stocks[0].availableQuantity != 0 || rest
  }
}
