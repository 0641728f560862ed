/** The warehouse records that the availability functions read, as plain values.
    Database identities (`pk`, `id`) are integers; quantity columns are non-negative. */
module Models {
  import opened Lookup

  /** A sellable variant: its primary key and whether its inventory is tracked. */
  datatype ProductVariant = ProductVariant(pk: int, trackInventory: bool)

  /** A stock row: one warehouse's quantity of one variant, with the `quantity_allocated`
      of each allocation row that points at it. */
  datatype Stock = Stock(id: int, productVariantId: int, quantity: nat, allocations: seq<nat>)

  /** A stock row carrying the value `annotate_available_quantity()` attaches to it. */
  datatype AnnotatedStock = AnnotatedStock(stock: Stock, availableQuantity: int)

  datatype CheckoutLine = CheckoutLine(id: int, quantity: int)

  /** What the checkout code passes as an existing line: the line and its variant. */
  datatype CheckoutLineInfo = CheckoutLineInfo(line: CheckoutLine, variant: ProductVariant)

  /** A time-bound hold on a stock by one checkout line. */
  datatype Reservation = Reservation(stockId: int, checkoutLineId: int, quantityReserved: nat, reservedUntil: int)

  /** One entry of an `InsufficientStock` error. The single-variant check does not fill in
      the available quantity; the bulk check does. */
  datatype InsufficientStockData = InsufficientStockData(variant: ProductVariant, availableQuantity: Option<int>)

  /** The outcome of a check: return normally, or raise `InsufficientStock` with its entries. */
  datatype StockCheck = Sufficient | InsufficientStock(items: seq<InsufficientStockData>)

  /** `Reservation.objects.not_expired()`, with the clock passed in as `now`. */
  predicate NotExpired(r: Reservation, now: int)
  {
    r.reservedUntil > now
  }

  /** `exclude_checkout_lines(lines)`: drop the reservations held by the given lines. */
  predicate NotExcluded(r: Reservation, excludedLines: set<int>)
  {
    r.checkoutLineId !in excludedLines
  }

  function StockIds(stocks: seq<Stock>): set<int>
  {
    set s | s in stocks :: s.id
  }

  function LineIds(lines: seq<CheckoutLine>): set<int>
  {
    set l | l in lines :: l.id
  }

  function Unannotated(stocks: seq<AnnotatedStock>): seq<Stock>
  {
    seq(|stocks|, i requires 0 <= i < |stocks| => stocks[i].stock)
  }
}
