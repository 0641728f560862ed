/** The reservation aggregator: how much of a set of stocks is held by active
    reservations, in total (`get_reserved_quantity`) and per variant
    (`get_reserved_quantity_bulk`). */
module Reservations {
  import opened Lookup
  import opened Aggregates
  import opened Models

  /** Which reservations a query counts: those on one of `stockIds` (`stock__in`),
      not expired at `now`, and not held by one of `excludedLines`. */
  datatype ReservationFilter = ReservationFilter(stockIds: set<int>, excludedLines: set<int>, now: int)

  predicate Counted(r: Reservation, f: ReservationFilter)
  {
    r.stockId in f.stockIds && NotExpired(r, f.now) && NotExcluded(r, f.excludedLines)
  }

  /** `Coalesce(Sum("quantity_reserved"), 0)` over the counted reservations. */
  function SumCounted(rs: seq<Reservation>, f: ReservationFilter): (q: nat)
    ensures (forall i :: 0 <= i < |rs| ==> !Counted(rs[i], f)) ==> q == 0
  {
    if rs == [] then 0
    else
      var r := rs[|rs| - 1];
      SumCounted(rs[..|rs| - 1], f) + (if Counted(r, f) then r.quantityReserved else 0)
  }

  /** The filter of `get_reserved_quantity(stocks, lines)`. */
  function ScalarFilter(stocks: seq<Stock>, lines: seq<CheckoutLine>, now: int): ReservationFilter
  {
    ReservationFilter(StockIds(stocks), LineIds(lines), now)
  }

  /** `get_reserved_quantity`: the quantity reserved on `stocks` by unexpired reservations
      of lines other than `lines` (None for `lines` is the empty sequence). */
  function GetReservedQuantity(stocks: seq<Stock>, reservations: seq<Reservation>, lines: seq<CheckoutLine>, now: int): (q: nat)
    ensures (forall i :: 0 <= i < |reservations| ==> !Counted(reservations[i], ScalarFilter(stocks, lines, now))) ==> q == 0
  {
    SumCounted(reservations, ScalarFilter(stocks, lines, now))
  }

  /** The reserved sum splits over concatenation: each reservation contributes on its own. */
  lemma {:induction false} SumCountedAppend(a: seq<Reservation>, b: seq<Reservation>, f: ReservationFilter)
    ensures SumCounted(a + b, f) == SumCounted(a, f) + SumCounted(b, f)
    decreases |b|
  {
    if b == [] {
      assert a + b == a;
    } else {
      SumCountedAppend(a, b[..|b| - 1], f);
      assert (a + b)[..|a + b| - 1] == a + b[..|b| - 1];
    }
  }

  /** Fewer stocks, more excluded lines or a later clock never raise the reserved sum. */
  lemma {:induction false} SumCountedNarrowing(rs: seq<Reservation>, f: ReservationFilter, g: ReservationFilter)
    requires g.stockIds <= f.stockIds && f.excludedLines <= g.excludedLines && f.now <= g.now
    ensures SumCounted(rs, g) <= SumCounted(rs, f)
  {
    if rs != [] {
      SumCountedNarrowing(rs[..|rs| - 1], f, g);
    }
  }

  // ---------------------------------------------------------------------------
  // Bulk form

  /** The stock ids of the counted reservations, in order, repeats kept. */
  function CountedStockIds(rs: seq<Reservation>, f: ReservationFilter): (ids: seq<int>)
    ensures forall i :: 0 <= i < |rs| && Counted(rs[i], f) ==> rs[i].stockId in ids
    ensures forall sid :: sid in ids ==> exists i :: 0 <= i < |rs| && Counted(rs[i], f) && rs[i].stockId == sid
  {
    if rs == [] then []
    else
      var r := rs[|rs| - 1];
      var prefix := CountedStockIds(rs[..|rs| - 1], f);
      if Counted(r, f) then prefix + [r.stockId] else prefix
  }

  /** Total quantity of the counted reservations on one stock. */
  function ReservedOnStock(rs: seq<Reservation>, f: ReservationFilter, stockId: int): nat
  {
    if rs == [] then 0
    else
      var r := rs[|rs| - 1];
      ReservedOnStock(rs[..|rs| - 1], f, stockId)
        + (if Counted(r, f) && r.stockId == stockId then r.quantityReserved else 0)
  }

  /** One row of `.values("stock_id").annotate(quantity_reserved=...)`. */
  datatype StockReservations = StockReservations(stockId: int, quantityReserved: nat)

  function RowsFor(ids: seq<int>, rs: seq<Reservation>, f: ReservationFilter): seq<StockReservations>
  {
    seq(|ids|, j requires 0 <= j < |ids| => StockReservations(ids[j], ReservedOnStock(rs, f, ids[j])))
  }

  /** The grouped query of `get_reserved_quantity_bulk`: one row per stock that holds a
      counted reservation, with that stock's reserved total. Row order is the order in
      which stocks first occur; the per-variant result does not depend on it. */
  function ReservationRows(rs: seq<Reservation>, f: ReservationFilter): seq<StockReservations>
  {
    RowsFor(Distinct(CountedStockIds(rs, f)), rs, f)
  }

  /** `{stock.id: stock.product_variant_id for stock in stocks}`; a later stock with the
      same id overwrites an earlier one. */
  function StockVariants(stocks: seq<Stock>): (sv: map<int, int>)
    ensures sv.Keys == StockIds(stocks)
  {
    if stocks == [] then map[]
    else
      var s := stocks[|stocks| - 1];
      var prefix := stocks[..|stocks| - 1];
      assert StockIds(stocks) == StockIds(prefix) + {s.id} by {
        assert forall t :: t in stocks <==> t in prefix || t == s;
      }
      StockVariants(prefix)[s.id := s.productVariantId]
  }

  /** One pass of the loop body: add a row's total to its stock's variant, skipping a
      stock whose variant is unknown or falsy (`if variant_id:`). */
  function AddRow(reserved: map<int, nat>, row: StockReservations, stockVariants: map<int, int>): map<int, nat>
  {
    var variantId := Get(stockVariants, row.stockId);
    if variantId.Some? && variantId.value != 0 then
      reserved[variantId.value := GetOr(reserved, variantId.value, 0) + row.quantityReserved]
    else
      reserved
  }

  /** The `defaultdict(int)` after the loop has consumed `rows`. */
  function FoldRows(rows: seq<StockReservations>, stockVariants: map<int, int>): (reserved: map<int, nat>)
    ensures 0 !in reserved
  {
    if rows == [] then map[]
    else AddRow(FoldRows(rows[..|rows| - 1], stockVariants), rows[|rows| - 1], stockVariants)
  }

  /** The filter of `get_reserved_quantity_bulk(stocks, lines)`: the excluded lines are
      the checkout lines of the function's own `lines` argument. */
  function BulkFilter(stocks: seq<Stock>, lines: seq<CheckoutLineInfo>, now: int): ReservationFilter
  {
    ReservationFilter(StockIds(stocks), LineIds(CheckoutLinesOf(lines)), now)
  }

  /** The map `get_reserved_quantity_bulk` returns. */
  function ReservedByVariant(stocks: seq<Stock>, reservations: seq<Reservation>, lines: seq<CheckoutLineInfo>, now: int): map<int, nat>
  {
    if stocks == [] then map[]
    else FoldRows(ReservationRows(reservations, BulkFilter(stocks, lines, now)), StockVariants(stocks))
  }

  /** Reference definition: the quantity of the counted reservations whose stock belongs
      to variant `v`, summed reservation by reservation. */
  function VariantReserved(rs: seq<Reservation>, f: ReservationFilter, stockVariants: map<int, int>, v: int): (q: nat)
    ensures (forall i :: 0 <= i < |rs| ==> !Counted(rs[i], f)) ==> q == 0
  {
    if rs == [] then 0
    else
      var r := rs[|rs| - 1];
      VariantReserved(rs[..|rs| - 1], f, stockVariants, v)
        + (if Counted(r, f) && r.stockId in stockVariants && stockVariants[r.stockId] == v then r.quantityReserved else 0)
  }

  // Regrouping: summing per-stock totals per variant equals summing reservations per variant.

  function GroupedTotal(ids: seq<int>, rs: seq<Reservation>, f: ReservationFilter, stockVariants: map<int, int>, v: int): nat
  {
    if ids == [] then 0
    else
      var d := ids[|ids| - 1];
      GroupedTotal(ids[..|ids| - 1], rs, f, stockVariants, v)
        + (if d in stockVariants && stockVariants[d] == v then ReservedOnStock(rs, f, d) else 0)
  }

  function HitQuantity(ids: seq<int>, r: Reservation, stockVariants: map<int, int>, v: int): nat
  {
    if ids == [] then 0
    else
      var d := ids[|ids| - 1];
      HitQuantity(ids[..|ids| - 1], r, stockVariants, v)
        + (if d == r.stockId && d in stockVariants && stockVariants[d] == v then r.quantityReserved else 0)
  }

  lemma {:induction false} FoldRowsPerVariant(ids: seq<int>, rs: seq<Reservation>, f: ReservationFilter, stockVariants: map<int, int>, v: int)
    requires v != 0
    ensures GetOr(FoldRows(RowsFor(ids, rs, f), stockVariants), v, 0) == GroupedTotal(ids, rs, f, stockVariants, v)
  {
    if ids != [] {
      var prefix := ids[..|ids| - 1];
      FoldRowsPerVariant(prefix, rs, f, stockVariants, v);
      assert RowsFor(ids, rs, f)[..|ids| - 1] == RowsFor(prefix, rs, f);
    }
  }

  lemma {:induction false} HitQuantityOnce(ids: seq<int>, r: Reservation, stockVariants: map<int, int>, v: int)
    requires NoDuplicates(ids)
    ensures HitQuantity(ids, r, stockVariants, v)
         == if r.stockId in ids && r.stockId in stockVariants && stockVariants[r.stockId] == v then r.quantityReserved else 0
  {
    if ids != [] {
      var prefix := ids[..|ids| - 1];
      assert NoDuplicates(prefix);
      HitQuantityOnce(prefix, r, stockVariants, v);
      assert forall x :: x in ids <==> x in prefix || x == ids[|ids| - 1];
    }
  }

  lemma {:induction false} GroupedTotalEmpty(ids: seq<int>, f: ReservationFilter, stockVariants: map<int, int>, v: int)
    ensures GroupedTotal(ids, [], f, stockVariants, v) == 0
  {
    if ids != [] {
      GroupedTotalEmpty(ids[..|ids| - 1], f, stockVariants, v);
    }
  }

  lemma {:induction false} GroupedTotalSnoc(ids: seq<int>, rs: seq<Reservation>, f: ReservationFilter, stockVariants: map<int, int>, v: int)
    requires rs != []
    ensures GroupedTotal(ids, rs, f, stockVariants, v)
         == GroupedTotal(ids, rs[..|rs| - 1], f, stockVariants, v)
            + (if Counted(rs[|rs| - 1], f) then HitQuantity(ids, rs[|rs| - 1], stockVariants, v) else 0)
  {
    if ids != [] {
      GroupedTotalSnoc(ids[..|ids| - 1], rs, f, stockVariants, v);
    }
  }

  lemma {:induction false} GroupedTotalIsVariantReserved(ids: seq<int>, rs: seq<Reservation>, f: ReservationFilter, stockVariants: map<int, int>, v: int)
    requires NoDuplicates(ids)
    requires forall i :: 0 <= i < |rs| && Counted(rs[i], f) ==> rs[i].stockId in ids
    ensures GroupedTotal(ids, rs, f, stockVariants, v) == VariantReserved(rs, f, stockVariants, v)
  {
    if rs == [] {
      GroupedTotalEmpty(ids, f, stockVariants, v);
    } else {
      var prefix := rs[..|rs| - 1];
      GroupedTotalIsVariantReserved(ids, prefix, f, stockVariants, v);
      GroupedTotalSnoc(ids, rs, f, stockVariants, v);
      HitQuantityOnce(ids, rs[|rs| - 1], stockVariants, v);
    }
  }

  /** Folding one row per stock id, in any order and each id once, gives every truthy
      variant the quantity of its counted reservations: the grouped query's row order
      does not matter. */
  lemma AnyRowOrder(ids: seq<int>, rs: seq<Reservation>, f: ReservationFilter, stockVariants: map<int, int>, v: int)
    requires v != 0 && NoDuplicates(ids)
    requires forall i :: 0 <= i < |rs| && Counted(rs[i], f) ==> rs[i].stockId in ids
    ensures GetOr(FoldRows(RowsFor(ids, rs, f), stockVariants), v, 0) == VariantReserved(rs, f, stockVariants, v)
  {
    FoldRowsPerVariant(ids, rs, f, stockVariants, v);
    GroupedTotalIsVariantReserved(ids, rs, f, stockVariants, v);
  }

  /** The map `get_reserved_quantity_bulk` builds holds, for every truthy variant id, the
      quantity of that variant's counted reservations. */
  lemma ReservedByVariantPerVariant(stocks: seq<Stock>, reservations: seq<Reservation>, lines: seq<CheckoutLineInfo>, now: int, v: int)
    requires v != 0
    ensures GetOr(ReservedByVariant(stocks, reservations, lines, now), v, 0)
         == VariantReserved(reservations, BulkFilter(stocks, lines, now), StockVariants(stocks), v)
  {
    var f := BulkFilter(stocks, lines, now);
    if stocks == [] {
      assert f.stockIds == {};
    } else {
      AnyRowOrder(Distinct(CountedStockIds(reservations, f)), reservations, f, StockVariants(stocks), v);
    }
  }

  // Agreement with the scalar form.

  /** The stocks of variant `v`, in order. */
  function VariantStocks(stocks: seq<Stock>, v: int): seq<Stock>
  {
    if stocks == [] then []
    else
      var s := stocks[|stocks| - 1];
      VariantStocks(stocks[..|stocks| - 1], v) + (if s.productVariantId == v then [s] else [])
  }

  /** `[line.line for line in lines]`. */
  function CheckoutLinesOf(lines: seq<CheckoutLineInfo>): seq<CheckoutLine>
  {
    seq(|lines|, i requires 0 <= i < |lines| => lines[i].line)
  }

  predicate UniqueStockIds(stocks: seq<Stock>)
  {
    forall i, j :: 0 <= i < j < |stocks| ==> stocks[i].id != stocks[j].id
  }

  lemma {:induction false} VariantStockIds(stocks: seq<Stock>, v: int)
    requires UniqueStockIds(stocks)
    ensures StockIds(VariantStocks(stocks, v)) <= StockIds(stocks)
    ensures forall sid :: sid in StockIds(VariantStocks(stocks, v)) <==>
              sid in StockVariants(stocks) && StockVariants(stocks)[sid] == v
  {
    if stocks != [] {
      var s := stocks[|stocks| - 1];
      var prefix := stocks[..|stocks| - 1];
      VariantStockIds(prefix, v);
      assert StockIds(stocks) == StockIds(prefix) + {s.id} by {
        assert forall t :: t in stocks <==> t in prefix || t == s;
      }
      var mine := VariantStocks(stocks, v);
      assert StockIds(mine) == StockIds(VariantStocks(prefix, v)) + (if s.productVariantId == v then {s.id} else {}) by {
        assert forall t :: t in mine <==> t in VariantStocks(prefix, v) || (t == s && s.productVariantId == v);
      }
      assert s.id !in StockIds(prefix) by {
        forall t | t in prefix ensures t.id != s.id {
          var i :| 0 <= i < |prefix| && prefix[i] == t;
          assert stocks[i] == t;
        }
      }
    }
  }

  lemma {:induction false} VariantReservedIsSumCounted(rs: seq<Reservation>, f: ReservationFilter, stockVariants: map<int, int>, v: int, g: ReservationFilter)
    requires g.now == f.now && g.excludedLines == f.excludedLines
    requires forall sid :: sid in g.stockIds <==> sid in f.stockIds && sid in stockVariants && stockVariants[sid] == v
    ensures VariantReserved(rs, f, stockVariants, v) == SumCounted(rs, g)
  {
    if rs != [] {
      VariantReservedIsSumCounted(rs[..|rs| - 1], f, stockVariants, v, g);
    }
  }

  /** Per variant, the bulk map holds what `get_reserved_quantity` gives for that variant's
      stocks with the same excluded lines, provided stock ids are unique (they are primary keys). */
  lemma BulkAgreesWithScalar(stocks: seq<Stock>, reservations: seq<Reservation>, lines: seq<CheckoutLineInfo>, now: int, v: int)
    requires v != 0
    requires UniqueStockIds(stocks)
    ensures GetOr(ReservedByVariant(stocks, reservations, lines, now), v, 0)
         == GetReservedQuantity(VariantStocks(stocks, v), reservations, CheckoutLinesOf(lines), now)
  {
    ReservedByVariantPerVariant(stocks, reservations, lines, now, v);
    VariantStockIds(stocks, v);
    var g := ScalarFilter(VariantStocks(stocks, v), CheckoutLinesOf(lines), now);
    VariantReservedIsSumCounted(reservations, BulkFilter(stocks, lines, now), StockVariants(stocks), v, g);
  }

  /** Only active reservations count: an active hold of 3 and an expired one of 5 on the
      same stock reserve 3. */
  lemma ExpiredReservationsDoNotCount(s: Stock, active: Reservation, expired: Reservation, now: int)
    requires active.stockId == s.id && expired.stockId == s.id
    requires active.quantityReserved == 3 && active.reservedUntil > now
    requires expired.quantityReserved == 5 && expired.reservedUntil <= now
    ensures GetReservedQuantity([s], [active, expired], [], now) == 3
  {
    var f := ScalarFilter([s], [], now);
    assert StockIds([s]) == {s.id} && LineIds([]) == {};
    assert Counted(active, f) && !Counted(expired, f);
    assert [active, expired][..1] == [active] && [active][..0] == [];
    assert SumCounted([active], f) == 3;
  }

  /** `get_reserved_quantity_bulk`: a `defaultdict(int)` from variant id to reserved quantity.
      It is empty for no stocks; otherwise it adds each grouped row to its stock's variant. */
  method GetReservedQuantityBulk(stocks: seq<Stock>, reservations: seq<Reservation>, lines: seq<CheckoutLineInfo>, now: int)
    returns (reserved: map<int, nat>)
    ensures reserved == ReservedByVariant(stocks, reservations, lines, now)
    ensures stocks == [] ==> reserved == map[]
    ensures 0 !in reserved
    ensures forall v :: v != 0 ==>
              GetOr(reserved, v, 0) == VariantReserved(reservations, BulkFilter(stocks, lines, now), StockVariants(stocks), v)
  {
    reserved := map[];
    if stocks != [] {
      var result := ReservationRows(reservations, BulkFilter(stocks, lines, now));
      var stocksVariants := StockVariants(stocks);
      var i := 0;
      while i < |result|
        invariant 0 <= i <= |result|
        invariant reserved == FoldRows(result[..i], stocksVariants)
      {
        var row := result[i];
        assert result[..i + 1][..i] == result[..i];
        assert FoldRows(result[..i + 1], stocksVariants) == AddRow(reserved, row, stocksVariants);
        var variantId := Get(stocksVariants, row.stockId);
        if variantId.Some? && variantId.value != 0 {
          reserved := reserved[variantId.value := GetOr(reserved, variantId.value, 0) + row.quantityReserved];
        }
        i := i + 1;
      }
      assert result[..i] == result;
    }
    forall v | v != 0
      ensures GetOr(reserved, v, 0) == VariantReserved(reservations, BulkFilter(stocks, lines, now), StockVariants(stocks), v)
    {
      ReservedByVariantPerVariant(stocks, reservations, lines, now, v);
    }
  }
}
