/** `check_stock_quantity_bulk`: check many (variant, quantity) requests at once against
    the annotated stocks of all of them, collecting every shortfall into one error. */
module BulkCheck {
  import opened Lookup
  import opened Aggregates
  import opened Models
  import opened Reservations

  /** The stocks of one variant, in query order: what `variant_stocks[pk]` holds once the
      grouping loop has run. */
  function StocksForVariant(stocks: seq<AnnotatedStock>, pk: int): seq<AnnotatedStock>
  {
    if stocks == [] then []
    else
      var s := stocks[|stocks| - 1];
      StocksForVariant(stocks[..|stocks| - 1], pk) + (if s.stock.productVariantId == pk then [s] else [])
  }

  /** Grouping keeps exactly the stocks of the variant, each where it was. */
  lemma {:induction false} StocksForVariantMembers(stocks: seq<AnnotatedStock>, pk: int)
    ensures forall s :: s in StocksForVariant(stocks, pk) <==> s in stocks && s.stock.productVariantId == pk
    ensures |StocksForVariant(stocks, pk)| <= |stocks|
  {
    if stocks != [] {
      var prefix := stocks[..|stocks| - 1];
      StocksForVariantMembers(prefix, pk);
      assert forall t :: t in stocks <==> t in prefix || t == stocks[|stocks| - 1];
    }
  }

  /** `variant_stocks`: each stock appended, in order, to the list of its variant. */
  method GroupStocksByVariant(allVariantsStocks: seq<AnnotatedStock>) returns (variantStocks: map<int, seq<AnnotatedStock>>)
    ensures forall pk :: GetOr(variantStocks, pk, []) == StocksForVariant(allVariantsStocks, pk)
  {
    variantStocks := map[];
    var i := 0;
    while i < |allVariantsStocks|
      invariant 0 <= i <= |allVariantsStocks|
      invariant forall pk :: GetOr(variantStocks, pk, []) == StocksForVariant(allVariantsStocks[..i], pk)
    {
      var stock := allVariantsStocks[i];
      variantStocks := variantStocks[stock.stock.productVariantId := GetOr(variantStocks, stock.stock.productVariantId, []) + [stock]];
      assert allVariantsStocks[..i + 1][..i] == allVariantsStocks[..i];
      i := i + 1;
    }
    assert allVariantsStocks[..i] == allVariantsStocks;
  }

  /** `sum([stock.available_quantity for stock in stocks])`. */
  function SumAvailable(stocks: seq<AnnotatedStock>): int
  {
    if stocks == [] then 0 else SumAvailable(stocks[..|stocks| - 1]) + stocks[|stocks| - 1].availableQuantity
  }

  /** `{line.variant.pk: line.line.quantity for line in existing_lines}`. */
  function ExistingQuantities(lines: seq<CheckoutLineInfo>): map<int, int>
  {
    if lines == [] then map[]
    else
      var l := lines[|lines| - 1];
      ExistingQuantities(lines[..|lines| - 1])[l.variant.pk := l.line.quantity]
  }

  /** Line `i` is the last of `lines` for variant `pk`. */
  ghost predicate IsLastLineFor(lines: seq<CheckoutLineInfo>, i: int, pk: int)
  {
    0 <= i < |lines| && lines[i].variant.pk == pk && forall j :: i < j < |lines| ==> lines[j].variant.pk != pk
  }

  /** The dict has a key for exactly the variants of the existing lines. */
  lemma {:induction false} ExistingQuantitiesKeys(lines: seq<CheckoutLineInfo>, pk: int)
    ensures pk in ExistingQuantities(lines) <==> exists i :: 0 <= i < |lines| && lines[i].variant.pk == pk
  {
    if lines != [] {
      var n := |lines|;
      var prefix := lines[..n - 1];
      assert ExistingQuantities(lines) == ExistingQuantities(prefix)[lines[n - 1].variant.pk := lines[n - 1].line.quantity];
      ExistingQuantitiesKeys(prefix, pk);
      if exists i :: 0 <= i < |prefix| && prefix[i].variant.pk == pk {
        var i :| 0 <= i < |prefix| && prefix[i].variant.pk == pk;
        assert lines[i] == prefix[i];
      }
      if exists i :: 0 <= i < n - 1 && lines[i].variant.pk == pk {
        var i :| 0 <= i < n - 1 && lines[i].variant.pk == pk;
        assert prefix[i] == lines[i];
      }
    }
  }

  /** A variant has at most one last line. */
  lemma LastLineUnique(lines: seq<CheckoutLineInfo>, i: int, j: int, pk: int)
    requires IsLastLineFor(lines, i, pk) && IsLastLineFor(lines, j, pk)
    ensures i == j
  {
  }

  /** When several lines share a variant, the comprehension keeps the last one's quantity. */
  lemma {:induction false} ExistingQuantitiesKeepLast(lines: seq<CheckoutLineInfo>, pk: int)
    ensures pk in ExistingQuantities(lines) ==>
              exists i :: IsLastLineFor(lines, i, pk) && ExistingQuantities(lines)[pk] == lines[i].line.quantity
  {
    if lines != [] {
      var n := |lines|;
      var prefix := lines[..n - 1];
      var m' := ExistingQuantities(prefix);
      assert ExistingQuantities(lines) == m'[lines[n - 1].variant.pk := lines[n - 1].line.quantity];
      if lines[n - 1].variant.pk == pk {
        assert IsLastLineFor(lines, n - 1, pk);
      } else if pk in m' {
        ExistingQuantitiesKeepLast(prefix, pk);
        var i :| IsLastLineFor(prefix, i, pk) && m'[pk] == prefix[i].line.quantity;
        assert lines[i] == prefix[i];
        assert IsLastLineFor(lines, i, pk);
      }
    }
  }

  /** What the loop over the requests reads besides the request itself. */
  datatype BulkContext = BulkContext(
    stocks: seq<AnnotatedStock>,     // all_variants_stocks
    reserved: map<int, nat>,         // variant_reservations
    existing: map<int, int>,         // variants_quantities
    replace: bool)

  /** The context `check_stock_quantity_bulk` builds from its arguments. */
  function BulkContextOf(allVariantsStocks: seq<AnnotatedStock>, reservations: seq<Reservation>, now: int,
                         existingLines: seq<CheckoutLineInfo>, replace: bool, checkReservations: bool): BulkContext
  {
    BulkContext(
      allVariantsStocks,
      if checkReservations then ReservedByVariant(Unannotated(allVariantsStocks), reservations, existingLines, now) else map[],
      ExistingQuantities(existingLines),
      replace)
  }

  /** The quantity checked for a request: added to the existing line's quantity for the same
      variant (0 without one), or taken as it is when `replace` is set. */
  function RequestedQuantity(variant: ProductVariant, quantity: int, ctx: BulkContext): int
  {
    if ctx.replace then quantity else quantity + GetOr(ctx.existing, variant.pk, 0)
  }

  /** A variant's available quantity: its stocks' annotated quantities summed, less its
      reservations (0 when it has none), and floored at 0. */
  function VariantAvailable(variant: ProductVariant, ctx: BulkContext): (available: int)
    ensures available >= 0
    ensures StocksForVariant(ctx.stocks, variant.pk) == [] ==> available == 0
  {
    Max0(SumAvailable(StocksForVariant(ctx.stocks, variant.pk)) - GetOr(ctx.reserved, variant.pk, 0))
  }

  /** What one iteration of the request loop appends, if anything. */
  function LineFailure(variant: ProductVariant, quantity: int, ctx: BulkContext): Option<InsufficientStockData>
  {
    var stocks := StocksForVariant(ctx.stocks, variant.pk);
    var availableQuantity := VariantAvailable(variant, ctx);
    if stocks == [] then
      Some(InsufficientStockData(variant, Some(availableQuantity)))
    else if variant.trackInventory && RequestedQuantity(variant, quantity, ctx) > availableQuantity then
      Some(InsufficientStockData(variant, Some(availableQuantity)))
    else
      None
  }

  /** A variant without stocks is always reported, with 0 available, tracked or not; an
      untracked variant with stocks never is; a tracked one with stocks is reported exactly
      when the requested quantity exceeds what is available. A report carries the variant
      and its available quantity. */
  lemma LineFailureCases(variant: ProductVariant, quantity: int, ctx: BulkContext)
    ensures StocksForVariant(ctx.stocks, variant.pk) == [] ==>
              LineFailure(variant, quantity, ctx) == Some(InsufficientStockData(variant, Some(0)))
    ensures StocksForVariant(ctx.stocks, variant.pk) != [] && !variant.trackInventory ==>
              LineFailure(variant, quantity, ctx) == None
    ensures StocksForVariant(ctx.stocks, variant.pk) != [] && variant.trackInventory ==>
              (LineFailure(variant, quantity, ctx).Some? <==> RequestedQuantity(variant, quantity, ctx) > VariantAvailable(variant, ctx))
    ensures LineFailure(variant, quantity, ctx).Some? ==>
              LineFailure(variant, quantity, ctx).value == InsufficientStockData(variant, Some(VariantAvailable(variant, ctx)))
  {
  }

  function AsSeq<T>(o: Option<T>): seq<T>
  {
    match o
    case Some(x) => [x]
    case None => []
  }

  /** Appending what every step produced: the entries of the `Some`s, in order. */
  function Collect<T>(outcomes: seq<Option<T>>): seq<T>
  {
    if outcomes == [] then [] else Collect(outcomes[..|outcomes| - 1]) + AsSeq(outcomes[|outcomes| - 1])
  }

  /** Collecting a concatenation collects each part in turn. */
  lemma {:induction false} CollectAppend<T>(a: seq<Option<T>>, b: seq<Option<T>>)
    ensures Collect(a + b) == Collect(a) + Collect(b)
    decreases |b|
  {
    if b == [] {
      assert a + b == a;
    } else {
      var init := b[..|b| - 1];
      CollectAppend(a, init);
      assert (a + b)[..|a + b| - 1] == a + init;
      assert (a + b)[|a + b| - 1] == b[|b| - 1];
      assert Collect(b) == Collect(init) + AsSeq(b[|b| - 1]);
    }
  }

  /** Collecting one more step appends that step's entry, if any. */
  lemma CollectStep<T>(outcomes: seq<Option<T>>, j: int)
    requires 0 <= j < |outcomes|
    ensures Collect(outcomes[..j + 1]) == Collect(outcomes[..j]) + AsSeq(outcomes[j])
  {
    assert outcomes[..j + 1][..j] == outcomes[..j];
  }

  /** Every `Some` is collected, nothing else is, and there are at most as many entries as steps. */
  lemma {:induction false} CollectMembership<T>(outcomes: seq<Option<T>>)
    ensures forall j :: 0 <= j < |outcomes| && outcomes[j].Some? ==> outcomes[j].value in Collect(outcomes)
    ensures forall x :: x in Collect(outcomes) ==> exists j :: 0 <= j < |outcomes| && outcomes[j] == Some(x)
    ensures |Collect(outcomes)| <= |outcomes|
  {
    if outcomes != [] {
      var prefix := outcomes[..|outcomes| - 1];
      var last := outcomes[|outcomes| - 1];
      CollectMembership(prefix);
      assert Collect(outcomes) == Collect(prefix) + AsSeq(last);
      forall j | 0 <= j < |outcomes| && outcomes[j].Some?
        ensures outcomes[j].value in Collect(outcomes)
      {
        if j < |prefix| {
          assert prefix[j] == outcomes[j];
        } else {
          assert AsSeq(last) == [outcomes[j].value];
        }
      }
      forall x | x in Collect(outcomes)
        ensures exists j :: 0 <= j < |outcomes| && outcomes[j] == Some(x)
      {
        if x in Collect(prefix) {
          var j :| 0 <= j < |prefix| && prefix[j] == Some(x);
          assert outcomes[j] == Some(x);
        } else {
          assert x in AsSeq(last);
          assert outcomes[|outcomes| - 1] == Some(x);
        }
      }
    }
  }

  /** The number of pairs `zip(variants, quantities)` yields: the shorter length. */
  function PairCount(variants: seq<ProductVariant>, quantities: seq<int>): nat
  {
    if |variants| < |quantities| then |variants| else |quantities|
  }

  /** What each pair of `zip(variants, quantities)` contributes, in order. */
  function LineOutcomes(variants: seq<ProductVariant>, quantities: seq<int>, ctx: BulkContext): (os: seq<Option<InsufficientStockData>>)
    ensures |os| == PairCount(variants, quantities)
  {
    seq(PairCount(variants, quantities),
        j requires 0 <= j < PairCount(variants, quantities) => LineFailure(variants[j], quantities[j], ctx))
  }

  /** One step of the request loop: appending pair `j`'s shortfall, if any, to what the
      first `j` pairs collected gives what the first `j + 1` pairs collect. */
  lemma ShortfallStep(variants: seq<ProductVariant>, quantities: seq<int>, ctx: BulkContext, j: int,
                      failure: Option<InsufficientStockData>, before: seq<InsufficientStockData>)
    requires 0 <= j < PairCount(variants, quantities)
    requires failure == LineFailure(variants[j], quantities[j], ctx)
    requires before == Collect(LineOutcomes(variants, quantities, ctx)[..j])
    ensures Collect(LineOutcomes(variants, quantities, ctx)[..j + 1]) == before + AsSeq(failure)
  {
    CollectStep(LineOutcomes(variants, quantities, ctx), j);
  }

  /** After the last pair, everything has been collected. */
  lemma AllPairs(variants: seq<ProductVariant>, quantities: seq<int>, ctx: BulkContext)
    ensures Collect(LineOutcomes(variants, quantities, ctx)[..PairCount(variants, quantities)])
         == BulkFailures(variants, quantities, ctx)
  {
    assert LineOutcomes(variants, quantities, ctx)[..PairCount(variants, quantities)] == LineOutcomes(variants, quantities, ctx);
  }

  /** Reference definition of `insufficient_stocks` after the loop: one entry per failing pair. */
  function BulkFailures(variants: seq<ProductVariant>, quantities: seq<int>, ctx: BulkContext): seq<InsufficientStockData>
  {
    Collect(LineOutcomes(variants, quantities, ctx))
  }

  /** Raise `InsufficientStock` exactly when something was collected. */
  function Outcome(failures: seq<InsufficientStockData>): StockCheck
  {
    if failures == [] then Sufficient else InsufficientStock(failures)
  }

  /** `zip` stops at the shorter list: quantities beyond the last variant, or variants
      beyond the last quantity, are never looked at. */
  lemma BulkFailuresIgnoreUnpaired(variants: seq<ProductVariant>, quantities: seq<int>, ctx: BulkContext,
                                   extraVariants: seq<ProductVariant>, extraQuantities: seq<int>)
    ensures |variants| <= |quantities| ==>
              BulkFailures(variants, quantities + extraQuantities, ctx) == BulkFailures(variants, quantities, ctx)
    ensures |quantities| <= |variants| ==>
              BulkFailures(variants + extraVariants, quantities, ctx) == BulkFailures(variants, quantities, ctx)
  {
    if |variants| <= |quantities| {
      assert LineOutcomes(variants, quantities + extraQuantities, ctx) == LineOutcomes(variants, quantities, ctx);
    }
    if |quantities| <= |variants| {
      assert LineOutcomes(variants + extraVariants, quantities, ctx) == LineOutcomes(variants, quantities, ctx);
    }
  }

  /** The failures of a batch are those of its first part followed by those of the rest:
      nothing stops early and the input order is kept. */
  lemma BulkFailuresAppend(v1: seq<ProductVariant>, q1: seq<int>, v2: seq<ProductVariant>, q2: seq<int>, ctx: BulkContext)
    requires |v1| == |q1|
    ensures BulkFailures(v1 + v2, q1 + q2, ctx) == BulkFailures(v1, q1, ctx) + BulkFailures(v2, q2, ctx)
  {
    var whole, first, rest := LineOutcomes(v1 + v2, q1 + q2, ctx), LineOutcomes(v1, q1, ctx), LineOutcomes(v2, q2, ctx);
    assert |whole| == |first| + |rest|;
    forall j | 0 <= j < |whole| ensures whole[j] == (first + rest)[j] {
      if j < |first| {
        assert (v1 + v2)[j] == v1[j] && (q1 + q2)[j] == q1[j];
      } else {
        assert (v1 + v2)[j] == v2[j - |first|] && (q1 + q2)[j] == q2[j - |first|];
      }
    }
    assert whole == first + rest;
    CollectAppend(first, rest);
  }

  /** Every failing pair is reported, every report comes from a failing pair, and there
      are never more reports than pairs. */
  lemma BulkFailuresCollectEveryFailure(variants: seq<ProductVariant>, quantities: seq<int>, ctx: BulkContext)
    ensures forall j :: 0 <= j < |variants| && j < |quantities| && LineFailure(variants[j], quantities[j], ctx).Some? ==>
              LineFailure(variants[j], quantities[j], ctx).value in BulkFailures(variants, quantities, ctx)
    ensures forall f :: f in BulkFailures(variants, quantities, ctx) ==>
              exists j :: 0 <= j < |variants| && j < |quantities| && LineFailure(variants[j], quantities[j], ctx) == Some(f)
    ensures |BulkFailures(variants, quantities, ctx)| <= PairCount(variants, quantities)
  {
    var os := LineOutcomes(variants, quantities, ctx);
    CollectMembership(os);
    forall j | 0 <= j < |variants| && j < |quantities| && LineFailure(variants[j], quantities[j], ctx).Some?
      ensures LineFailure(variants[j], quantities[j], ctx).value in BulkFailures(variants, quantities, ctx)
    {
      assert os[j] == LineFailure(variants[j], quantities[j], ctx);
    }
    forall f | f in BulkFailures(variants, quantities, ctx)
      ensures exists j :: 0 <= j < |variants| && j < |quantities| && LineFailure(variants[j], quantities[j], ctx) == Some(f)
    {
      var j :| 0 <= j < |os| && os[j] == Some(f);
    }
  }

  /** The bulk check passes exactly when no pair fails on its own. */
  lemma BulkSufficientIffNoPairFails(variants: seq<ProductVariant>, quantities: seq<int>, ctx: BulkContext)
    ensures Outcome(BulkFailures(variants, quantities, ctx)).Sufficient?
        <==> forall j :: 0 <= j < |variants| && j < |quantities| ==> LineFailure(variants[j], quantities[j], ctx).None?
  {
    BulkFailuresCollectEveryFailure(variants, quantities, ctx);
    var fs := BulkFailures(variants, quantities, ctx);
    if fs != [] {
      assert fs[0] in fs;
    }
  }

  /** Two failing requests are both reported, in the order they were given. */
  lemma TwoShortVariantsReportedInOrder(v1: ProductVariant, q1: int, v2: ProductVariant, q2: int, ctx: BulkContext)
    requires LineFailure(v1, q1, ctx).Some? && LineFailure(v2, q2, ctx).Some?
    ensures BulkFailures([v1, v2], [q1, q2], ctx) == [LineFailure(v1, q1, ctx).value, LineFailure(v2, q2, ctx).value]
  {
    var os := LineOutcomes([v1, v2], [q1, q2], ctx);
    assert os == [LineFailure(v1, q1, ctx), LineFailure(v2, q2, ctx)];
    assert os[..1] == [LineFailure(v1, q1, ctx)] && os[..1][..0] == [];
    assert Collect(os[..1]) == [LineFailure(v1, q1, ctx).value];
    assert Collect(os) == Collect(os[..1]) + [LineFailure(v2, q2, ctx).value];
  }

  /** The requested quantity, stated against the existing lines: unchanged with `replace`,
      otherwise increased by the quantity of the last existing line for the same variant,
      and unchanged when there is none. */
  lemma RequestedQuantityFromExistingLines(variant: ProductVariant, quantity: int, ctx: BulkContext, existingLines: seq<CheckoutLineInfo>)
    requires ctx.existing == ExistingQuantities(existingLines)
    ensures ctx.replace ==> RequestedQuantity(variant, quantity, ctx) == quantity
    ensures !ctx.replace && (forall i :: 0 <= i < |existingLines| ==> existingLines[i].variant.pk != variant.pk) ==>
              RequestedQuantity(variant, quantity, ctx) == quantity
    ensures !ctx.replace ==> forall i :: IsLastLineFor(existingLines, i, variant.pk) ==>
              RequestedQuantity(variant, quantity, ctx) == quantity + existingLines[i].line.quantity
  {
    ExistingQuantitiesKeys(existingLines, variant.pk);
    ExistingQuantitiesKeepLast(existingLines, variant.pk);
    if variant.pk in ctx.existing {
      var last :| IsLastLineFor(existingLines, last, variant.pk) && ctx.existing[variant.pk] == existingLines[last].line.quantity;
      forall i | IsLastLineFor(existingLines, i, variant.pk) ensures i == last {
        LastLineUnique(existingLines, i, last, variant.pk);
      }
    }
  }

  /** In the context the bulk check builds, a variant's available quantity is its stocks'
      summed annotation less the reservations counted against that variant, floored at 0;
      a falsy variant id never has reservations, and without the reservation check nothing
      is subtracted. */
  lemma VariantAvailableAgainstReservations(variant: ProductVariant, ctx: BulkContext, reservations: seq<Reservation>,
                                            now: int, existingLines: seq<CheckoutLineInfo>, checkReservations: bool)
    requires ctx.reserved == if checkReservations then ReservedByVariant(Unannotated(ctx.stocks), reservations, existingLines, now)
                             else map[]
    ensures VariantAvailable(variant, ctx)
         == Max0(SumAvailable(StocksForVariant(ctx.stocks, variant.pk))
                 - (if checkReservations && variant.pk != 0
                    then VariantReserved(reservations, BulkFilter(Unannotated(ctx.stocks), existingLines, now),
                                         StockVariants(Unannotated(ctx.stocks)), variant.pk)
                    else 0))
  {
    var available := SumAvailable(StocksForVariant(ctx.stocks, variant.pk));
    assert VariantAvailable(variant, ctx) == Max0(available - GetOr(ctx.reserved, variant.pk, 0));
    if checkReservations {
      var stocks := Unannotated(ctx.stocks);
      if variant.pk != 0 {
        ReservedByVariantPerVariant(stocks, reservations, existingLines, now, variant.pk);
      } else {
        assert 0 !in ReservedByVariant(stocks, reservations, existingLines, now);
      }
    } else {
      assert GetOr(ctx.reserved, variant.pk, 0) == 0;
    }
  }


  /** One iteration of the request loop of `check_stock_quantity_bulk`: the quantity asked
      for (plus the existing line's unless `replace`), the variant's grouped stocks, their
      summed availability less its reservations floored at 0, and the shortfall, if any,
      to append. */
  method CheckPair(variant: ProductVariant, quantity: int, ghost allVariantsStocks: seq<AnnotatedStock>,
                   variantStocks: map<int, seq<AnnotatedStock>>, variantReservations: map<int, nat>,
                   variantsQuantities: map<int, int>, replace: bool)
    returns (failure: Option<InsufficientStockData>)
    requires forall pk :: GetOr(variantStocks, pk, []) == StocksForVariant(allVariantsStocks, pk)
    ensures failure == LineFailure(variant, quantity, BulkContext(allVariantsStocks, variantReservations, variantsQuantities, replace))
  {
    var requested := quantity;
    if !replace {
      requested := requested + GetOr(variantsQuantities, variant.pk, 0);
    }
    var stocks := GetOr(variantStocks, variant.pk, []);
    var availableQuantity := SumAvailable(stocks);
    availableQuantity := Max0(availableQuantity - GetOr(variantReservations, variant.pk, 0));
    failure := None;
    if stocks == [] {
      failure := Some(InsufficientStockData(variant, Some(availableQuantity)));
    } else if variant.trackInventory {
      if requested > availableQuantity {
        failure := Some(InsufficientStockData(variant, Some(availableQuantity)));
      }
    }
  }

  /** The request loop of `check_stock_quantity_bulk`: every pair of
      `zip(variants, quantities)` is checked and its shortfall appended; the loop never
      stops early. */
  method CollectShortfalls(variants: seq<ProductVariant>, quantities: seq<int>, ghost allVariantsStocks: seq<AnnotatedStock>,
                           variantStocks: map<int, seq<AnnotatedStock>>, variantReservations: map<int, nat>,
                           variantsQuantities: map<int, int>, replace: bool)
    returns (insufficientStocks: seq<InsufficientStockData>)
    requires forall pk :: GetOr(variantStocks, pk, []) == StocksForVariant(allVariantsStocks, pk)
    ensures insufficientStocks
         == BulkFailures(variants, quantities, BulkContext(allVariantsStocks, variantReservations, variantsQuantities, replace))
  {
    ghost var ctx := BulkContext(allVariantsStocks, variantReservations, variantsQuantities, replace);
    insufficientStocks := [];
    for j := 0 to PairCount(variants, quantities)
      invariant insufficientStocks == Collect(LineOutcomes(variants, quantities, ctx)[..j])
    {
      var failure := CheckPair(variants[j], quantities[j], allVariantsStocks, variantStocks,
                               variantReservations, variantsQuantities, replace);
      ShortfallStep(variants, quantities, ctx, j, failure, insufficientStocks);
      if failure.Some? {
        insufficientStocks := insufficientStocks + [failure.value];
      }
    }
    AllPairs(variants, quantities, ctx);
  }

  /** `check_stock_quantity_bulk`. Groups the stocks by variant, reads the reservations per
      variant when asked to, then checks every pair of `zip(variants, quantities)`,
      collecting each shortfall, and raises once at the end if anything was collected. */
  method CheckStockQuantityBulk(variants: seq<ProductVariant>, quantities: seq<int>,
                                allVariantsStocks: seq<AnnotatedStock>, reservations: seq<Reservation>, now: int,
                                existingLines: seq<CheckoutLineInfo>, replace: bool, checkReservations: bool)
    returns (result: StockCheck)
    ensures result
         == Outcome(BulkFailures(variants, quantities,
                                 BulkContextOf(allVariantsStocks, reservations, now, existingLines, replace, checkReservations)))
    ensures result.Sufficient? <==>
              forall j :: 0 <= j < |variants| && j < |quantities| ==>
                LineFailure(variants[j], quantities[j],
                            BulkContextOf(allVariantsStocks, reservations, now, existingLines, replace, checkReservations)).None?
  {
    var variantStocks := GroupStocksByVariant(allVariantsStocks);

    var variantReservations: map<int, nat>;
    if checkReservations {
      variantReservations := GetReservedQuantityBulk(Unannotated(allVariantsStocks), reservations, existingLines, now);
    } else {
      variantReservations := map[];
    }

    var variantsQuantities := ExistingQuantities(existingLines);
    ghost var ctx := BulkContext(allVariantsStocks, variantReservations, variantsQuantities, replace);
    assert ctx == BulkContextOf(allVariantsStocks, reservations, now, existingLines, replace, checkReservations);
    var insufficientStocks := CollectShortfalls(variants, quantities, allVariantsStocks, variantStocks,
                                                variantReservations, variantsQuantities, replace);

    if insufficientStocks != [] {
      result := InsufficientStock(insufficientStocks);
    } else {
      result := Sufficient;
    }
    BulkSufficientIffNoPairFails(variants, quantities, ctx);
  }
}
