/** The valuation builder (`Account.to_dataframe`): one fixed-shape row per
    slot, with the worst-case scenario selection for spot open orders and
    perp positions, the open-order columns and the weight columns. */
module Valuation {
  import opened Wrappers
  import opened MangoTypes

  /** A snapshot of a spot open-orders account. */
  datatype OpenOrders = OpenOrders(
    baseTokenFree: real,
    baseTokenLocked: real,
    baseTokenTotal: real,
    quoteTokenFree: real,
    quoteTokenLocked: real,
    quoteTokenTotal: real,
    referrerRebateAccrued: real)

  datatype PerpMarketCache = PerpMarketCache(longFunding: real, shortFunding: real)

  datatype MarketCache = MarketCache(perpMarket: Option<PerpMarketCache>)

  /** The valuation's collaborators: the group and cache lookups, the perp
      account's own valuations and the lot-size converters. A lookup that
      raises in the source returns None here. */
  datatype ValuationEnv = ValuationEnv(
    marketCache: Instrument -> Option<MarketCache>,
    tokenPrice: Instrument -> Option<real>,
    perpMarketConfigured: nat -> bool,
    groupSlotByInstrument: Instrument -> Option<GroupSlot>,
    perpIsEmpty: PerpAccount -> bool,
    unsettledFunding: (PerpAccount, PerpMarketCache) -> real,
    perpAssetValue: (PerpAccount, PerpMarketCache, real) -> real,
    perpLiabilityValue: (PerpAccount, PerpMarketCache, real) -> real,
    baseLotsToNumber: (LotSizeConverter, int) -> real,
    quoteLotsToNumber: (LotSizeConverter, int) -> real)

  /** What the rows of one account are computed against. */
  datatype Context = Context(
    quoteToken: Instrument,
    inMarginBasket: seq<bool>,
    openOrders: map<PublicKey, OpenOrders>,
    env: ValuationEnv)

  /** A health contribution before weighting: a base amount and a quote amount. */
  datatype Health = Health(base: real, quote: real)

  function Abs(x: real): real
  {
    if x < 0.0 then -x else x
  }

  /** The scenario reported for health: the bids scenario when its base
      magnitude is strictly larger, otherwise (ties included) the asks one. */
  function WorseScenario(bidsNet: real, bidsQuote: real, asksNet: real, asksQuote: real): Health
  {
    if Abs(bidsNet) > Abs(asksNet) then Health(bidsNet, bidsQuote) else Health(asksNet, asksQuote)
  }

  /** Spot health base and quote of a slot with net value `net`: the net value
      alone without open orders, otherwise the worse of the all-bids-filled
      and all-asks-filled scenarios at `price`. */
  function SpotHealth(net: real, oo: Option<OpenOrders>, price: real): (r: Result<Health, Error>)
    ensures oo.None? ==> r == Ok(Health(net, 0.0))
    ensures oo.Some? ==> (r.Err? <==> price == 0.0)
    ensures r.Err? ==> r.error == DivisionByZero
  {
    match oo
    case None => Ok(Health(net, 0.0))
    case Some(o) =>
      if price == 0.0 then Err(DivisionByZero)
      else Ok(WorseScenario(SpotBidsBaseNet(net, o, price), o.quoteTokenFree,
                            SpotAsksBaseNet(net, o), SpotAsksQuote(o, price)))
  }

  /** Base total if every bid fills at `price`: locked quote becomes base. */
  function SpotBidsBaseNet(net: real, o: OpenOrders, price: real): real
    requires price != 0.0
  {
    net + o.quoteTokenLocked / price + o.baseTokenTotal
  }

  /** Base total if every ask fills: locked base leaves. */
  function SpotAsksBaseNet(net: real, o: OpenOrders): real
  {
    net + o.baseTokenFree
  }

  /** Quote total if every ask fills at `price`: locked base becomes quote. */
  function SpotAsksQuote(o: OpenOrders, price: real): real
  {
    o.baseTokenLocked * price + o.quoteTokenTotal
  }

  /** Perp health base and quote: the position with all bids or all asks
      filled, the quote side adjusted by the filled quantity at `price`. */
  function PerpScenario(position: real, bidsQuantity: real, asksQuantity: real, settledQuote: real, price: real): Health
  {
    WorseScenario(position + bidsQuantity, settledQuote - bidsQuantity * price,
                  position - asksQuantity, settledQuote + asksQuantity * price)
  }

  function Pow10(n: nat): (r: real)
    ensures r >= 1.0
  {
    if n == 0 then 1.0 else 10.0 * Pow10(n - 1)
  }

  /** The perp columns of one row, before they are valued at the row's
      price. */
  datatype PerpFigures = PerpFigures(
    position: real,
    value: real,
    healthBase: real,
    healthQuote: real,
    unsettledFunding: real,
    asset: real,
    liability: real)

  const NoPerpFigures := PerpFigures(0.0, 0.0, 0.0, 0.0, 0.0, 0.0, 0.0)

  /** The quote side of a perp account before its orders fill: the quote
      position shifted by the quote token's decimals, plus unsettled
      funding, plus the taker quote. */
  function PerpSettledQuote(perp: PerpAccount, cached: PerpMarketCache, quoteToken: Instrument, env: ValuationEnv): real
  {
    perp.record.quotePosition / Pow10(quoteToken.decimals) + env.unsettledFunding(perp, cached)
      + env.quoteLotsToNumber(perp.converter, perp.record.takerQuote)
  }

  /** The perp columns: all zero unless the slot has a non-empty perp account
      and its instrument has a market cache; then the group must configure a
      perp market at the slot's index and the cache must hold its perp
      market. */
  function PerpColumns(slot: AccountSlot, quoteToken: Instrument, price: real,
                       marketCache: Option<MarketCache>, env: ValuationEnv): (r: Result<PerpFigures, Error>)
    ensures slot.perpAccount.None? || env.perpIsEmpty(slot.perpAccount.value) || marketCache.None? ==>
              r == Ok(NoPerpFigures)
    ensures slot.perpAccount.Some? && !env.perpIsEmpty(slot.perpAccount.value) && marketCache.Some? ==>
              (r.Err? <==> !env.perpMarketConfigured(slot.index) || marketCache.value.perpMarket.None?)
  {
    if slot.perpAccount.None? || env.perpIsEmpty(slot.perpAccount.value) || marketCache.None? then
      Ok(NoPerpFigures)
    else if !env.perpMarketConfigured(slot.index) then
      Err(MissingPerpMarket(slot.index))
    else
      match marketCache.value.perpMarket
      case None => Err(MissingCachedPerpMarket(slot.index))
      case Some(cached) =>
        var perp := slot.perpAccount.value;
        var position := env.baseLotsToNumber(perp.converter, perp.record.basePosition);
        var funding := env.unsettledFunding(perp, cached);
        var bidsQuantity := env.baseLotsToNumber(perp.converter, perp.record.bidsQuantity);
        var asksQuantity := env.baseLotsToNumber(perp.converter, perp.record.asksQuantity);
        var h := PerpScenario(position, bidsQuantity, asksQuantity, PerpSettledQuote(perp, cached, quoteToken, env), price);
        Ok(PerpFigures(position, perp.record.quotePositionRaw, h.base, h.quote, funding, env.perpAssetValue(perp, cached, price), env.perpLiabilityValue(perp, cached, price)))
  }

  const UnitWeights := Weights(1.0, 1.0, 1.0, 1.0)
  const ZeroWeights := Weights(0.0, 0.0, 0.0, 0.0)

  /** A weight column: the configured market's weights, else exactly 1 for
      the quote token, else 0. */
  function ColumnWeights(market: Option<Weights>, isQuoteToken: bool): Weights
  {
    match market
    case Some(w) => w
    case None => if isQuoteToken then UnitWeights else ZeroWeights
  }

  /** The open-order columns, before they are valued at the row's price. */
  datatype OpenColumns = OpenColumns(
    baseUnsettled: real,
    baseLocked: real,
    baseTotal: real,
    quoteUnsettled: real,
    quoteLocked: real)

  /** Base-side amounts count only for a slot in the margin basket; quote
      unsettled (free plus referrer rebate) and quote locked always count. */
  function OpenOrderColumns(oo: Option<OpenOrders>, inBasket: bool): OpenColumns
  {
    match oo
    case None => OpenColumns(0.0, 0.0, 0.0, 0.0, 0.0)
    case Some(o) =>
      var quoteUnsettled := o.quoteTokenFree + o.referrerRebateAccrued;
      if inBasket then
        OpenColumns(o.baseTokenFree, o.baseTokenLocked, o.baseTokenTotal,
                    quoteUnsettled, o.quoteTokenLocked)
      else
        OpenColumns(0.0, 0.0, 0.0, quoteUnsettled, o.quoteTokenLocked)
  }

  /** One row of the valuation table. */
  datatype Row = Row(
    name: string,
    symbol: string,
    inMarginBasket: bool,
    currentPrice: real,
    spot: real,
    spotValue: real,
    spotDeposit: real,
    spotDepositValue: real,
    spotBorrow: real,
    spotBorrowValue: real,
    spotOpen: real,
    spotOpenValue: real,
    baseUnsettled: real,
    baseLocked: real,
    baseLockedValue: real,
    quoteUnsettled: real,
    quoteLocked: real,
    perpPositionSize: real,
    perpNotionalSize: real,
    spotHealthBase: real,
    spotHealthBaseValue: real,
    spotHealthQuote: real,
    perpHealthBase: real,
    perpHealthBaseValue: real,
    perpHealthQuote: real,
    perpAsset: real,
    perpLiability: real,
    perpValue: real,
    unsettledFunding: real,
    spotWeights: Weights,
    perpWeights: Weights)

  function InMarginBasket(index: nat, inMarginBasket: seq<bool>): bool
  {
    index < |inMarginBasket| && inMarginBasket[index]
  }

  function LookupPrice(env: ValuationEnv, instrument: Instrument): Result<real, Error>
  {
    match env.tokenPrice(instrument)
    case None => Err(MissingPrice(instrument))
    case Some(p) => Ok(p)
  }

  /** The open-orders snapshot of a slot's address; an address without a
      loaded snapshot raises. */
  function ResolveOpenOrders(address: Option<PublicKey>, openOrders: map<PublicKey, OpenOrders>)
    : (r: Result<Option<OpenOrders>, Error>)
    ensures address.None? ==> r == Ok(None)
    ensures address.Some? && address.value in openOrders ==> r == Ok(Some(openOrders[address.value]))
    ensures address.Some? && address.value !in openOrders ==> r == Err(OpenOrdersNotLoaded(address.value))
  {
    match address
    case None => Ok(None)
    case Some(a) => if a in openOrders then Ok(Some(openOrders[a])) else Err(OpenOrdersNotLoaded(a))
  }

  /** The group slot whose weights apply: looked up only when the instrument
      has a market cache. */
  function WeightSource(marketCache: Option<MarketCache>, instrument: Instrument, env: ValuationEnv)
    : Result<Option<GroupSlot>, Error>
  {
    if marketCache.None? then Ok(None)
    else match env.groupSlotByInstrument(instrument)
      case None => Err(GroupSlotNotFound(instrument))
      case Some(gs) => Ok(Some(gs))
  }

  /** The row of one slot, computed in the source's order: price, spot open
      orders and spot scenario, perp columns, weights, open-order columns.
      A row carries the slot's price, names, amounts and basket flag; its
      base total is deposit less borrow plus open base, and each value
      column is its amount at the row's price (the borrow value negated). */
  function RowFor(slot: AccountSlot, ctx: Context): (r: Result<Row, Error>)
    ensures r.Ok? ==> Some(r.value.currentPrice) == ctx.env.tokenPrice(slot.baseInstrument)
    ensures r.Ok? ==> r.value.name == slot.baseInstrument.name && r.value.symbol == slot.baseInstrument.symbol
    ensures r.Ok? ==> r.value.spotDeposit == slot.deposit.value && r.value.spotBorrow == slot.borrow.value
    ensures r.Ok? ==> r.value.inMarginBasket == InMarginBasket(slot.index, ctx.inMarginBasket)
    ensures r.Ok? ==> ValuedAtPrice(r.value)
  {
    var env := ctx.env;
    var instrument := slot.baseInstrument;
    var marketCache := env.marketCache(instrument);
    var price :- LookupPrice(env, instrument);
    var oo :- ResolveOpenOrders(slot.spotOpenOrders, ctx.openOrders);
    var net := NetValue(slot).value;
    var spot :- SpotHealth(net, oo, price);
    var perp :- PerpColumns(slot, ctx.quoteToken, price, marketCache, env);
    var groupSlot :- WeightSource(marketCache, instrument, env);
    var isQuoteToken := instrument == ctx.quoteToken;
    var spotWeights := ColumnWeights(if groupSlot.Some? then groupSlot.value.spotMarket else None, isQuoteToken);
    var perpWeights := ColumnWeights(if groupSlot.Some? then groupSlot.value.perpMarket else None, isQuoteToken);
    var inBasket := InMarginBasket(slot.index, ctx.inMarginBasket);
    var open := OpenOrderColumns(oo, inBasket);
    Ok(MakeRow(slot, inBasket, price, open, spot, perp, spotWeights, perpWeights))
  }

  /** A row's base total is deposit less borrow plus open base, and each
      value column is its amount at the row's price (the borrow value
      negated). */
  ghost predicate ValuedAtPrice(row: Row)
  {
    && row.spot == row.spotDeposit - row.spotBorrow + row.spotOpen
    && row.spotValue == row.spot * row.currentPrice
    && row.spotDepositValue == row.spotDeposit * row.currentPrice
    && row.spotBorrowValue == -(row.spotBorrow * row.currentPrice)
    && row.spotOpenValue == row.spotOpen * row.currentPrice
    && row.baseLockedValue == row.baseLocked * row.currentPrice
    && row.spotHealthBaseValue == row.spotHealthBase * row.currentPrice
    && row.perpNotionalSize == row.perpPositionSize * row.currentPrice
    && row.perpHealthBaseValue == row.perpHealthBase * row.currentPrice
  }

  /** Assembles a row from the slot and the figures computed for it. */
  function MakeRow(slot: AccountSlot, inBasket: bool, price: real, open: OpenColumns, spot: Health,
                   perp: PerpFigures, spotWeights: Weights, perpWeights: Weights): (row: Row)
    ensures row.currentPrice == price && row.inMarginBasket == inBasket
    ensures row.name == slot.baseInstrument.name && row.symbol == slot.baseInstrument.symbol
    ensures row.spotDeposit == slot.deposit.value && row.spotBorrow == slot.borrow.value
    ensures ValuedAtPrice(row)
  {
    var instrument := slot.baseInstrument;
    var baseTotal := slot.deposit.value - slot.borrow.value + open.baseTotal;
    Row(
      instrument.name, instrument.symbol, inBasket, price,
      baseTotal, baseTotal * price,
      slot.deposit.value, slot.deposit.value * price,
      slot.borrow.value, slot.borrow.value * price * -1.0,
      open.baseTotal, open.baseTotal * price,
      open.baseUnsettled, open.baseLocked, open.baseLocked * price,
      open.quoteUnsettled, open.quoteLocked,
      perp.position, perp.position * price,
      spot.base, spot.base * price, spot.quote,
      perp.healthBase, perp.healthBase * price, perp.healthQuote,
      perp.asset, perp.liability, perp.value, perp.unsettledFunding,
      spotWeights, perpWeights)
  }

  /** The rows of the first `count` slots; the first failing slot's error
      otherwise. */
  function RowsPrefix(slots: seq<AccountSlot>, ctx: Context, count: nat): Result<seq<Row>, Error>
    requires count <= |slots|
  {
    if count == 0 then Ok([])
    else
      var rows :- RowsPrefix(slots, ctx, count - 1);
      var row :- RowFor(slots[count - 1], ctx);
      Ok(rows + [row])
  }

  function Rows(slots: seq<AccountSlot>, ctx: Context): Result<seq<Row>, Error>
  {
    RowsPrefix(slots, ctx, |slots|)
  }

  lemma {:induction false} RowsErrorPersists(slots: seq<AccountSlot>, ctx: Context, k: nat, m: nat)
    requires k <= m <= |slots|
    requires RowsPrefix(slots, ctx, k).Err?
    ensures RowsPrefix(slots, ctx, m) == RowsPrefix(slots, ctx, k)
  {
    if m > k {
      RowsErrorPersists(slots, ctx, k, m - 1);
    }
  }

  /** One row per slot, in slot order, each the row of its slot; and the
      table fails exactly when some slot's row fails. */
  lemma {:induction false} RowsShape(slots: seq<AccountSlot>, ctx: Context, count: nat)
    requires count <= |slots|
    ensures RowsPrefix(slots, ctx, count).Ok? <==> forall k :: 0 <= k < count ==> RowFor(slots[k], ctx).Ok?
    ensures RowsPrefix(slots, ctx, count).Ok? ==>
              var rows := RowsPrefix(slots, ctx, count).value;
              |rows| == count && forall k :: 0 <= k < count ==> RowFor(slots[k], ctx) == Ok(rows[k])
  {
    if count > 0 {
      RowsShape(slots, ctx, count - 1);
    }
  }

  // ---------------------------------------------------------------------
  // Properties of the rows

  /** The reported scenario moves the base amount at least as far from zero
      as either scenario does. */
  lemma WorseScenarioMagnitude(bidsNet: real, bidsQuote: real, asksNet: real, asksQuote: real)
    ensures var r := WorseScenario(bidsNet, bidsQuote, asksNet, asksQuote);
            Abs(r.base) >= Abs(bidsNet) && Abs(r.base) >= Abs(asksNet)
  {
  }

  /** Ties go to the asks scenario. */
  lemma ScenarioTieGoesToAsks(bidsNet: real, bidsQuote: real, asksNet: real, asksQuote: real)
    requires Abs(bidsNet) == Abs(asksNet)
    ensures WorseScenario(bidsNet, bidsQuote, asksNet, asksQuote) == Health(asksNet, asksQuote)
  {
  }

  /** The weighted health a (base value, quote) pair adds:
      the asset weight applies to a positive base value, the liability
      weight to the rest. */
  function Contribution(baseValue: real, quote: real, assetWeight: real, liabWeight: real): real
  {
    (if baseValue > 0.0 then assetWeight else liabWeight) * baseValue + quote
  }

  /** The selection rule reports the scenario of lower weighted health, when
      the asset weight is at most 1 and the weights add up to 2, for a bids
      scenario whose base exceeds the asks one by exactly what its quote
      falls short of it. */
  lemma WorseScenarioIsWorst(bidsBase: real, bidsQuote: real, asksBase: real, asksQuote: real,
                             assetWeight: real, liabWeight: real)
    requires bidsBase >= asksBase && asksQuote - bidsQuote == bidsBase - asksBase
    requires assetWeight <= 1.0 && assetWeight + liabWeight == 2.0
    ensures var h := WorseScenario(bidsBase, bidsQuote, asksBase, asksQuote);
            && Contribution(h.base, h.quote, assetWeight, liabWeight) <= Contribution(bidsBase, bidsQuote, assetWeight, liabWeight)
            && Contribution(h.base, h.quote, assetWeight, liabWeight) <= Contribution(asksBase, asksQuote, assetWeight, liabWeight)
  {
    var a, b := asksBase, bidsBase - asksBase;
    var bids := Contribution(bidsBase, bidsQuote, assetWeight, liabWeight);
    var asks := Contribution(asksBase, asksQuote, assetWeight, liabWeight);
    if a >= 0.0 {
      assert bids - asks == (assetWeight - 1.0) * b;
      ProductNonPositive(assetWeight - 1.0, b);
    } else if bidsBase <= 0.0 {
      assert bids - asks == (liabWeight - 1.0) * b;
      ProductNonNegative(liabWeight - 1.0, b);
    } else {
      assert bids - asks == (assetWeight - 1.0) * (2.0 * a + b);
      if 2.0 * a + b > 0.0 {
        ProductNonPositive(assetWeight - 1.0, 2.0 * a + b);
      } else {
        ProductNonNegative(1.0 - assetWeight, -(2.0 * a + b));
        assert (assetWeight - 1.0) * (2.0 * a + b) == (1.0 - assetWeight) * -(2.0 * a + b);
      }
    }
  }

  lemma ProductNonPositive(x: real, y: real)
    requires x <= 0.0 && y >= 0.0
    ensures x * y <= 0.0
  {
    assert (-x) * y >= 0.0;
  }

  lemma ProductNonNegative(x: real, y: real)
    requires x >= 0.0 && y >= 0.0
    ensures x * y >= 0.0
  {
  }

  /** The selection made on base amounts is the selection made on their
      values at any positive price. */
  lemma ScaledSelection(bidsNet: real, bidsQuote: real, asksNet: real, asksQuote: real, price: real)
    requires price > 0.0
    ensures var h := WorseScenario(bidsNet, bidsQuote, asksNet, asksQuote);
            var hv := WorseScenario(bidsNet * price, bidsQuote, asksNet * price, asksQuote);
            h.base * price == hv.base && h.quote == hv.quote
  {
    AbsScaleCompare(bidsNet, asksNet, price);
  }

  /** Scaling by a positive price keeps the order of magnitudes. */
  lemma AbsScaleCompare(x: real, y: real, price: real)
    requires price > 0.0
    ensures Abs(x * price) > Abs(y * price) <==> Abs(x) > Abs(y)
  {
    AbsScale(x, price);
    AbsScale(y, price);
    ScaleStrict(Abs(x), Abs(y), price);
  }

  /** The scenario h, valued at the price, adds no more weighted health than
      the bids scenario (bidsNet, bidsQuote) or the asks scenario
      (asksNet, asksQuote). */
  ghost predicate NoBetterThanEither(h: Health, price: real, bidsNet: real, bidsQuote: real,
                                     asksNet: real, asksQuote: real, assetWeight: real, liabWeight: real)
  {
    && Contribution(h.base * price, h.quote, assetWeight, liabWeight)
         <= Contribution(bidsNet * price, bidsQuote, assetWeight, liabWeight)
    && Contribution(h.base * price, h.quote, assetWeight, liabWeight)
         <= Contribution(asksNet * price, asksQuote, assetWeight, liabWeight)
  }

  /** The selection at base amounts, read at value scale: with a positive
      price, a bids scenario whose base value exceeds the asks one by some
      b >= 0 and whose quote falls short of it by the same b, the reported
      scenario is the one adding the least weighted health. */
  lemma ScaledScenarioIsWorst(bidsNet: real, bidsQuote: real, asksNet: real, asksQuote: real, price: real,
                              assetWeight: real, liabWeight: real)
    requires price > 0.0
    requires bidsNet * price >= asksNet * price
    requires asksQuote - bidsQuote == bidsNet * price - asksNet * price
    requires assetWeight <= 1.0 && assetWeight + liabWeight == 2.0
    ensures NoBetterThanEither(WorseScenario(bidsNet, bidsQuote, asksNet, asksQuote), price,
                               bidsNet, bidsQuote, asksNet, asksQuote, assetWeight, liabWeight)
  {
    WorseScenarioIsWorst(bidsNet * price, bidsQuote, asksNet * price, asksQuote, assetWeight, liabWeight);
    ScaledSelection(bidsNet, bidsQuote, asksNet, asksQuote, price);
  }

  lemma ScaleStrict(x: real, y: real, price: real)
    requires price > 0.0
    ensures x > y <==> x * price > y * price
  {
    assert x * price - y * price == (x - y) * price;
    if x > y {
      assert (x - y) * price > 0.0;
    } else {
      assert (y - x) * price >= 0.0;
    }
  }

  lemma AbsScale(x: real, price: real)
    requires price > 0.0
    ensures Abs(x * price) == Abs(x) * price
  {
    if x < 0.0 {
      assert x * price < 0.0;
    } else {
      assert x * price >= 0.0;
    }
  }

  lemma ScaleSum(x: real, y: real, price: real)
    ensures (x + y) * price == x * price + y * price
    ensures (x - y) * price == x * price - y * price
  {
  }

  lemma DivScaleCancel(x: real, price: real)
    requires price != 0.0
    ensures x / price * price == x
  {
  }

  /** Spot worst case: with a positive price, open orders whose totals are
      free plus locked and whose locked amounts are non-negative, the
      reported spot scenario adds no more weighted health than either the
      all-bids-filled or the all-asks-filled scenario. */
  lemma SpotHealthIsWorstCase(net: real, o: OpenOrders, price: real, assetWeight: real, liabWeight: real)
    requires price > 0.0
    requires o.baseTokenTotal == o.baseTokenFree + o.baseTokenLocked
    requires o.quoteTokenTotal == o.quoteTokenFree + o.quoteTokenLocked
    requires o.baseTokenLocked >= 0.0 && o.quoteTokenLocked >= 0.0
    requires assetWeight <= 1.0 && assetWeight + liabWeight == 2.0
    ensures var bidsNet, asksNet, asksQuote := SpotBidsBaseNet(net, o, price), SpotAsksBaseNet(net, o), SpotAsksQuote(o, price);
            SpotHealth(net, Some(o), price) == Ok(WorseScenario(bidsNet, o.quoteTokenFree, asksNet, asksQuote))
    ensures var bidsNet, asksNet, asksQuote := SpotBidsBaseNet(net, o, price), SpotAsksBaseNet(net, o), SpotAsksQuote(o, price);
            NoBetterThanEither(WorseScenario(bidsNet, o.quoteTokenFree, asksNet, asksQuote), price,
                               bidsNet, o.quoteTokenFree, asksNet, asksQuote, assetWeight, liabWeight)
  {
    SpotScenarioGap(net, o, price);
    ScaledScenarioIsWorst(SpotBidsBaseNet(net, o, price), o.quoteTokenFree, SpotAsksBaseNet(net, o),
                          SpotAsksQuote(o, price), price, assetWeight, liabWeight);
  }

  /** At value scale the spot bids scenario's base exceeds the asks one by
      the locked quote plus the locked base's value, exactly what its quote
      falls short of the asks one. */
  lemma SpotScenarioGap(net: real, o: OpenOrders, price: real)
    requires price > 0.0
    requires o.baseTokenTotal == o.baseTokenFree + o.baseTokenLocked
    requires o.quoteTokenTotal == o.quoteTokenFree + o.quoteTokenLocked
    requires o.baseTokenLocked >= 0.0 && o.quoteTokenLocked >= 0.0
    ensures SpotBidsBaseNet(net, o, price) * price >= SpotAsksBaseNet(net, o) * price
    ensures SpotAsksQuote(o, price) - o.quoteTokenFree ==
              SpotBidsBaseNet(net, o, price) * price - SpotAsksBaseNet(net, o) * price
  {
    var lockedAsBase := o.quoteTokenLocked / price;
    DivScaleCancel(o.quoteTokenLocked, price);
    ScaleSum(net + lockedAsBase, o.baseTokenTotal, price);
    ScaleSum(net, lockedAsBase, price);
    ScaleSum(net, o.baseTokenFree, price);
    ScaleSum(o.baseTokenFree, o.baseTokenLocked, price);
    ProductNonNegative(o.baseTokenLocked, price);
  }

  /** Perp worst case: with a positive price and non-negative order
      quantities, the reported perp scenario adds no more weighted health
      than either the all-bids-filled or the all-asks-filled scenario. */
  lemma PerpScenarioIsWorstCase(position: real, bidsQuantity: real, asksQuantity: real, settledQuote: real,
                                price: real, assetWeight: real, liabWeight: real)
    requires price > 0.0 && bidsQuantity >= 0.0 && asksQuantity >= 0.0
    requires assetWeight <= 1.0 && assetWeight + liabWeight == 2.0
    ensures NoBetterThanEither(PerpScenario(position, bidsQuantity, asksQuantity, settledQuote, price), price,
                               position + bidsQuantity, settledQuote - bidsQuantity * price,
                               position - asksQuantity, settledQuote + asksQuantity * price, assetWeight, liabWeight)
  {
    var bidsNet, bidsQuote := position + bidsQuantity, settledQuote - bidsQuantity * price;
    var asksNet, asksQuote := position - asksQuantity, settledQuote + asksQuantity * price;
    PerpScenarioGap(position, bidsQuantity, asksQuantity, settledQuote, price);
    ScaledScenarioIsWorst(bidsNet, bidsQuote, asksNet, asksQuote, price, assetWeight, liabWeight);
    assert PerpScenario(position, bidsQuantity, asksQuantity, settledQuote, price) ==
           WorseScenario(bidsNet, bidsQuote, asksNet, asksQuote);
  }

  /** The reported perp scenario keeps the position's value at the price:
      filling orders trades base for quote at that price. */
  lemma PerpScenarioKeepsValue(position: real, bidsQuantity: real, asksQuantity: real, settledQuote: real, price: real)
    ensures var h := PerpScenario(position, bidsQuantity, asksQuantity, settledQuote, price);
            h.base * price + h.quote == position * price + settledQuote
  {
    ScaleSum(position, bidsQuantity, price);
    ScaleSum(position, asksQuantity, price);
  }

  /** At value scale the perp bids scenario's base exceeds the asks one by
      the value of both quantities, exactly what its quote falls short of
      the asks one. */
  lemma PerpScenarioGap(position: real, bidsQuantity: real, asksQuantity: real, settledQuote: real, price: real)
    requires price > 0.0 && bidsQuantity >= 0.0 && asksQuantity >= 0.0
    ensures (position + bidsQuantity) * price >= (position - asksQuantity) * price
    ensures (settledQuote + asksQuantity * price) - (settledQuote - bidsQuantity * price) ==
              (position + bidsQuantity) * price - (position - asksQuantity) * price
  {
    ScaleSum(position, bidsQuantity, price);
    ScaleSum(position, asksQuantity, price);
    ProductNonNegative(bidsQuantity, price);
    ProductNonNegative(asksQuantity, price);
  }

  /** Without spot open orders a row's spot health is its net value with no
      quote part, and every open-order column is zero. */
  lemma RowWithoutOpenOrders(slot: AccountSlot, ctx: Context)
    requires slot.spotOpenOrders.None? && RowFor(slot, ctx).Ok?
    ensures var row := RowFor(slot, ctx).value;
            && row.spotHealthBase == slot.deposit.value - slot.borrow.value
            && row.spotHealthQuote == 0.0
            && row.spot == slot.deposit.value - slot.borrow.value
            && row.spotOpen == 0.0 && row.spotOpenValue == 0.0
            && row.baseUnsettled == 0.0 && row.baseLocked == 0.0 && row.baseLockedValue == 0.0
            && row.quoteUnsettled == 0.0 && row.quoteLocked == 0.0
  {
  }

  /** With spot open orders, the quote columns always carry the snapshot's
      amounts, and the base columns carry them exactly when the slot is in
      the margin basket. */
  lemma RowOpenOrderColumns(slot: AccountSlot, ctx: Context)
    requires slot.spotOpenOrders.Some? && RowFor(slot, ctx).Ok?
    ensures slot.spotOpenOrders.value in ctx.openOrders
    ensures var row := RowFor(slot, ctx).value;
            var o := ctx.openOrders[slot.spotOpenOrders.value];
            && row.inMarginBasket == InMarginBasket(slot.index, ctx.inMarginBasket)
            && row.quoteUnsettled == o.quoteTokenFree + o.referrerRebateAccrued
            && row.quoteLocked == o.quoteTokenLocked
            && (row.inMarginBasket ==>
                  row.baseUnsettled == o.baseTokenFree && row.baseLocked == o.baseTokenLocked &&
                  row.spotOpen == o.baseTokenTotal && row.spot == slot.deposit.value - slot.borrow.value + o.baseTokenTotal)
            && (!row.inMarginBasket ==>
                  row.baseUnsettled == 0.0 && row.baseLocked == 0.0 && row.spotOpen == 0.0 &&
                  row.spot == slot.deposit.value - slot.borrow.value)
  {
  }

  /** A slot without a live perp account, or whose instrument has no market
      cache, has every perp column zero. */
  lemma RowPerpInactive(slot: AccountSlot, ctx: Context)
    requires slot.perpAccount.None? || ctx.env.perpIsEmpty(slot.perpAccount.value) ||
             ctx.env.marketCache(slot.baseInstrument).None?
    requires RowFor(slot, ctx).Ok?
    ensures var row := RowFor(slot, ctx).value;
            && row.perpPositionSize == 0.0 && row.perpNotionalSize == 0.0 && row.perpValue == 0.0
            && row.perpHealthBase == 0.0 && row.perpHealthBaseValue == 0.0 && row.perpHealthQuote == 0.0
            && row.unsettledFunding == 0.0 && row.perpAsset == 0.0 && row.perpLiability == 0.0
  {
  }

  /** With spot open orders, the row's spot health base and quote are what
      `SpotHealth` reports for the slot's net value, its loaded snapshot and
      the row's price. */
  lemma RowSpotHealth(slot: AccountSlot, ctx: Context)
    requires slot.spotOpenOrders.Some? && RowFor(slot, ctx).Ok?
    ensures slot.spotOpenOrders.value in ctx.openOrders
    ensures var row := RowFor(slot, ctx).value;
            SpotHealth(NetValue(slot).value, Some(ctx.openOrders[slot.spotOpenOrders.value]), row.currentPrice)
              == Ok(Health(row.spotHealthBase, row.spotHealthQuote))
  {
  }

  /** A row's spot health columns are the worse spot scenario: with a
      positive price and a consistent snapshot, they add no more weighted
      health than all bids or all asks filling. */
  lemma RowSpotHealthIsWorstCase(slot: AccountSlot, ctx: Context, assetWeight: real, liabWeight: real)
    requires slot.spotOpenOrders.Some? && RowFor(slot, ctx).Ok?
    requires RowFor(slot, ctx).value.currentPrice > 0.0
    requires slot.spotOpenOrders.value in ctx.openOrders
    requires var o := ctx.openOrders[slot.spotOpenOrders.value];
             && o.baseTokenTotal == o.baseTokenFree + o.baseTokenLocked
             && o.quoteTokenTotal == o.quoteTokenFree + o.quoteTokenLocked
             && o.baseTokenLocked >= 0.0 && o.quoteTokenLocked >= 0.0
    requires assetWeight <= 1.0 && assetWeight + liabWeight == 2.0
    ensures var row := RowFor(slot, ctx).value;
            var o, net, price := ctx.openOrders[slot.spotOpenOrders.value], NetValue(slot).value, row.currentPrice;
            NoBetterThanEither(Health(row.spotHealthBase, row.spotHealthQuote), price,
                               SpotBidsBaseNet(net, o, price), o.quoteTokenFree,
                               SpotAsksBaseNet(net, o), SpotAsksQuote(o, price), assetWeight, liabWeight)
  {
    var row := RowFor(slot, ctx).value;
    RowSpotHealth(slot, ctx);
    SpotHealthIsWorstCase(NetValue(slot).value, ctx.openOrders[slot.spotOpenOrders.value], row.currentPrice,
                          assetWeight, liabWeight);
  }

  /** For a live perp account of an instrument with a market cache, the row
      carries the position, funding, asset and liability values, and its
      perp health base and quote are what `PerpScenario` reports for the
      position and order quantities, with the quote position (shifted by the
      quote token's decimals) plus funding plus taker quote as settled quote. */
  lemma RowPerpHealth(slot: AccountSlot, ctx: Context)
    requires slot.perpAccount.Some? && !ctx.env.perpIsEmpty(slot.perpAccount.value)
    requires ctx.env.marketCache(slot.baseInstrument).Some?
    requires RowFor(slot, ctx).Ok?
    ensures ctx.env.perpMarketConfigured(slot.index)
    ensures ctx.env.marketCache(slot.baseInstrument).value.perpMarket.Some?
    ensures var row, env, perp := RowFor(slot, ctx).value, ctx.env, slot.perpAccount.value;
            var cached := env.marketCache(slot.baseInstrument).value.perpMarket.value;
            var position := env.baseLotsToNumber(perp.converter, perp.record.basePosition);
            var funding := env.unsettledFunding(perp, cached);
            && row.perpPositionSize == position
            && row.perpValue == perp.record.quotePositionRaw
            && row.unsettledFunding == funding
            && row.perpAsset == env.perpAssetValue(perp, cached, row.currentPrice)
            && row.perpLiability == env.perpLiabilityValue(perp, cached, row.currentPrice)
            && Health(row.perpHealthBase, row.perpHealthQuote) ==
                 PerpScenario(position,
                              env.baseLotsToNumber(perp.converter, perp.record.bidsQuantity),
                              env.baseLotsToNumber(perp.converter, perp.record.asksQuantity),
                              PerpSettledQuote(perp, cached, ctx.quoteToken, env),
                              row.currentPrice)
  {
  }

  /** Weights come from the group slot of an instrument with a market cache
      when that slot configures the market; otherwise they are all 1 for the
      shared quote token and all 0 for anything else. */
  lemma RowWeights(slot: AccountSlot, ctx: Context)
    requires RowFor(slot, ctx).Ok?
    ensures var row := RowFor(slot, ctx).value;
            var fallback := if slot.baseInstrument == ctx.quoteToken then UnitWeights else ZeroWeights;
            var cached := ctx.env.marketCache(slot.baseInstrument).Some?;
            && (!cached ==> row.spotWeights == fallback && row.perpWeights == fallback)
            && (cached ==>
                  var gs := ctx.env.groupSlotByInstrument(slot.baseInstrument);
                  && gs.Some?
                  && row.spotWeights == (if gs.value.spotMarket.Some? then gs.value.spotMarket.value else fallback)
                  && row.perpWeights == (if gs.value.perpMarket.Some? then gs.value.perpMarket.value else fallback))
  {
  }

  /** A row fails exactly when the price is missing, the spot open orders
      are not loaded, the price is zero under open orders, the perp market
      is missing from the group or the cache for a live perp account, or the
      group has no slot for a cached instrument. */
  lemma RowFailsExactly(slot: AccountSlot, ctx: Context)
    ensures RowFor(slot, ctx).Err? <==>
              var env := ctx.env;
              var cache := env.marketCache(slot.baseInstrument);
              var livePerp := slot.perpAccount.Some? && !env.perpIsEmpty(slot.perpAccount.value) && cache.Some?;
              || env.tokenPrice(slot.baseInstrument).None?
              || (slot.spotOpenOrders.Some? && slot.spotOpenOrders.value !in ctx.openOrders)
              || (slot.spotOpenOrders.Some? && env.tokenPrice(slot.baseInstrument) == Some(0.0))
              || (livePerp && (!env.perpMarketConfigured(slot.index) || cache.value.perpMarket.None?))
              || (cache.Some? && env.groupSlotByInstrument(slot.baseInstrument).None?)
  {
  }

  /** The first failing check decides the error: a missing price before
      anything else, then unloaded open orders. */
  lemma RowErrorOrder(slot: AccountSlot, ctx: Context)
    ensures ctx.env.tokenPrice(slot.baseInstrument).None? ==>
              RowFor(slot, ctx) == Err(MissingPrice(slot.baseInstrument))
    ensures ctx.env.tokenPrice(slot.baseInstrument).Some? && slot.spotOpenOrders.Some? &&
            slot.spotOpenOrders.value !in ctx.openOrders ==>
              RowFor(slot, ctx) == Err(OpenOrdersNotLoaded(slot.spotOpenOrders.value))
  {
  }
}
