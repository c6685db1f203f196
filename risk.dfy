/** The risk reductions over a valuation table: weighted and unweighted
    assets and liabilities, health, health ratios, total value, leverage and
    the liquidation test. The shared quote token is passed in; rows whose
    symbol is the quote token's symbol are the quote rows. */
module Risk {
  import opened Wrappers
  import opened Seqs
  import opened MangoTypes
  import opened Valuation

  datatype Weighting = Init | Maint

  function AssetWeight(w: Weights, weighting: Weighting): real
  {
    if weighting == Init then w.initAsset else w.maintAsset
  }

  function LiabilityWeight(w: Weights, weighting: Weighting): real
  {
    if weighting == Init then w.initLiab else w.maintLiab
  }

  /** Assets and liabilities. */
  datatype Split = Split(assets: real, liabilities: real)

  /** A quote total is an asset when positive and a liability otherwise. */
  function SplitQuote(quote: real): (r: Split)
    ensures r.assets + r.liabilities == quote
    ensures r.assets >= 0.0 && r.liabilities <= 0.0
    ensures r.assets > 0.0 <==> quote > 0.0
  {
    if quote > 0.0 then Split(quote, 0.0) else Split(0.0, quote)
  }

  // ---------------------------------------------------------------------
  // Columns

  /** The plain columns the reductions sum. */
  datatype Column =
    | SpotValue | PerpHealthQuote | QuoteUnsettled | QuoteLocked
    | SpotDepositValue | SpotBorrowValue | BaseLockedValue | PerpAsset | PerpLiability

  function Field(c: Column, r: Row): real
  {
    match c
    case SpotValue => r.spotValue
    case PerpHealthQuote => r.perpHealthQuote
    case QuoteUnsettled => r.quoteUnsettled
    case QuoteLocked => r.quoteLocked
    case SpotDepositValue => r.spotDepositValue
    case SpotBorrowValue => r.spotBorrowValue
    case BaseLockedValue => r.baseLockedValue
    case PerpAsset => r.perpAsset
    case PerpLiability => r.perpLiability
  }

  function Col(c: Column): Row -> real
  {
    (r: Row) => Field(c, r)
  }

  /** `f` on the rows that are not quote rows, 0 on quote rows. */
  function NonQuote(quoteSymbol: string, f: Row -> real): Row -> real
  {
    (r: Row) => if r.symbol != quoteSymbol then f(r) else 0.0
  }

  /** `f` on the quote rows, 0 elsewhere. */
  function OnQuote(quoteSymbol: string, f: Row -> real): Row -> real
  {
    (r: Row) => if r.symbol == quoteSymbol then f(r) else 0.0
  }

  /** `f` on the rows in the margin basket, 0 elsewhere. */
  function InBasket(f: Row -> real): Row -> real
  {
    (r: Row) => if r.inMarginBasket then f(r) else 0.0
  }

  function Plus(f: Row -> real, g: Row -> real): Row -> real
  {
    (r: Row) => f(r) + g(r)
  }

  /** The weighted health a base value adds: the asset weight on a positive
      value, the liability weight on a negative one. */
  function WeightedBase(value: real, w: Weights, weighting: Weighting): real
  {
    if value > 0.0 then value * AssetWeight(w, weighting)
    else if value < 0.0 then value * LiabilityWeight(w, weighting)
    else 0.0
  }

  function SpotAssetHealth(weighting: Weighting): Row -> real
  {
    (r: Row) => if r.spotHealthBaseValue > 0.0 then r.spotHealthBaseValue * AssetWeight(r.spotWeights, weighting) else 0.0
  }

  function SpotLiabilityHealth(weighting: Weighting): Row -> real
  {
    (r: Row) => if r.spotHealthBaseValue < 0.0 then r.spotHealthBaseValue * LiabilityWeight(r.spotWeights, weighting) else 0.0
  }

  function PerpAssetHealth(weighting: Weighting): Row -> real
  {
    (r: Row) => if r.perpHealthBaseValue > 0.0 then r.perpHealthBaseValue * AssetWeight(r.perpWeights, weighting) else 0.0
  }

  function PerpLiabilityHealth(weighting: Weighting): Row -> real
  {
    (r: Row) => if r.perpHealthBaseValue < 0.0 then r.perpHealthBaseValue * LiabilityWeight(r.perpWeights, weighting) else 0.0
  }

  // ---------------------------------------------------------------------
  // Reductions

  /** The quote position behind weighted health: the quote rows' spot value,
      every row's perp health quote, and the quote unsettled of rows in the
      margin basket. */
  function QuoteTotal(rows: seq<Row>, quoteSymbol: string): real
  {
    Sum(rows, OnQuote(quoteSymbol, Col(SpotValue))) + Sum(rows, Col(PerpHealthQuote))
    + Sum(rows, InBasket(Col(QuoteUnsettled)))
  }

  /** `weighted_assets`: the quote total split by sign, plus the weighted
      spot and perp health base values of the non-quote rows. Assets and
      liabilities together are the quote total plus, per non-quote row, its
      spot and perp health base values each weighted by the asset weight when
      positive and the liability weight when negative. */
  function WeightedAssets(rows: seq<Row>, quoteSymbol: string, weighting: Weighting): (r: Split)
    ensures r.assets + r.liabilities ==
              QuoteTotal(rows, quoteSymbol) + Sum(rows, NonQuote(quoteSymbol, RowWeightedHealth(weighting)))
  {
    WeightedColumnsRegroup(rows, quoteSymbol, weighting);
    var quote := SplitQuote(QuoteTotal(rows, quoteSymbol));
    Split(quote.assets + (Sum(rows, NonQuote(quoteSymbol, SpotAssetHealth(weighting)))
                          + Sum(rows, NonQuote(quoteSymbol, PerpAssetHealth(weighting)))),
          quote.liabilities + (Sum(rows, NonQuote(quoteSymbol, SpotLiabilityHealth(weighting)))
                               + Sum(rows, NonQuote(quoteSymbol, PerpLiabilityHealth(weighting)))))
  }

  /** `unweighted_assets`: the quote rows' spot value split by sign, plus the
      non-quote rows' borrow and perp liability values as liabilities and
      their deposit, locked base, perp asset, quote unsettled and quote
      locked values as assets. Assets and liabilities together are the quote
      rows' spot value plus each non-quote row's deposit, borrow, locked base,
      perp asset and liability and quote open-order values. */
  function UnweightedAssets(rows: seq<Row>, quoteSymbol: string): (r: Split)
    ensures r.assets + r.liabilities ==
              Sum(rows, OnQuote(quoteSymbol, Col(SpotValue))) + Sum(rows, NonQuote(quoteSymbol, RowValue))
  {
    ValueColumnsRegroup(rows, quoteSymbol);
    var quote := SplitQuote(Sum(rows, OnQuote(quoteSymbol, Col(SpotValue))));
    Split(quote.assets + (Sum(rows, NonQuote(quoteSymbol, Col(SpotDepositValue)))
                          + Sum(rows, NonQuote(quoteSymbol, Col(BaseLockedValue)))
                          + Sum(rows, NonQuote(quoteSymbol, Col(PerpAsset)))
                          + Sum(rows, NonQuote(quoteSymbol, Col(QuoteUnsettled)))
                          + Sum(rows, NonQuote(quoteSymbol, Col(QuoteLocked)))),
          quote.liabilities + (Sum(rows, NonQuote(quoteSymbol, Col(SpotBorrowValue)))
                               + Sum(rows, NonQuote(quoteSymbol, Col(PerpLiability)))))
  }

  function WeightedHealth(rows: seq<Row>, quoteToken: Instrument, weighting: Weighting): (h: InstrumentValue)
    ensures h.instrument == quoteToken
    ensures h.value == QuoteTotal(rows, quoteToken.symbol) + Sum(rows, NonQuote(quoteToken.symbol, RowWeightedHealth(weighting)))
  {
    var split := WeightedAssets(rows, quoteToken.symbol, weighting);
    InstrumentValue(quoteToken, split.assets + split.liabilities)
  }

  function InitHealth(rows: seq<Row>, quoteToken: Instrument): (h: InstrumentValue)
    ensures h.instrument == quoteToken
    ensures h.value == QuoteTotal(rows, quoteToken.symbol) + Sum(rows, NonQuote(quoteToken.symbol, RowWeightedHealth(Init)))
  {
    WeightedHealth(rows, quoteToken, Init)
  }

  function MaintHealth(rows: seq<Row>, quoteToken: Instrument): (h: InstrumentValue)
    ensures h.instrument == quoteToken
    ensures h.value == QuoteTotal(rows, quoteToken.symbol) + Sum(rows, NonQuote(quoteToken.symbol, RowWeightedHealth(Maint)))
  {
    WeightedHealth(rows, quoteToken, Maint)
  }

  /** 100 without liabilities; otherwise how far assets exceed liabilities,
      in percent. */
  function HealthRatio(split: Split): real
  {
    if split.liabilities == 0.0 then 100.0
    else ((split.assets / -split.liabilities) - 1.0) * 100.0
  }

  /** The initial health ratio: 100 without initial liabilities, otherwise
      initial health over the liabilities' magnitude, in percent. */
  function InitHealthRatio(rows: seq<Row>, quoteToken: Instrument): (r: real)
    ensures var l := WeightedAssets(rows, quoteToken.symbol, Init).liabilities;
            && (l == 0.0 ==> r == 100.0)
            && (l < 0.0 ==> r == InitHealth(rows, quoteToken).value / -l * 100.0)
  {
    HealthRatioTracksHealth(WeightedAssets(rows, quoteToken.symbol, Init));
    HealthRatio(WeightedAssets(rows, quoteToken.symbol, Init))
  }

  /** The maintenance health ratio: 100 without maintenance liabilities,
      otherwise maintenance health over the liabilities' magnitude, in
      percent. */
  function MaintHealthRatio(rows: seq<Row>, quoteToken: Instrument): (r: real)
    ensures var l := WeightedAssets(rows, quoteToken.symbol, Maint).liabilities;
            && (l == 0.0 ==> r == 100.0)
            && (l < 0.0 ==> r == MaintHealth(rows, quoteToken).value / -l * 100.0)
  {
    HealthRatioTracksHealth(WeightedAssets(rows, quoteToken.symbol, Maint));
    HealthRatio(WeightedAssets(rows, quoteToken.symbol, Maint))
  }

  function TotalValue(rows: seq<Row>, quoteToken: Instrument): (v: InstrumentValue)
    ensures v.instrument == quoteToken
    ensures v.value == Sum(rows, OnQuote(quoteToken.symbol, Col(SpotValue))) + Sum(rows, NonQuote(quoteToken.symbol, RowValue))
  {
    var split := UnweightedAssets(rows, quoteToken.symbol);
    InstrumentValue(quoteToken, split.assets + split.liabilities)
  }

  /** Liquidatable when maintenance health is negative, or when already
      being liquidated and initial health is negative. Not being liquidated,
      maintenance health alone decides. */
  function IsLiquidatable(rows: seq<Row>, quoteToken: Instrument, beingLiquidated: bool): (r: bool)
    ensures !beingLiquidated ==> (r <==> MaintHealth(rows, quoteToken).value < 0.0)
    ensures MaintHealth(rows, quoteToken).value < 0.0 ==> r
    ensures beingLiquidated && InitHealth(rows, quoteToken).value < 0.0 ==> r
    ensures beingLiquidated && InitHealth(rows, quoteToken).value >= 0.0 ==>
              (r <==> MaintHealth(rows, quoteToken).value < 0.0)
  {
    (beingLiquidated && InitHealth(rows, quoteToken).value < 0.0) || MaintHealth(rows, quoteToken).value < 0.0
  }

  /** 0 without positive assets; otherwise liabilities over total value, a
      division that fails when the total value is zero. */
  function Leverage(rows: seq<Row>, quoteToken: Instrument): (r: Result<real, Error>)
    ensures r.Err? ==> r.error == DivisionByZero
  {
    var split := UnweightedAssets(rows, quoteToken.symbol);
    if split.assets <= 0.0 then Ok(0.0)
    else if split.assets + split.liabilities == 0.0 then Err(DivisionByZero)
    else Ok(-split.liabilities / (split.assets + split.liabilities))
  }

  // ---------------------------------------------------------------------
  // Properties

  /** Every non-quote row's weights for `weighting` are non-negative. */
  ghost predicate NonNegativeWeights(rows: seq<Row>, quoteSymbol: string, weighting: Weighting)
  {
    forall k :: 0 <= k < |rows| && rows[k].symbol != quoteSymbol ==>
      && AssetWeight(rows[k].spotWeights, weighting) >= 0.0
      && LiabilityWeight(rows[k].spotWeights, weighting) >= 0.0
      && AssetWeight(rows[k].perpWeights, weighting) >= 0.0
      && LiabilityWeight(rows[k].perpWeights, weighting) >= 0.0
  }

  /** With non-negative weights, weighted assets are never negative and
      weighted liabilities never positive. */
  lemma WeightedAssetsSigns(rows: seq<Row>, quoteSymbol: string, weighting: Weighting)
    requires NonNegativeWeights(rows, quoteSymbol, weighting)
    ensures WeightedAssets(rows, quoteSymbol, weighting).assets >= 0.0
    ensures WeightedAssets(rows, quoteSymbol, weighting).liabilities <= 0.0
  {
    forall k | 0 <= k < |rows|
      ensures NonQuote(quoteSymbol, SpotAssetHealth(weighting))(rows[k]) >= 0.0
      ensures NonQuote(quoteSymbol, PerpAssetHealth(weighting))(rows[k]) >= 0.0
      ensures NonQuote(quoteSymbol, SpotLiabilityHealth(weighting))(rows[k]) <= 0.0
      ensures NonQuote(quoteSymbol, PerpLiabilityHealth(weighting))(rows[k]) <= 0.0
    {
      var r := rows[k];
      if r.symbol != quoteSymbol {
        MulSigns(r.spotHealthBaseValue, AssetWeight(r.spotWeights, weighting));
        MulSigns(r.perpHealthBaseValue, AssetWeight(r.perpWeights, weighting));
        MulSigns(r.spotHealthBaseValue, LiabilityWeight(r.spotWeights, weighting));
        MulSigns(r.perpHealthBaseValue, LiabilityWeight(r.perpWeights, weighting));
      }
    }
    SumNonNegative(rows, NonQuote(quoteSymbol, SpotAssetHealth(weighting)));
    SumNonNegative(rows, NonQuote(quoteSymbol, PerpAssetHealth(weighting)));
    SumNonPositive(rows, NonQuote(quoteSymbol, SpotLiabilityHealth(weighting)));
    SumNonPositive(rows, NonQuote(quoteSymbol, PerpLiabilityHealth(weighting)));
  }

  lemma MulSigns(x: real, w: real)
    requires w >= 0.0
    ensures x > 0.0 ==> x * w >= 0.0
    ensures x < 0.0 ==> x * w <= 0.0
  {
  }

  /** The weighted health a row adds besides its quote parts. */
  function RowWeightedHealth(weighting: Weighting): Row -> real
  {
    (r: Row) => WeightedBase(r.spotHealthBaseValue, r.spotWeights, weighting)
         + WeightedBase(r.perpHealthBaseValue, r.perpWeights, weighting)
  }

  /** The four weighted column sums of the non-quote rows add up to the sum
      of their per-row weighted health. */
  lemma WeightedColumnsRegroup(rows: seq<Row>, q: string, weighting: Weighting)
    ensures Sum(rows, NonQuote(q, SpotAssetHealth(weighting))) + Sum(rows, NonQuote(q, PerpAssetHealth(weighting)))
            + (Sum(rows, NonQuote(q, SpotLiabilityHealth(weighting))) + Sum(rows, NonQuote(q, PerpLiabilityHealth(weighting))))
            == Sum(rows, NonQuote(q, RowWeightedHealth(weighting)))
  {
    var sa, pa := NonQuote(q, SpotAssetHealth(weighting)), NonQuote(q, PerpAssetHealth(weighting));
    var sl, pl := NonQuote(q, SpotLiabilityHealth(weighting)), NonQuote(q, PerpLiabilityHealth(weighting));
    SumPlus(rows, sa, sl);
    SumPlus(rows, pa, pl);
    forall k | 0 <= k < |rows|
      ensures NonQuote(q, RowWeightedHealth(weighting))(rows[k]) == Plus(sa, sl)(rows[k]) + Plus(pa, pl)(rows[k])
    {
      RowWeightedHealthSplits(q, weighting, rows[k]);
    }
    SumAdd(rows, Plus(sa, sl), Plus(pa, pl), NonQuote(q, RowWeightedHealth(weighting)));
  }

  /** A row's weighted health is its four weighted columns added up. */
  lemma RowWeightedHealthSplits(q: string, weighting: Weighting, r: Row)
    ensures var sa, pa := NonQuote(q, SpotAssetHealth(weighting)), NonQuote(q, PerpAssetHealth(weighting));
            var sl, pl := NonQuote(q, SpotLiabilityHealth(weighting)), NonQuote(q, PerpLiabilityHealth(weighting));
            NonQuote(q, RowWeightedHealth(weighting))(r) == Plus(sa, sl)(r) + Plus(pa, pl)(r)
  {
    if r.symbol != q {
      SpotHealthSplits(weighting, r);
      PerpHealthSplits(weighting, r);
    }
  }

  /** A row's weighted spot health is its spot asset part plus its spot
      liability part. */
  lemma SpotHealthSplits(weighting: Weighting, r: Row)
    ensures SpotAssetHealth(weighting)(r) + SpotLiabilityHealth(weighting)(r) ==
              WeightedBase(r.spotHealthBaseValue, r.spotWeights, weighting)
  {
  }

  /** A row's weighted perp health is its perp asset part plus its perp
      liability part. */
  lemma PerpHealthSplits(weighting: Weighting, r: Row)
    ensures PerpAssetHealth(weighting)(r) + PerpLiabilityHealth(weighting)(r) ==
              WeightedBase(r.perpHealthBaseValue, r.perpWeights, weighting)
  {
  }

  lemma SumPlus(rows: seq<Row>, f: Row -> real, g: Row -> real)
    ensures Sum(rows, Plus(f, g)) == Sum(rows, f) + Sum(rows, g)
  {
    forall k | 0 <= k < |rows|
      ensures Plus(f, g)(rows[k]) == f(rows[k]) + g(rows[k])
    {
    }
    SumAdd(rows, f, g, Plus(f, g));
  }

  /** Without liabilities the ratio is exactly 100; otherwise it is health
      over liabilities in percent, so it has health's sign. */
  lemma HealthRatioTracksHealth(split: Split)
    ensures split.liabilities == 0.0 ==> HealthRatio(split) == 100.0
    ensures split.liabilities < 0.0 ==>
              && HealthRatio(split) == (split.assets + split.liabilities) / -split.liabilities * 100.0
              && (HealthRatio(split) < 0.0 <==> split.assets + split.liabilities < 0.0)
              && (HealthRatio(split) == 0.0 <==> split.assets + split.liabilities == 0.0)
  {
    if split.liabilities < 0.0 {
      var l := -split.liabilities;
      DivLessOne(split.assets, l);
      DivSign(split.assets - l, l);
    }
  }

  lemma DivLessOne(x: real, d: real)
    requires d > 0.0
    ensures x / d - 1.0 == (x - d) / d
  {
    assert (x / d - 1.0) * d == x - d;
    assert (x - d) / d * d == x - d;
    MulCancel(x / d - 1.0, (x - d) / d, d);
  }

  lemma MulCancel(u: real, v: real, d: real)
    requires d > 0.0 && u * d == v * d
    ensures u == v
  {
    assert (u - v) * d == 0.0;
  }

  lemma DivSign(x: real, d: real)
    requires d > 0.0
    ensures x / d < 0.0 <==> x < 0.0
    ensures x / d == 0.0 <==> x == 0.0
  {
    assert x / d * d == x;
    if x < 0.0 {
      assert x / d < 0.0;
    } else if x > 0.0 {
      assert x / d > 0.0;
    }
  }

  /** With non-negative initial weights the initial health ratio is
      negative exactly when initial health is. */
  lemma InitHealthRatioSign(rows: seq<Row>, quoteToken: Instrument)
    requires NonNegativeWeights(rows, quoteToken.symbol, Init)
    ensures InitHealthRatio(rows, quoteToken) < 0.0 <==> InitHealth(rows, quoteToken).value < 0.0
  {
    var split := WeightedAssets(rows, quoteToken.symbol, Init);
    WeightedAssetsSigns(rows, quoteToken.symbol, Init);
    HealthRatioTracksHealth(split);
  }

  /** With non-negative maintenance weights the maintenance health ratio is
      negative exactly when maintenance health is. */
  lemma MaintHealthRatioSign(rows: seq<Row>, quoteToken: Instrument)
    requires NonNegativeWeights(rows, quoteToken.symbol, Maint)
    ensures MaintHealthRatio(rows, quoteToken) < 0.0 <==> MaintHealth(rows, quoteToken).value < 0.0
  {
    var split := WeightedAssets(rows, quoteToken.symbol, Maint);
    WeightedAssetsSigns(rows, quoteToken.symbol, Maint);
    HealthRatioTracksHealth(split);
  }

  /** The value a non-quote row adds to the total value. */
  const RowValue: Row -> real :=
    (r: Row) => r.spotDepositValue + r.spotBorrowValue + r.baseLockedValue + r.perpAsset + r.perpLiability
                + r.quoteUnsettled + r.quoteLocked

  /** The seven value column sums of the non-quote rows add up to the sum of
      their per-row values. */
  lemma ValueColumnsRegroup(rows: seq<Row>, q: string)
    ensures Sum(rows, NonQuote(q, Col(SpotDepositValue))) + Sum(rows, NonQuote(q, Col(BaseLockedValue)))
            + Sum(rows, NonQuote(q, Col(PerpAsset))) + Sum(rows, NonQuote(q, Col(QuoteUnsettled)))
            + Sum(rows, NonQuote(q, Col(QuoteLocked)))
            + (Sum(rows, NonQuote(q, Col(SpotBorrowValue))) + Sum(rows, NonQuote(q, Col(PerpLiability))))
            == Sum(rows, NonQuote(q, RowValue))
  {
    var dv, bv, lv := NonQuote(q, Col(SpotDepositValue)), NonQuote(q, Col(SpotBorrowValue)), NonQuote(q, Col(BaseLockedValue));
    var pa, pl := NonQuote(q, Col(PerpAsset)), NonQuote(q, Col(PerpLiability));
    var qu, ql := NonQuote(q, Col(QuoteUnsettled)), NonQuote(q, Col(QuoteLocked));
    SumPlus(rows, dv, bv);
    SumPlus(rows, Plus(dv, bv), lv);
    SumPlus(rows, Plus(Plus(dv, bv), lv), pa);
    SumPlus(rows, Plus(Plus(Plus(dv, bv), lv), pa), pl);
    SumPlus(rows, Plus(Plus(Plus(Plus(dv, bv), lv), pa), pl), qu);
    var sixColumns := Plus(Plus(Plus(Plus(Plus(dv, bv), lv), pa), pl), qu);
    forall k | 0 <= k < |rows|
      ensures NonQuote(q, RowValue)(rows[k]) == sixColumns(rows[k]) + ql(rows[k])
    {
      var r := rows[k];
      assert sixColumns(r) == dv(r) + bv(r) + lv(r) + pa(r) + pl(r) + qu(r);
    }
    SumAdd(rows, sixColumns, ql, NonQuote(q, RowValue));
  }

  /** Leverage fails exactly when there are assets but the total value is
      zero; otherwise, with assets, leverage times total value is minus the
      liabilities, and it is 0 without assets. */
  lemma LeverageMeaning(rows: seq<Row>, quoteToken: Instrument)
    ensures var split := UnweightedAssets(rows, quoteToken.symbol);
            Leverage(rows, quoteToken).Err? <==> split.assets > 0.0 && TotalValue(rows, quoteToken).value == 0.0
    ensures var split := UnweightedAssets(rows, quoteToken.symbol);
            Leverage(rows, quoteToken).Ok? && split.assets > 0.0 ==>
              Leverage(rows, quoteToken).value * TotalValue(rows, quoteToken).value == -split.liabilities
    ensures UnweightedAssets(rows, quoteToken.symbol).assets <= 0.0 ==> Leverage(rows, quoteToken) == Ok(0.0)
  {
  }

  /** Leverage is non-negative when the total value is positive and every
      non-quote row's borrow value and perp liability are non-positive. */
  lemma LeverageNonNegative(rows: seq<Row>, quoteToken: Instrument)
    requires forall k :: 0 <= k < |rows| && rows[k].symbol != quoteToken.symbol ==>
               rows[k].spotBorrowValue <= 0.0 && rows[k].perpLiability <= 0.0
    requires TotalValue(rows, quoteToken).value > 0.0
    ensures Leverage(rows, quoteToken).Ok? && Leverage(rows, quoteToken).value >= 0.0
  {
    var q := quoteToken.symbol;
    forall k | 0 <= k < |rows|
      ensures NonQuote(q, Col(SpotBorrowValue))(rows[k]) <= 0.0 && NonQuote(q, Col(PerpLiability))(rows[k]) <= 0.0
    {
    }
    SumNonPositive(rows, NonQuote(q, Col(SpotBorrowValue)));
    SumNonPositive(rows, NonQuote(q, Col(PerpLiability)));
    var split := UnweightedAssets(rows, q);
    if split.assets > 0.0 {
      DivSign(-split.liabilities, split.assets + split.liabilities);
    }
  }

  /** Maintenance weights are no stricter than initial ones when every
      non-quote row's maintenance asset weights are at least, and its
      maintenance liability weights at most, the initial ones. */
  ghost predicate MaintLooserThanInit(rows: seq<Row>, quoteSymbol: string)
  {
    forall k :: 0 <= k < |rows| && rows[k].symbol != quoteSymbol ==>
      && rows[k].spotWeights.maintAsset >= rows[k].spotWeights.initAsset
      && rows[k].spotWeights.maintLiab <= rows[k].spotWeights.initLiab
      && rows[k].perpWeights.maintAsset >= rows[k].perpWeights.initAsset
      && rows[k].perpWeights.maintLiab <= rows[k].perpWeights.initLiab
  }

  lemma WeightedBaseMonotone(value: real, w: Weights)
    requires w.maintAsset >= w.initAsset && w.maintLiab <= w.initLiab
    ensures WeightedBase(value, w, Init) <= WeightedBase(value, w, Maint)
  {
    if value > 0.0 {
      assert value * w.maintAsset - value * w.initAsset == value * (w.maintAsset - w.initAsset);
      assert value * (w.maintAsset - w.initAsset) >= 0.0;
    } else if value < 0.0 {
      assert value * w.maintLiab - value * w.initLiab == value * (w.maintLiab - w.initLiab);
      assert value * (w.maintLiab - w.initLiab) >= 0.0;
    }
  }

  /** With maintenance weights no stricter than initial ones, initial health
      is at most maintenance health; so an account with non-negative initial
      health is not liquidatable. */
  lemma InitHealthBoundsMaint(rows: seq<Row>, quoteToken: Instrument, beingLiquidated: bool)
    requires MaintLooserThanInit(rows, quoteToken.symbol)
    ensures InitHealth(rows, quoteToken).value <= MaintHealth(rows, quoteToken).value
    ensures InitHealth(rows, quoteToken).value >= 0.0 ==> !IsLiquidatable(rows, quoteToken, beingLiquidated)
  {
    var q := quoteToken.symbol;
    forall k | 0 <= k < |rows|
      ensures NonQuote(q, RowWeightedHealth(Init))(rows[k]) <= NonQuote(q, RowWeightedHealth(Maint))(rows[k])
    {
      if rows[k].symbol != q {
        WeightedBaseMonotone(rows[k].spotHealthBaseValue, rows[k].spotWeights);
        WeightedBaseMonotone(rows[k].perpHealthBaseValue, rows[k].perpWeights);
      }
    }
    SumMonotone(rows, NonQuote(q, RowWeightedHealth(Init)), NonQuote(q, RowWeightedHealth(Maint)));
  }
}
