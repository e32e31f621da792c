/** The buy-and-hold advice engine of advice_engine.py: a rule engine that reads one row of
    a portfolio or screener table, applies three sell rules in order of precedence, and
    otherwise scores quality and valuation checks against fixed thresholds; plus the driver
    that writes the advice into the 'Advies' column of every share in a copied table.
 */
module Advice {
  import opened Common

  // ---------------------------------------------------------------------------
  // Profile (the nested dictionary built by the settings sidebar)
  // ---------------------------------------------------------------------------

  /** The profile keys the engine reads. Percentages are stored as the sidebar encodes them:
      the maximum position weight as a fraction and the sell-above-target level as the
      ratio price / target. */
  datatype Profile = Profile(
    // 'algemeen'
    maxPositionWeight: real,       // 'max_aandeel_in_portefeuille_%'
    sellAboveTargetRatio: real,    // 'verkoop_kans_boven_koersdoel_%'
    sellPeAbove: real,             // 'verkoop_bij_pe_ratio_boven'
    sellDebtEquityAbove: real,     // 'verkoop_bij_schuldgraad_boven'
    // 'technisch'
    minVolumeRatio: real,          // 'minimale_volume_ratio'
    trendCheckActive: bool,        // 'trend_check_actief'
    maxDistanceFromTop: real,      // 'max_afstand_van_top'
    // 'kwaliteit'
    minRoe: real,                  // 'min_return_on_equity_%'
    maxBeta: real,                 // 'max_beta'
    // 'waardering'
    minUpside: real,               // 'koop_kans_onder_koersdoel_%'
    maxPe: real,                   // 'max_pe_ratio_voor_koop'
    maxPb: real,                   // 'max_pb_ratio_voor_koop'
    maxPs: real,                   // 'max_ps_ratio_voor_koop'
    maxDebtEquity: real,           // 'max_debt_to_equity_voor_koop'
    minMargin: real)               // 'min_winstmarge_%'

  /** The values of the sidebar widgets, before encoding. */
  datatype Settings = Settings(
    maxPositionPct: real, sellAboveTargetPct: real, sellPeAbove: real, sellDebtEquityAbove: real,
    minVolumeRatio: real, trendCheckActive: bool, maxDistanceFromTopPct: real,
    minRoePct: real, maxBeta: real,
    minUpsidePct: real, maxPe: real, maxPb: real, maxPs: real, maxDebtEquity: real, minMarginPct: real)

  /** build_profile_sidebar's dictionary: percentages become fractions, and the sell-above-target
      percentage becomes the ratio 1 + pct / 100. */
  function ProfileFromSettings(s: Settings): (p: Profile)
    ensures p.maxPositionWeight * 100.0 == s.maxPositionPct
    ensures (p.sellAboveTargetRatio - 1.0) * 100.0 == s.sellAboveTargetPct
    ensures p.maxDistanceFromTop * 100.0 == s.maxDistanceFromTopPct
    ensures p.minRoe * 100.0 == s.minRoePct && p.minUpside * 100.0 == s.minUpsidePct
    ensures p.minMargin * 100.0 == s.minMarginPct
    ensures p.trendCheckActive == s.trendCheckActive
    ensures p.sellPeAbove == s.sellPeAbove && p.sellDebtEquityAbove == s.sellDebtEquityAbove
    ensures p.minVolumeRatio == s.minVolumeRatio && p.maxBeta == s.maxBeta
    ensures p.maxPe == s.maxPe && p.maxPb == s.maxPb && p.maxPs == s.maxPs
    ensures p.maxDebtEquity == s.maxDebtEquity
  {
    Profile(
      s.maxPositionPct / 100.0, 1.0 + s.sellAboveTargetPct / 100.0, s.sellPeAbove, s.sellDebtEquityAbove,
      s.minVolumeRatio, s.trendCheckActive, s.maxDistanceFromTopPct / 100.0,
      s.minRoePct / 100.0, s.maxBeta,
      s.minUpsidePct / 100.0, s.maxPe, s.maxPb, s.maxPs, s.maxDebtEquity, s.minMarginPct / 100.0)
  }

  // ---------------------------------------------------------------------------
  // One row
  // ---------------------------------------------------------------------------

  /** The columns the engine reads from one row. */
  datatype StockRow = StockRow(
    price: Cell,          // 'Huidige koers (EUR)', 0 when absent
    ma50: Cell,           // '50d MA', 0 when absent
    ma200: Cell,          // '200d MA', 0 when absent
    profitMargin: Cell,   // 'Winstmarge %'
    debtToEquity: Cell,   // 'Debt/Equity'
    peRatio: Cell,        // 'P/E Ratio'
    positionValue: Cell,  // 'Huidige Waarde (EUR)', 0 when absent
    targetPrice: Cell,    // 'Analist Koersdoel (EUR)', 0 when absent
    roe: Cell,            // 'Return on Equity', 0.0 when absent
    beta: Cell,           // 'Beta'
    high52w: Cell,        // '52w High', 0 when absent
    upside: Cell,         // 'Potentieel %', 0.0 when absent
    pbRatio: Cell,        // 'P/B Ratio'
    psRatio: Cell,        // 'P/S Ratio'
    volumeRatio: Cell,    // 'Volume Ratio', 0.0 when absent
    dayChange: Cell)      // 'Dagwijziging %', 0.0 when absent

  /** A real number or positive infinity (`float('inf')`). */
  datatype ExtReal = Finite(v: real) | PosInf

  predicate ExtGt(e: ExtReal, b: real)
  {
    e.PosInf? || e.v > b
  }

  predicate ExtLt(e: ExtReal, b: real)
  {
    e.Finite? && e.v < b
  }

  /** An unknown profit margin counts as 0.0. */
  function Margin(row: StockRow): (m: real)
    ensures !row.profitMargin.Num? ==> m == 0.0
  {
    if row.profitMargin.Num? then row.profitMargin.x else 0.0
  }

  /** An unknown debt/equity ratio counts as infinitely high. */
  function DebtEquity(row: StockRow): (d: ExtReal)
    ensures d.PosInf? <==> !row.debtToEquity.Num?
  {
    if row.debtToEquity.Num? then Finite(row.debtToEquity.x) else PosInf
  }

  /** An unknown P/E ratio counts as infinitely high. */
  function PeRatio(row: StockRow): (e: ExtReal)
    ensures e.PosInf? <==> !row.peRatio.Num?
  {
    if row.peRatio.Num? then Finite(row.peRatio.x) else PosInf
  }

  function Price(row: StockRow): Option<real>
  {
    GetOr(row.price, 0.0)
  }

  /** The price is below both the 50-day and the 200-day average. */
  predicate InDowntrend(row: StockRow)
  {
    Gt2(GetOr(row.ma50, 0.0), Price(row)) && Gt2(GetOr(row.ma200, 0.0), Price(row))
  }

  /** The four red flags: loss-making, extreme debt, extreme (positive) valuation, downtrend. */
  function RedFlags(row: StockRow, p: Profile): (flags: seq<bool>)
    ensures |flags| == 4
    ensures flags[0] <==> row.profitMargin.Num? && row.profitMargin.x < 0.0
    ensures flags[1] <==> !row.debtToEquity.Num? || row.debtToEquity.x > p.sellDebtEquityAbove
    ensures flags[2] <==> !row.peRatio.Num? || (row.peRatio.x > p.sellPeAbove && row.peRatio.x > 0.0)
    ensures flags[3] <==>
      !row.price.NaN? && !row.ma50.NaN? && !row.ma200.NaN?
      && ValueOf(row.price) < ValueOf(row.ma50) && ValueOf(row.price) < ValueOf(row.ma200)
  {
    [ Margin(row) < 0.0,
      ExtGt(DebtEquity(row), p.sellDebtEquityAbove),
      ExtGt(PeRatio(row), p.sellPeAbove) && ExtGt(PeRatio(row), 0.0),
      InDowntrend(row) ]
  }

  /** The position's share of the portfolio exceeds the maximum weight. */
  predicate OverWeight(row: StockRow, p: Profile, total: real)
    requires total > 0.0
    ensures OverWeight(row, p, total) <==>
      !row.positionValue.NaN? && ValueOf(row.positionValue) / total > p.maxPositionWeight
  {
    var value := GetOr(row.positionValue, 0.0);
    value.Some? && value.value / total > p.maxPositionWeight
  }

  /** Price and analyst target are both positive and price / target exceeds the ratio. */
  predicate Overvalued(row: StockRow, p: Profile)
    ensures Overvalued(row, p) <==>
      row.targetPrice.Num? && row.targetPrice.x > 0.0 && row.price.Num? && row.price.x > 0.0
      && row.price.x / row.targetPrice.x > p.sellAboveTargetRatio
  {
    var target := GetOr(row.targetPrice, 0.0);
    var price := Price(row);
    Gt(target, 0.0) && Gt(price, 0.0) && price.value / target.value > p.sellAboveTargetRatio
  }

  /** The total the screener pages pass. */
  const ScreenerTotal: real := 999_999_999.0

  /** Totals above 999 999 000 mark a screener run, for which no sell rule applies. */
  predicate IsScreenerRun(total: real)
    ensures total >= ScreenerTotal ==> IsScreenerRun(total)
  {
    total > 999_999_000.0
  }

  /** The eleven named checks of the breakdown. */
  datatype Checks = Checks(
    margin: bool, healthyDebt: bool, goodRoe: bool, stable: bool,
    uptrend: bool, nearTop: bool,
    undervalued: bool, healthyPe: bool, healthyPb: bool, healthyPs: bool,
    momentum: bool)

  /** 'Is in Uptrend': price > 50-day > 200-day average, evaluated only when both averages
      are positive. */
  predicate Uptrend(row: StockRow)
    ensures Uptrend(row) <==> row.ma50.Num? && row.ma200.Num? && row.price.Num?
                              && row.price.x > row.ma50.x > row.ma200.x > 0.0
  {
    var ma50 := GetOr(row.ma50, 0.0);
    var ma200 := GetOr(row.ma200, 0.0);
    if Gt(ma50, 0.0) && Gt(ma200, 0.0) then Gt2(Price(row), ma50) && Gt2(ma50, ma200) else false
  }

  /** The price as a fraction of the 52-week high. */
  function FractionOfHigh(price: real, high: real): real
    requires high != 0.0
  {
    price / high
  }

  /** 'Is Dicht bij Top': price / 52-week high > 1 - maximum distance, evaluated only when the
      52-week high is positive. */
  predicate NearTop(row: StockRow, p: Profile)
    ensures NearTop(row, p) <==>
      row.high52w.Num? && row.high52w.x > 0.0 && !row.price.NaN?
      && FractionOfHigh(Price(row).value, row.high52w.x) > 1.0 - p.maxDistanceFromTop
  {
    var high := GetOr(row.high52w, 0.0);
    if Gt(high, 0.0) then
      var price := Price(row);
      price.Some? && FractionOfHigh(price.value, high.value) > 1.0 - p.maxDistanceFromTop
    else false
  }

  /** A ratio check on a column without a default: known, below the maximum and positive. */
  predicate HealthyRatio(c: Cell, max: real)
    ensures HealthyRatio(c, max) <==> c.Num? && 0.0 < c.x < max
  {
    Lt(Known(c), max) && Gt(Known(c), 0.0)
  }

  /** The eleven checks of the breakdown. FundamentalChecksOnCells, TechnicalChecksOnCells and
      ValuationChecksOnCells state each of them on the row's cells. */
  function ChecksOf(row: StockRow, p: Profile): (c: Checks)
    ensures c.healthyDebt ==> row.debtToEquity.Num? && row.debtToEquity.x < p.maxDebtEquity
    ensures c.stable ==> row.beta.Num? && row.beta.x < p.maxBeta
    ensures c.uptrend ==> row.ma50.Num? && row.ma200.Num? && row.price.Num?
                          && row.price.x > row.ma50.x > row.ma200.x > 0.0
    ensures c.nearTop ==> row.high52w.Num? && row.high52w.x > 0.0
    ensures c.healthyPe ==> row.peRatio.Num? && 0.0 < row.peRatio.x < p.maxPe
    ensures c.healthyPb ==> row.pbRatio.Num? && 0.0 < row.pbRatio.x < p.maxPb
    ensures c.healthyPs ==> row.psRatio.Num? && 0.0 < row.psRatio.x < p.maxPs
    ensures c.momentum ==> Gt(GetOr(row.dayChange, 0.0), 0.0)
  {
    Checks(
      margin := Margin(row) > p.minMargin,
      healthyDebt := ExtLt(DebtEquity(row), p.maxDebtEquity),
      goodRoe := Gt(GetOr(row.roe, 0.0), p.minRoe),
      stable := Lt(Known(row.beta), p.maxBeta),
      uptrend := Uptrend(row),
      nearTop := NearTop(row, p),
      undervalued := Gt(GetOr(row.upside, 0.0), p.minUpside),
      healthyPe := ExtLt(PeRatio(row), p.maxPe) && ExtGt(PeRatio(row), 0.0),
      healthyPb := HealthyRatio(row.pbRatio, p.maxPb),
      healthyPs := HealthyRatio(row.psRatio, p.maxPs),
      momentum := Gt(GetOr(row.volumeRatio, 0.0), p.minVolumeRatio) && Gt(GetOr(row.dayChange, 0.0), 0.0))
  }

  /** The four fundamental checks of ChecksOf, stated on the row's cells: an unknown margin
      counts as 0, an absent ROE column as 0.0, and a NaN fails every comparison. */
  lemma FundamentalChecksOnCells(row: StockRow, p: Profile)
    ensures ChecksOf(row, p).margin <==>
      (if row.profitMargin.Num? then row.profitMargin.x else 0.0) > p.minMargin
    ensures ChecksOf(row, p).healthyDebt <==> row.debtToEquity.Num? && row.debtToEquity.x < p.maxDebtEquity
    ensures ChecksOf(row, p).goodRoe <==>
      (row.roe.Num? && row.roe.x > p.minRoe) || (row.roe.Missing? && 0.0 > p.minRoe)
    ensures ChecksOf(row, p).stable <==> row.beta.Num? && row.beta.x < p.maxBeta
  {
  }

  /** The four valuation checks and the momentum check of ChecksOf, stated on the row's cells:
      an absent upside, volume ratio or daily change column reads as 0.0. */
  lemma ValuationChecksOnCells(row: StockRow, p: Profile)
    ensures ChecksOf(row, p).undervalued <==>
      (row.upside.Num? && row.upside.x > p.minUpside) || (row.upside.Missing? && 0.0 > p.minUpside)
    ensures ChecksOf(row, p).healthyPe <==> row.peRatio.Num? && 0.0 < row.peRatio.x < p.maxPe
    ensures ChecksOf(row, p).healthyPb <==> row.pbRatio.Num? && 0.0 < row.pbRatio.x < p.maxPb
    ensures ChecksOf(row, p).healthyPs <==> row.psRatio.Num? && 0.0 < row.psRatio.x < p.maxPs
    ensures ChecksOf(row, p).momentum <==>
      ((row.volumeRatio.Num? && row.volumeRatio.x > p.minVolumeRatio)
       || (row.volumeRatio.Missing? && 0.0 > p.minVolumeRatio))
      && row.dayChange.Num? && row.dayChange.x > 0.0
  {
  }

  /** The two technical checks of ChecksOf, stated on the row's cells. */
  lemma TechnicalChecksOnCells(row: StockRow, p: Profile)
    ensures ChecksOf(row, p).uptrend <==>
      row.ma50.Num? && row.ma200.Num? && row.price.Num? && row.price.x > row.ma50.x > row.ma200.x > 0.0
    ensures ChecksOf(row, p).nearTop <==>
      row.high52w.Num? && row.high52w.x > 0.0 && !row.price.NaN?
      && FractionOfHigh(Price(row).value, row.high52w.x) > 1.0 - p.maxDistanceFromTop
  {
  }

  /** One passing check counts 1. */
  function Bit(b: bool): nat
  {
    if b then 1 else 0
  }

  lemma CountTwo(a: bool, b: bool)
    ensures CountTrue([a, b]) == Bit(a) + Bit(b)
  {
    assert [a, b][1..] == [b];
    assert [b][1..] == [];
  }

  lemma CountFour(a: bool, b: bool, c: bool, d: bool)
    ensures CountTrue([a, b, c, d]) == Bit(a) + Bit(b) + Bit(c) + Bit(d)
  {
    assert [d][1..] == [];
    assert CountTrue([d]) == Bit(d);
    assert [c, d][1..] == [d];
    assert CountTrue([c, d]) == Bit(c) + Bit(d);
    assert [b, c, d][1..] == [c, d];
    assert CountTrue([b, c, d]) == Bit(b) + Bit(c) + Bit(d);
    assert [a, b, c, d][1..] == [b, c, d];
  }

  function FundamentalChecks(c: Checks): seq<bool>
  {
    [c.margin, c.healthyDebt, c.goodRoe, c.stable]
  }

  function TechnicalChecks(c: Checks): seq<bool>
  {
    [c.uptrend, c.nearTop]
  }

  function ValuationChecks(c: Checks): seq<bool>
  {
    [c.undervalued, c.healthyPe, c.healthyPb, c.healthyPs]
  }

  /** The quality score counts the four fundamental checks, plus the two technical ones when
      the trend check is active. */
  function QualityScore(c: Checks, trendCheck: bool): (n: nat)
    ensures n <= (if trendCheck then 6 else 4)
    ensures !trendCheck ==> n == CountTrue(FundamentalChecks(c))
    ensures trendCheck ==> n == CountTrue(FundamentalChecks(c)) + CountTrue(TechnicalChecks(c))
    ensures n == Bit(c.margin) + Bit(c.healthyDebt) + Bit(c.goodRoe) + Bit(c.stable)
                 + (if trendCheck then Bit(c.uptrend) + Bit(c.nearTop) else 0)
    ensures n == (if trendCheck then 6 else 4) <==>
      c.margin && c.healthyDebt && c.goodRoe && c.stable && (trendCheck ==> c.uptrend && c.nearTop)
  {
    var fundamental := CountTrue(FundamentalChecks(c));
    CountFour(c.margin, c.healthyDebt, c.goodRoe, c.stable);
    if trendCheck then
      var technical := CountTrue(TechnicalChecks(c));
      CountTwo(c.uptrend, c.nearTop);
      fundamental + technical
    else fundamental
  }

  /** At least 3 of 4 fundamental checks, or 5 of 6 checks with the trend check. */
  function QualityThreshold(trendCheck: bool): nat
  {
    if trendCheck then 5 else 3
  }

  function ValueScore(c: Checks): (n: nat)
    ensures n <= 4
    ensures n == CountTrue(ValuationChecks(c))
    ensures n == Bit(c.undervalued) + Bit(c.healthyPe) + Bit(c.healthyPb) + Bit(c.healthyPs)
  {
    CountFour(c.undervalued, c.healthyPe, c.healthyPb, c.healthyPs);
    CountTrue(ValuationChecks(c))
  }

  /** At least 3 of the 4 valuation checks must pass. */
  const ValueThreshold: nat := 3

  datatype Advice =
    | SellFundamentals | SellRebalance | SellOvervalued
    | BuyStrongMomentum | BuyStrong | Hold

  function AdviceText(a: Advice): string
  {
    match a
    case SellFundamentals => "VERKOOP (SLECHTE FUNDAMENTALS)"
    case SellRebalance => "VERKOOP (HERBALANCEER)"
    case SellOvervalued => "VERKOOP (OVERGEWAARDEERD)"
    case BuyStrongMomentum => "KOOP (STERK SIGNAAL + MOMENTUM)"
    case BuyStrong => "KOOP (STERK SIGNAAL)"
    case Hold => "HOUDEN"
  }

  predicate IsSell(a: Advice)
  {
    a == SellFundamentals || a == SellRebalance || a == SellOvervalued
  }

  predicate IsBuy(a: Advice)
  {
    a == BuyStrongMomentum || a == BuyStrong
  }

  /** 'details': empty for a sell, otherwise both scores with their thresholds and all checks. */
  datatype Details =
    | NoDetails
    | Breakdown(qualityScore: nat, qualityThreshold: nat, valueScore: nat, valueThreshold: nat, checks: Checks)

  datatype Outcome = Outcome(advice: Advice, details: Details)

  /** The three sell rules, skipped in a screener run, in order of precedence: at least two
      red flags, then an overweight position, then a price too far above the analyst target. */
  function SellRule(row: StockRow, p: Profile, total: real): (a: Option<Advice>)
    requires total > 0.0
    ensures a.Some? ==> IsSell(a.value) && !IsScreenerRun(total)
    ensures a == Some(SellFundamentals) <==>
      !IsScreenerRun(total) && CountTrue(RedFlags(row, p)) >= 2
    ensures a == Some(SellRebalance) <==>
      !IsScreenerRun(total) && CountTrue(RedFlags(row, p)) < 2 && OverWeight(row, p, total)
    ensures a == Some(SellOvervalued) <==>
      !IsScreenerRun(total) && CountTrue(RedFlags(row, p)) < 2 && !OverWeight(row, p, total)
      && Overvalued(row, p)
  {
    if IsScreenerRun(total) then None
    else if CountTrue(RedFlags(row, p)) >= 2 then Some(SellFundamentals)
    else if OverWeight(row, p, total) then Some(SellRebalance)
    else if Overvalued(row, p) then Some(SellOvervalued)
    else None
  }

  /** The final decision: a buy exactly when both scores reach their thresholds; momentum
      only chooses between the two buy texts. */
  function BuyRule(c: Checks, trendCheck: bool): (a: Advice)
    ensures !IsSell(a)
    ensures IsBuy(a) <==>
      QualityScore(c, trendCheck) >= QualityThreshold(trendCheck) && ValueScore(c) >= ValueThreshold
    ensures a == BuyStrongMomentum <==> IsBuy(a) && c.momentum
  {
    if QualityScore(c, trendCheck) >= QualityThreshold(trendCheck) && ValueScore(c) >= ValueThreshold then
      (if c.momentum then BuyStrongMomentum else BuyStrong)
    else Hold
  }

  /** genereer_advies_per_rij. The total portfolio value is positive at every call: the row
      driver only calls it when the sum is positive, the screener pages pass 999 999 999. */
  function EvaluateRow(row: StockRow, p: Profile, total: real): (o: Outcome)
    requires total > 0.0
    ensures IsScreenerRun(total) ==> !IsSell(o.advice)
    ensures IsSell(o.advice) <==> o.details.NoDetails?
    ensures IsSell(o.advice) ==> SellRule(row, p, total) == Some(o.advice)
    ensures !IsSell(o.advice) ==>
      SellRule(row, p, total) == None
      && o.advice == BuyRule(ChecksOf(row, p), p.trendCheckActive)
      && o.details.checks == ChecksOf(row, p)
      && o.details.qualityScore == QualityScore(ChecksOf(row, p), p.trendCheckActive)
      && o.details.qualityThreshold == QualityThreshold(p.trendCheckActive)
      && o.details.valueScore == ValueScore(ChecksOf(row, p))
      && o.details.valueThreshold == ValueThreshold
  {
    var sell := SellRule(row, p, total);
    if sell.Some? then Outcome(sell.value, NoDetails)
    else
      var c := ChecksOf(row, p);
      Outcome(BuyRule(c, p.trendCheckActive),
              Breakdown(QualityScore(c, p.trendCheckActive), QualityThreshold(p.trendCheckActive),
                        ValueScore(c), ValueThreshold, c))
  }

  // ---------------------------------------------------------------------------
  // Properties of the rule engine
  // ---------------------------------------------------------------------------

  /** For a held position, an unknown debt/equity and an unknown P/E are two red flags
      (both count as +infinity), so the advice is to sell on fundamentals. */
  lemma UnknownDebtAndPeSells(row: StockRow, p: Profile, total: real)
    requires 0.0 < total <= 999_999_000.0
    requires !row.debtToEquity.Num? && !row.peRatio.Num?
    ensures EvaluateRow(row, p, total).advice == SellFundamentals
  {
    var flags := RedFlags(row, p);
    assert flags[1] && flags[2];
    assert CountTrue(flags) >= 2 by {
      assert CountTrue(flags) == (if flags[0] then 1 else 0) + 1 + 1 + (if flags[3] then 1 else 0) by {
        assert flags[1..][1..][1..][1..] == [];
      }
    }
  }

  /** Volume and daily change feed only the momentum check, which only chooses between the
      two buy texts: changing them never turns a buy into a hold or a sell, or back. */
  lemma MomentumOnlyChooses(row: StockRow, volumeRatio: Cell, dayChange: Cell, p: Profile, total: real)
    requires total > 0.0
    ensures var o1 := EvaluateRow(row, p, total);
            var o2 := EvaluateRow(row.(volumeRatio := volumeRatio, dayChange := dayChange), p, total);
            (IsBuy(o1.advice) <==> IsBuy(o2.advice)) && (!IsBuy(o1.advice) ==> o1.advice == o2.advice)
  {
    var row2 := row.(volumeRatio := volumeRatio, dayChange := dayChange);
    MomentumColumnsOnlyMomentum(row, volumeRatio, dayChange, p, total);
    var c1, c2 := ChecksOf(row, p), ChecksOf(row2, p);
    SameScores(c1, c2, p.trendCheckActive);
  }

  lemma MomentumColumnsOnlyMomentum(row: StockRow, volumeRatio: Cell, dayChange: Cell, p: Profile, total: real)
    requires total > 0.0
    ensures var row2 := row.(volumeRatio := volumeRatio, dayChange := dayChange);
            var c1, c2 := ChecksOf(row, p), ChecksOf(row2, p);
            SellRule(row2, p, total) == SellRule(row, p, total)
            && FundamentalChecks(c1) == FundamentalChecks(c2)
            && TechnicalChecks(c1) == TechnicalChecks(c2)
            && ValuationChecks(c1) == ValuationChecks(c2)
  {
    var row2 := row.(volumeRatio := volumeRatio, dayChange := dayChange);
    SellRuleReadsNoMomentum(row, row2, p, total);
    ChecksReadMomentumOnlyForMomentum(row, row2, p);
  }

  /** Of the checks, only momentum reads the volume ratio and the daily change. */
  lemma ChecksReadMomentumOnlyForMomentum(row: StockRow, row2: StockRow, p: Profile)
    requires row2 == row.(volumeRatio := row2.volumeRatio, dayChange := row2.dayChange)
    ensures var c1, c2 := ChecksOf(row, p), ChecksOf(row2, p);
            FundamentalChecks(c1) == FundamentalChecks(c2)
            && TechnicalChecks(c1) == TechnicalChecks(c2)
            && ValuationChecks(c1) == ValuationChecks(c2)
  {
    assert ChecksOf(row2, p) == ChecksOf(row, p).(momentum := ChecksOf(row2, p).momentum);
  }

  /** The sell rules read neither the volume ratio nor the daily change. */
  lemma SellRuleReadsNoMomentum(row: StockRow, row2: StockRow, p: Profile, total: real)
    requires total > 0.0
    requires row2 == row.(volumeRatio := row2.volumeRatio, dayChange := row2.dayChange)
    ensures SellRule(row2, p, total) == SellRule(row, p, total)
  {
    assert RedFlags(row2, p) == RedFlags(row, p);
  }

  /** Checks that agree on everything but momentum give the same scores, hence the same
      verdict up to the choice between the two buy texts. */
  lemma SameScores(c1: Checks, c2: Checks, trendCheck: bool)
    requires FundamentalChecks(c1) == FundamentalChecks(c2)
    requires TechnicalChecks(c1) == TechnicalChecks(c2)
    requires ValuationChecks(c1) == ValuationChecks(c2)
    ensures IsBuy(BuyRule(c1, trendCheck)) <==> IsBuy(BuyRule(c2, trendCheck))
    ensures !IsBuy(BuyRule(c1, trendCheck)) ==> BuyRule(c1, trendCheck) == BuyRule(c2, trendCheck)
  {
    assert QualityScore(c1, trendCheck) == QualityScore(c2, trendCheck);
    assert ValueScore(c1) == ValueScore(c2);
  }

  /** In a screener run with the trend check off, the 50-day and 200-day averages and the
      52-week high change the breakdown but never the advice. */
  lemma TrendOffIgnoresTechnicalColumns(row: StockRow, ma50: Cell, ma200: Cell, high52w: Cell, p: Profile, total: real)
    requires IsScreenerRun(total) && !p.trendCheckActive
    ensures EvaluateRow(row, p, total).advice ==
            EvaluateRow(row.(ma50 := ma50, ma200 := ma200, high52w := high52w), p, total).advice
  {
    var row2 := row.(ma50 := ma50, ma200 := ma200, high52w := high52w);
    ChecksReadTrendColumnsOnlyForTrend(row, row2, p);
    TrendOffSameVerdict(ChecksOf(row, p), ChecksOf(row2, p));
  }

  /** Only the two technical checks read the moving averages and the 52-week high. */
  lemma ChecksReadTrendColumnsOnlyForTrend(row: StockRow, row2: StockRow, p: Profile)
    requires row2 == row.(ma50 := row2.ma50, ma200 := row2.ma200, high52w := row2.high52w)
    ensures var c1, c2 := ChecksOf(row, p), ChecksOf(row2, p);
            FundamentalChecks(c1) == FundamentalChecks(c2)
            && ValuationChecks(c1) == ValuationChecks(c2)
            && c1.momentum == c2.momentum
  {
    assert ChecksOf(row2, p) == ChecksOf(row, p).(uptrend := ChecksOf(row2, p).uptrend, nearTop := ChecksOf(row2, p).nearTop);
  }

  /** With the trend check off, the verdict ignores the technical checks. */
  lemma TrendOffSameVerdict(c1: Checks, c2: Checks)
    requires FundamentalChecks(c1) == FundamentalChecks(c2)
    requires ValuationChecks(c1) == ValuationChecks(c2)
    requires c1.momentum == c2.momentum
    ensures BuyRule(c1, false) == BuyRule(c2, false)
  {
    assert QualityScore(c1, false) == QualityScore(c2, false);
    assert ValueScore(c1) == ValueScore(c2);
  }

  /** The breakdown lists the technical checks even when they do not count. */
  lemma BreakdownKeepsTechnicalChecks(row: StockRow, p: Profile, total: real)
    requires total > 0.0 && !p.trendCheckActive
    requires !IsSell(EvaluateRow(row, p, total).advice)
    ensures var d := EvaluateRow(row, p, total).details;
            d.checks.uptrend == ChecksOf(row, p).uptrend && d.checks.nearTop == ChecksOf(row, p).nearTop
            && d.qualityScore == CountTrue(FundamentalChecks(ChecksOf(row, p))) && d.qualityThreshold == 3
  {
  }

  /** With every check passing, a held position that trips no sell rule is a buy. */
  lemma AllChecksPassIsBuy(row: StockRow, p: Profile, total: real)
    requires total > 0.0 && !IsSell(EvaluateRow(row, p, total).advice)
    requires var c := ChecksOf(row, p);
             c.margin && c.healthyDebt && c.goodRoe && c.stable && c.uptrend && c.nearTop
             && c.undervalued && c.healthyPe && c.healthyPb && c.healthyPs
    ensures IsBuy(EvaluateRow(row, p, total).advice)
  {
    var c := ChecksOf(row, p);
    assert ValueScore(c) == 4;
  }

  /** With a profile from the sidebar, the overvaluation rule fires exactly when the price
      exceeds the analyst target by more than the configured percentage. */
  lemma OvervaluedAbovePercentage(row: StockRow, s: Settings)
    requires row.price.Num? && row.targetPrice.Num? && row.price.x > 0.0 && row.targetPrice.x > 0.0
    ensures Overvalued(row, ProfileFromSettings(s)) <==>
            row.price.x * 100.0 > row.targetPrice.x * (100.0 + s.sellAboveTargetPct)
  {
    var p := ProfileFromSettings(s);
    var price, target := row.price.x, row.targetPrice.x;
    calc <==> {
      price / target > p.sellAboveTargetRatio;
      price > p.sellAboveTargetRatio * target;
      price * 100.0 > target * (100.0 + s.sellAboveTargetPct);
    }
  }

  /** With a profile from the sidebar, the rebalance rule fires exactly when the position is
      more than the configured percentage of the portfolio. */
  lemma OverWeightAbovePercentage(row: StockRow, s: Settings, total: real)
    requires total > 0.0 && row.positionValue.Num?
    ensures OverWeight(row, ProfileFromSettings(s), total) <==>
            row.positionValue.x * 100.0 > s.maxPositionPct * total
  {
    var p := ProfileFromSettings(s);
    var v := row.positionValue.x;
    calc <==> {
      v / total > p.maxPositionWeight;
      v > p.maxPositionWeight * total;
      v * 100.0 > s.maxPositionPct * total;
    }
  }

  // ---------------------------------------------------------------------------
  // genereer_adviezen
  // ---------------------------------------------------------------------------

  /** A text cell: absent (None), NaN (truthy, rendered "nan"), or a string. */
  datatype TextCell = NoText | NaNText | Text(s: string)

  /** Python truthiness: None and the empty string are false, NaN is true. */
  predicate Truthy(t: TextCell)
  {
    t.NaNText? || (t.Text? && t.s != "")
  }

  /** `str(t or '')` */
  function Render(t: TextCell): string
  {
    match t
    case NoText => ""
    case NaNText => "nan"
    case Text(s) => s
  }

  /** `str(rij.get('Type Asset') or rij.get('Type') or '')` */
  function TypeText(typeAsset: TextCell, typ: TextCell): (t: string)
    ensures typeAsset.Text? && typeAsset.s != "" ==> t == typeAsset.s
    ensures typeAsset.NaNText? ==> t == "nan"
    ensures !Truthy(typeAsset) ==> t == Render(typ)
    ensures !Truthy(typeAsset) && !Truthy(typ) ==> t == ""
  {
    Render(if Truthy(typeAsset) then typeAsset else typ)
  }

  /** The asset type, stripped and lower-cased, is "aandeel". */
  predicate IsShare(typeAsset: TextCell, typ: TextCell)
    ensures IsShare(typeAsset, typ) ==> Truthy(typeAsset) || Truthy(typ)
  {
    Lower(Strip(TypeText(typeAsset, typ))) == "aandeel"
  }

  /** One row of the portfolio table: the type columns, the engine's inputs and 'Advies'. */
  datatype PortfolioRow = PortfolioRow(typeAsset: TextCell, typ: TextCell, stock: StockRow, advice: Option<string>)

  function ValueOf(c: Cell): real
  {
    if c.Num? then c.x else 0.0
  }

  /** `df['Huidige Waarde (EUR)'].sum()`: NaN cells are skipped. */
  function TotalValue(rows: seq<PortfolioRow>): (t: real)
    ensures (forall i :: 0 <= i < |rows| ==> ValueOf(rows[i].stock.positionValue) >= 0.0) ==> t >= 0.0
  {
    if |rows| == 0 then 0.0 else ValueOf(rows[0].stock.positionValue) + TotalValue(rows[1..])
  }

  /** What the driver leaves in row `r` of the copy. */
  function AdvisedRow(r: PortfolioRow, p: Profile, total: real): PortfolioRow
    requires total > 0.0
  {
    if IsShare(r.typeAsset, r.typ)
    then r.(advice := Some(AdviceText(EvaluateRow(r.stock, p, total).advice)))
    else r
  }

  /** One iteration of genereer_adviezen: a share gets the engine's advice text. */
  method AdviseRow(row: PortfolioRow, p: Profile, total: real) returns (r: PortfolioRow)
    requires total > 0.0
    ensures r == AdvisedRow(row, p, total)
  {
    r := row;
    if IsShare(row.typeAsset, row.typ) {
      var details := EvaluateRow(row.stock, p, total);
      r := row.(advice := Some(AdviceText(details.advice)));
    }
  }

  /** genereer_adviezen: on a copy of the table, overwrite 'Advies' of every share with the
      engine's advice, when the total value is positive. The value column must exist. */
  method GenerateAdvice(table: seq<PortfolioRow>, p: Profile) returns (result: seq<PortfolioRow>)
    requires forall i :: 0 <= i < |table| ==> !table[i].stock.positionValue.Missing?
    ensures |result| == |table|
    ensures TotalValue(table) <= 0.0 ==> result == table
    ensures TotalValue(table) > 0.0 ==>
      forall i :: 0 <= i < |table| ==> result[i] == AdvisedRow(table[i], p, TotalValue(table))
  {
    result := table;
    var total := TotalValue(table);
    if total > 0.0 {
      result := AdviseEachRow(table, p, total);
    }
  }

  /** The loop of genereer_adviezen: every row of the copy is advised in place, in order. */
  method AdviseEachRow(table: seq<PortfolioRow>, p: Profile, total: real) returns (result: seq<PortfolioRow>)
    requires total > 0.0
    ensures |result| == |table|
    ensures forall i :: 0 <= i < |table| ==> result[i] == AdvisedRow(table[i], p, total)
  {
    result := table;
    var i := 0;
    while i < |result|
      invariant 0 <= i <= |result| == |table|
      invariant forall k :: 0 <= k < i ==> result[k] == AdvisedRow(table[k], p, total)
      invariant forall k :: i <= k < |result| ==> result[k] == table[k]
    {
      var row := AdviseRow(result[i], p, total);
      result := result[i := row];
      i := i + 1;
    }
  }

  /** Rows that are not shares keep their 'Advies'; every row keeps its other columns. */
  lemma AdvisedRowKeepsColumns(r: PortfolioRow, p: Profile, total: real)
    requires total > 0.0
    ensures var a := AdvisedRow(r, p, total);
            a.typeAsset == r.typeAsset && a.typ == r.typ && a.stock == r.stock
            && (a.advice != r.advice ==> IsShare(r.typeAsset, r.typ))
            && (IsShare(r.typeAsset, r.typ) ==> a.advice.Some?)
  {
  }

  /** An absent or empty 'Type Asset' falls back to 'Type'. */
  lemma EmptyTypeAssetFallsBack(typ: TextCell)
    ensures TypeText(NoText, typ) == TypeText(typ, NoText)
    ensures TypeText(Text(""), typ) == TypeText(typ, NoText)
  {
  }

  /** A NaN 'Type Asset' is truthy: it is rendered "nan" and hides 'Type'. */
  lemma NaNTypeAssetIsNoShare(typ: TextCell)
    ensures TypeText(NaNText, typ) == "nan"
    ensures !IsShare(NaNText, typ)
  {
    assert Strip("nan") == "nan" by {
      assert !IsSpace('n');
    }
    assert |Lower("nan")| == 3;
  }

  lemma StripLeftPadded()
    ensures StripLeft(" AANDEEL\n") == "AANDEEL\n"
  {
    assert IsSpace(' ') && !IsSpace('A');
    assert " AANDEEL\n"[1..] == "AANDEEL\n";
  }

  lemma StripRightPadded()
    ensures StripRight("AANDEEL\n") == "AANDEEL"
  {
    assert IsSpace('\n') && !IsSpace('L');
    assert "AANDEEL\n"[..7] == "AANDEEL";
  }

  lemma LowerAandeel()
    ensures Lower("AANDEEL") == "aandeel"
  {
    var l := Lower("AANDEEL");
    assert l[0] == 'a' && l[1] == 'a' && l[2] == 'n' && l[3] == 'd' && l[4] == 'e' && l[5] == 'e' && l[6] == 'l';
  }

  /** Surrounding white space and capitals do not matter. */
  lemma ShareSpelledLoosely()
    ensures IsShare(Text(" AANDEEL\n"), NoText)
  {
    StripLeftPadded();
    StripRightPadded();
    LowerAandeel();
    assert TypeText(Text(" AANDEEL\n"), NoText) == " AANDEEL\n";
  }
}
