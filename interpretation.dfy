/**
 * The annotations of the ratio panel: the liquidity and leverage bands shown
 * under the ratios, and the scores that put four ratios on the 0-100 axis of
 * the radar chart.
 */
module Interpretation {
  import opened Ratios

  datatype LiquidityBand = Strong | Adequate | Concern
  datatype LeverageBand = Conservative | Moderate | High

  /** The liquidity message chosen from the current ratio. */
  function ClassifyLiquidity(currentRatio: real): (b: LiquidityBand)
    ensures b == Strong <==> currentRatio >= 1.5
    ensures b == Adequate <==> 1.0 <= currentRatio < 1.5
    ensures b == Concern <==> currentRatio < 1.0
  {
    if currentRatio >= 1.5 then Strong
    else if currentRatio >= 1.0 then Adequate
    else Concern
  }

  /** The leverage message chosen from debt to equity. */
  function ClassifyLeverage(debtToEquity: real): (b: LeverageBand)
    ensures b == Conservative <==> debtToEquity <= 1.0
    ensures b == Moderate <==> 1.0 < debtToEquity <= 2.0
    ensures b == High <==> debtToEquity > 2.0
  {
    if debtToEquity <= 1.0 then Conservative
    else if debtToEquity <= 2.0 then Moderate
    else High
  }

  /** How good a liquidity band is, worst first. */
  function LiquidityRank(b: LiquidityBand): nat {
    match b
    case Concern => 0
    case Adequate => 1
    case Strong => 2
  }

  /** How risky a leverage band is, safest first. */
  function LeverageRank(b: LeverageBand): nat {
    match b
    case Conservative => 0
    case Moderate => 1
    case High => 2
  }

  /** A larger current ratio never gets a worse liquidity band. */
  lemma LiquidityMonotone(x: real, y: real)
    requires x <= y
    ensures LiquidityRank(ClassifyLiquidity(x)) <= LiquidityRank(ClassifyLiquidity(y))
  {
  }

  /** A larger debt to equity never gets a safer leverage band. */
  lemma LeverageMonotone(x: real, y: real)
    requires x <= y
    ensures LeverageRank(ClassifyLeverage(x)) <= LeverageRank(ClassifyLeverage(y))
  {
  }

  // ---------------------------------------------------------------------------
  // Radar chart scores

  function Min(a: real, b: real): real { if a <= b then a else b }
  function Max(a: real, b: real): real { if a >= b then a else b }

  /**
   * `min(x, cap) / cap * 100`: the share of the cap reached, capped at 100.
   * There is no lower clamp: a negative input gives a negative score.
   */
  function CappedScore(x: real, cap: real): (s: real)
    requires cap > 0.0
    ensures s <= 100.0
    ensures s == 100.0 <==> x >= cap
    ensures s >= 0.0 <==> x >= 0.0
    ensures x <= cap ==> s * cap == x * 100.0
  {
    Min(x, cap) / cap * 100.0
  }

  /**
   * `max(0, 100 - d / 2 * 100)`: 100 at no debt, falling by 50 per unit of
   * debt to equity, floored at 0.
   */
  function LeverageScore(debtToEquity: real): (s: real)
    ensures s >= 0.0
    ensures debtToEquity >= 0.0 ==> s <= 100.0
    ensures s == 0.0 <==> debtToEquity >= 2.0
    ensures debtToEquity <= 2.0 ==> s == 100.0 - 50.0 * debtToEquity
  {
    Max(0.0, 100.0 - debtToEquity / 2.0 * 100.0)
  }

  datatype RadarScores = RadarScores(roe: real, roa: real, currentRatio: real, debtToEquity: real)

  /**
   * The radar chart's scores: ROE as a share of 50, ROA of 25 and the current
   * ratio of 3, each capped at 100, and debt to equity on the leverage score.
   */
  function NormalizedRatios(r: RatioSet): (n: RadarScores)
    ensures n.roe <= 100.0 && n.roa <= 100.0 && n.currentRatio <= 100.0
    ensures n.roe >= 0.0 <==> r.roe >= 0.0
    ensures n.roa >= 0.0 <==> r.roa >= 0.0
    ensures n.currentRatio >= 0.0 <==> r.currentRatio >= 0.0
    ensures 0.0 <= n.debtToEquity && (r.debtToEquity >= 0.0 ==> n.debtToEquity <= 100.0)
    ensures n.roe == 100.0 <==> r.roe >= 50.0
    ensures r.roe <= 50.0 ==> n.roe * 50.0 == r.roe * 100.0
    ensures n.roa == 100.0 <==> r.roa >= 25.0
    ensures r.roa <= 25.0 ==> n.roa * 25.0 == r.roa * 100.0
    ensures n.currentRatio == 100.0 <==> r.currentRatio >= 3.0
    ensures r.currentRatio <= 3.0 ==> n.currentRatio * 3.0 == r.currentRatio * 100.0
    ensures n.debtToEquity == 0.0 <==> r.debtToEquity >= 2.0
    ensures r.debtToEquity <= 2.0 ==> n.debtToEquity == 100.0 - 50.0 * r.debtToEquity
  {
    RadarScores(
      roe := CappedScore(r.roe, 50.0),
      roa := CappedScore(r.roa, 25.0),
      currentRatio := CappedScore(r.currentRatio, 3.0),
      debtToEquity := LeverageScore(r.debtToEquity))
  }

  /** A capped score never decreases as its input grows. */
  lemma CappedScoreMonotone(x: real, y: real, cap: real)
    requires cap > 0.0 && x <= y
    ensures CappedScore(x, cap) <= CappedScore(y, cap)
  {
    assert Min(x, cap) <= Min(y, cap);
    var mx, my := Min(x, cap), Min(y, cap);
    assert my / cap - mx / cap == (my - mx) / cap;
  }

  /** The leverage score never increases as debt to equity grows. */
  lemma LeverageScoreAntitone(x: real, y: real)
    requires x <= y
    ensures LeverageScore(y) <= LeverageScore(x)
  {
  }

  /** The liquidity band is strong exactly when the radar score reaches half the axis. */
  lemma StrongLiquidityUpperHalf(r: RatioSet)
    ensures ClassifyLiquidity(r.currentRatio) == Strong <==> NormalizedRatios(r).currentRatio >= 50.0
  {
  }

  /**
   * The leverage band against the leverage score: conservative exactly when the
   * score is at least 50, and a high band always scores 0.
   */
  lemma LeverageBandScore(r: RatioSet)
    ensures ClassifyLeverage(r.debtToEquity) == Conservative <==> NormalizedRatios(r).debtToEquity >= 50.0
    ensures ClassifyLeverage(r.debtToEquity) == High ==> NormalizedRatios(r).debtToEquity == 0.0
  {
  }
}
