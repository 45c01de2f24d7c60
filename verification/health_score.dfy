/** The composite 0-100 health score of the portfolio service
    (`calculateHealthScore`). */
module HealthScore {
  import opened Wrappers
  import opened Numbers
  import opened Domain

  const DiversificationWeight: real := 0.3
  const PerformanceWeight: real := 0.25
  const RiskWeight: real := 0.25
  const LiquidityWeight: real := 0.2

  /** Fallbacks for a risk or liquidity score the intelligence service omits
      (or reports as 0). */
  const DefaultRiskScore: real := 70.0
  const DefaultLiquidityScore: real := 80.0

  /** Break-even maps to 50 and every percent of gain or loss moves the term
      by 2, so the band from -25% to +25% spans 0 to 100. */
  function Performance(gainLossPercent: real): (r: real)
    ensures 0.0 <= r <= 100.0
    ensures gainLossPercent >= 25.0 ==> r == 100.0
    ensures gainLossPercent <= -25.0 ==> r == 0.0
    ensures -25.0 <= gainLossPercent <= 25.0 ==> r - 50.0 == 2.0 * gainLossPercent
  {
    Clamp(50.0 + gainLossPercent * 2.0, 0.0, 100.0)
  }

  /** The weighted sum before clamping and rounding. */
  function WeightedScore(m: Metrics, ai: AiAnalysis): real
  {
    m.diversificationScore * DiversificationWeight
    + Performance(m.totalGainLossPercent) * PerformanceWeight
    + JsOr(ai.riskScore, DefaultRiskScore) * RiskWeight
    + JsOr(ai.liquidityScore, DefaultLiquidityScore) * LiquidityWeight
  }

  /** `Math.round(clamp(score, 0, 100))`: an integer in [0, 100] within one
      half of the clamped weighted score. */
  function CalculateHealthScore(m: Metrics, ai: AiAnalysis): (r: int)
    ensures 0 <= r <= 100
    ensures r as real - 0.5 <= Clamp(WeightedScore(m, ai), 0.0, 100.0) < r as real + 0.5
  {
    Round(Clamp(WeightedScore(m, ai), 0.0, 100.0))
  }

  /** The score never decreases when diversification, performance, risk score
      or liquidity score improves. */
  lemma HealthScoreMonotone(m1: Metrics, ai1: AiAnalysis, m2: Metrics, ai2: AiAnalysis)
    requires m1.diversificationScore <= m2.diversificationScore
    requires m1.totalGainLossPercent <= m2.totalGainLossPercent
    requires JsOr(ai1.riskScore, DefaultRiskScore) <= JsOr(ai2.riskScore, DefaultRiskScore)
    requires JsOr(ai1.liquidityScore, DefaultLiquidityScore) <= JsOr(ai2.liquidityScore, DefaultLiquidityScore)
    ensures CalculateHealthScore(m1, ai1) <= CalculateHealthScore(m2, ai2)
  {
  }

  /** A missing score and a reported 0 both count as the default. */
  lemma MissingScoresDefault(m: Metrics, ai: AiAnalysis)
    ensures CalculateHealthScore(m, ai.(riskScore := None)) == CalculateHealthScore(m, ai.(riskScore := Some(0.0)))
    ensures CalculateHealthScore(m, ai.(riskScore := None)) == CalculateHealthScore(m, ai.(riskScore := Some(DefaultRiskScore)))
    ensures CalculateHealthScore(m, ai.(liquidityScore := None)) == CalculateHealthScore(m, ai.(liquidityScore := Some(0.0)))
    ensures CalculateHealthScore(m, ai.(liquidityScore := None))
         == CalculateHealthScore(m, ai.(liquidityScore := Some(DefaultLiquidityScore)))
  {
  }

  /** A break-even, undiversified portfolio without intelligence scores
      scores 12.5 + 17.5 + 16 = 46. */
  lemma BreakEvenDefaults(m: Metrics)
    requires m.diversificationScore == 0.0 && m.totalGainLossPercent == 0.0
    ensures CalculateHealthScore(m, AiAnalysis(None, None, None)) == 46
  {
  }
}
