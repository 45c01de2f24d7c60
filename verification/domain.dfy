/** The entities the analytics services read and produce. Persistence-only
    fields (purchase date, exchange, currency, free-form metadata, timestamps)
    play no part in the analytics and are not carried. */
module Domain {
  import opened Wrappers
  import opened Allocations

  type UserId = string

  /** The asset-type enumeration of a holding. */
  datatype AssetType = Stock | MutualFund | Etf | Crypto | Bond | Fd | RealEstate | Gold | Other

  /** One position. `currentPrice` is stored with default 0, which the
      analytics read as "unpriced"; `sector` is optional. */
  datatype Holding = Holding(
    assetType: AssetType,
    name: string,
    ticker: string,
    quantity: real,
    avgBuyPrice: real,
    currentPrice: real,
    sector: Option<string>)

  datatype Portfolio = Portfolio(userId: UserId, holdings: seq<Holding>)

  /** The derived analytics of a holdings list; allocations are in percent. */
  datatype Metrics = Metrics(
    totalValue: real,
    totalCost: real,
    totalGainLoss: real,
    totalGainLossPercent: real,
    sectorAllocation: seq<Bucket<string>>,
    assetAllocation: seq<Bucket<AssetType>>,
    numberOfHoldings: nat,
    diversificationScore: real)

  /** An entry of the intelligence service's `holdings_with_real_time_prices`. */
  datatype Quote = Quote(ticker: string, currentPrice: real)

  /** The fields of the intelligence service's portfolio analysis that the
      core reads; each may be absent from the reply. */
  datatype AiAnalysis = AiAnalysis(
    riskScore: Option<real>,
    liquidityScore: Option<real>,
    pricedHoldings: Option<seq<Quote>>)

  /** What a portfolio analysis returns: metrics, the intelligence service's
      reply and the composite health score. */
  datatype Analysis = Analysis(basicMetrics: Metrics, aiAnalysis: AiAnalysis, healthScore: int)

  datatype Error =
    | PortfolioNotFound         // 'Portfolio not found'
    | InvalidScenario           // 'Invalid scenario'
    | InvalidMetric             // the TypeError raised by `.sort` on an unknown metric
    | ServiceFailed(message: string)  // an intelligence or storage collaborator failed
    | UndefinedReference(name: string)  // a ReferenceError: `name` is not bound in scope
}
