/** The response shapes of client/app/api/portfolio-api.ts, and the remote service as a table
    of call outcomes. The HTTP client, query strings and credentials are not part of this
    model: each call either returns its parsed body or throws. */
module PortfolioApi {
  import opened Wrappers
  import PortfolioStore

  /** `returns` is a reserved word in Dafny, hence `totalReturns`. */
  datatype PortfolioPerformance = PortfolioPerformance(totalReturns: real, risk: real, sharpeRatio: real)

  datatype PortfolioScore = PortfolioScore(
    portfolioScore: real, scoreRemark: string, percentileRank: real,
    riskMatchScore: Option<real>, sharpeRatioScore: real, downsideProtectionScore: real)

  datatype PortfolioAssessment = PortfolioAssessment(assessment: string)

  /** The fields of a security's details record that the model looks at; the rest of the
      fundamentals record is carried opaquely in `other`. */
  datatype SecurityDetails = SecurityDetails(ticker: string, aiSentiment: Option<string>, profitMargin: real, other: seq<(string, string)>)

  datatype HistoryPoint = HistoryPoint(date: string, val: real)

  datatype SecurityPerformance = SecurityPerformance(expectedReturn: real, volatility: real)

  datatype DailyInsight = DailyInsight(
    insight: string, timestamp: string, category: string, url: Option<string>,
    description: Option<string>, tickers: string, imageUrl: Option<string>)

  datatype Anomaly = Anomaly(ticker: Option<string>, description: string)

  /** What each remote call returns when the dashboard makes it. The portfolio-level calls
      are given the whole portfolio (they serialise it into the query); the per-security
      calls are given the ticker. */
  datatype Gateway = Gateway(
    portfolioPerformance: PortfolioStore.Portfolio -> Outcome<PortfolioPerformance>,
    portfolioScore: PortfolioStore.Portfolio -> Outcome<PortfolioScore>,
    portfolioAssessment: PortfolioStore.Portfolio -> Outcome<PortfolioAssessment>,
    securityDetails: string -> Outcome<SecurityDetails>,
    securityHistory: string -> Outcome<seq<HistoryPoint>>,
    securityPerformance: string -> Outcome<SecurityPerformance>)

  /** `Promise.all` over three calls: all three results, or a failure if any one fails. */
  function All3<A, B, C>(a: Outcome<A>, b: Outcome<B>, c: Outcome<C>): (r: Outcome<(A, B, C)>)
    ensures r.Success? <==> a.Success? && b.Success? && c.Success?
    ensures r.Success? ==> r.value.0 == a.value && r.value.1 == b.value && r.value.2 == c.value
  {
    if a.Success? && b.Success? && c.Success? then Success((a.value, b.value, c.value)) else Failure
  }
}
