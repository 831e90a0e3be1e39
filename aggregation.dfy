/** The merge rule of fetchPortfolioData (client/components/PortfolioDashboard.tsx): which
    fields of the dashboard's data state a refresh writes, and with what, for every combination
    of call outcomes. */
module Aggregation {
  import opened Wrappers
  import opened PortfolioApi
  import PortfolioStore

  /** What one ticker contributes to `securityData`. */
  datatype SecurityBundle = SecurityBundle(details: SecurityDetails, history: seq<HistoryPoint>, performance: SecurityPerformance)

  /** The dashboard's `data` state. `assessment` is not in the DataState interface but the
      refresh writes it onto the object all the same. */
  datatype DataState = DataState(
    dailyInsights: seq<DailyInsight>,
    performance: Option<PortfolioPerformance>,
    score: Option<PortfolioScore>,
    assessment: Option<PortfolioAssessment>,
    securityData: map<string, SecurityBundle>,
    anomalies: seq<Anomaly>)

  /** The initial `data` state. */
  const InitialData := DataState([], None, None, None, map[], [])

  /** The three per-ticker calls, joined as `Promise.all` joins them. */
  function BundleOutcome(api: Gateway, ticker: string): (r: Outcome<SecurityBundle>)
    ensures r.Success? <==>
      api.securityDetails(ticker).Success? && api.securityHistory(ticker).Success?
      && api.securityPerformance(ticker).Success?
    ensures r.Success? ==> r.value == SecurityBundle(api.securityDetails(ticker).value,
      api.securityHistory(ticker).value, api.securityPerformance(ticker).value)
  {
    match All3(api.securityDetails(ticker), api.securityHistory(ticker), api.securityPerformance(ticker))
    case Success((d, h, p)) => Success(SecurityBundle(d, h, p))
    case Failure => Failure
  }

  /** The dictionary the per-ticker loop fills: every ticker of `ks` whose three calls all
      succeeded, with their results, and nothing else. */
  function SecurityDataFor(ks: seq<string>, api: Gateway): (r: map<string, SecurityBundle>)
    ensures forall t :: t in r ==> t in ks
    ensures forall t :: t in ks ==> (t in r <==>
      api.securityDetails(t).Success? && api.securityHistory(t).Success? && api.securityPerformance(t).Success?)
    ensures forall t :: t in r ==> r[t] == SecurityBundle(api.securityDetails(t).value,
      api.securityHistory(t).value, api.securityPerformance(t).value)
  {
    if ks == [] then map[]
    else
      var last := ks[|ks| - 1];
      var front := SecurityDataFor(ks[..|ks| - 1], api);
      match BundleOutcome(api, last)
      case Success(bundle) => front[last := bundle]
      case Failure => front
  }

  /** The tickers of `ks` whose bundle failed, in loop order (each one gets a toast). */
  function FailedTickers(ks: seq<string>, api: Gateway): (r: seq<string>)
    ensures forall t :: t in r <==> t in ks && BundleOutcome(api, t).Failure?
    ensures |r| <= |ks|
  {
    if ks == [] then []
    else
      var last := ks[|ks| - 1];
      FailedTickers(ks[..|ks| - 1], api) + (if BundleOutcome(api, last).Failure? then [last] else [])
  }

  /** The error toasts of the per-ticker loop. */
  function TickerToasts(failed: seq<string>): (r: seq<Toast>)
    ensures |r| == |failed|
    ensures forall i :: 0 <= i < |r| ==> r[i] == ToastError("Failed to fetch data for " + failed[i])
  {
    seq(|failed|, i requires 0 <= i < |failed| => ToastError("Failed to fetch data for " + failed[i]))
  }

  /** The portfolio-level batch: performance, score and assessment of the portfolio. */
  function PortfolioBatch(p: PortfolioStore.Portfolio, api: Gateway): (r: Outcome<(PortfolioPerformance, PortfolioScore, PortfolioAssessment)>)
    ensures r.Success? <==>
      api.portfolioPerformance(p).Success? && api.portfolioScore(p).Success? && api.portfolioAssessment(p).Success?
    ensures r.Success? ==>
      r.value == (api.portfolioPerformance(p).value, api.portfolioScore(p).value, api.portfolioAssessment(p).value)
  {
    All3(api.portfolioPerformance(p), api.portfolioScore(p), api.portfolioAssessment(p))
  }

  /** The `data` state after fetchPortfolioData, from the state before it. */
  function Refreshed(p: PortfolioStore.Portfolio, api: Gateway, prev: DataState): (r: DataState)
    // An empty portfolio clears the portfolio-related fields and nothing else.
    ensures p.tickers == [] ==>
      && r.performance == None && r.score == None && r.assessment == None
      && r.securityData == map[]
      && r.dailyInsights == prev.dailyInsights && r.anomalies == prev.anomalies
    // Any failure of the portfolio-level batch leaves the state exactly as it was.
    ensures (p.tickers != [] &&
      (api.portfolioPerformance(p).Failure? || api.portfolioScore(p).Failure? || api.portfolioAssessment(p).Failure?))
      ==> r == prev
    // Otherwise the batch's results are stored, with the successful tickers' bundles.
    ensures (p.tickers != [] &&
      api.portfolioPerformance(p).Success? && api.portfolioScore(p).Success? && api.portfolioAssessment(p).Success?)
      ==>
      && r.performance == Some(api.portfolioPerformance(p).value)
      && r.score == Some(api.portfolioScore(p).value)
      && r.assessment == Some(api.portfolioAssessment(p).value)
      && r.securityData.Keys <= set t | t in p.tickers
      && (forall t :: t in p.tickers ==> (t in r.securityData <==> BundleOutcome(api, t).Success?))
      && (forall t :: t in r.securityData ==> BundleOutcome(api, t) == Success(r.securityData[t]))
      && r.dailyInsights == prev.dailyInsights && r.anomalies == prev.anomalies
  {
    if p.tickers == [] then
      prev.(performance := None, score := None, assessment := None, securityData := map[])
    else
      match PortfolioBatch(p, api)
      case Failure => prev
      case Success((performance, score, assessment)) =>
        prev.(performance := Some(performance), score := Some(score), assessment := Some(assessment),
              securityData := SecurityDataFor(p.tickers, api))
  }

  /** The toasts fetchPortfolioData raises, in order. */
  function RefreshToasts(p: PortfolioStore.Portfolio, api: Gateway): (r: seq<Toast>)
    ensures p.tickers == [] ==> r == []
    ensures p.tickers != [] && PortfolioBatch(p, api).Failure? ==> r == [ToastError("Failed to fetch portfolio data")]
    ensures p.tickers != [] && PortfolioBatch(p, api).Success? ==>
      && |r| == |FailedTickers(p.tickers, api)| + 1
      && r[|r| - 1] == ToastSuccess("Portfolio data updated successfully")
      && (forall i :: 0 <= i < |r| - 1 ==>
            r[i] == ToastError("Failed to fetch data for " + FailedTickers(p.tickers, api)[i]))
  {
    if p.tickers == [] then []
    else if PortfolioBatch(p, api).Failure? then [ToastError("Failed to fetch portfolio data")]
    else TickerToasts(FailedTickers(p.tickers, api)) + [ToastSuccess("Portfolio data updated successfully")]
  }

  /** The per-ticker loop of fetchPortfolioData: for each ticker in key order, the three
      calls; on success the bundle goes into a fresh dictionary, on failure the ticker is
      reported and the loop goes on. */
  method CollectSecurityData(ks: seq<string>, api: Gateway) returns (securityData: map<string, SecurityBundle>, failed: seq<string>)
    ensures securityData == SecurityDataFor(ks, api)
    ensures failed == FailedTickers(ks, api)
  {
    securityData, failed := map[], [];
    for i := 0 to |ks|
      invariant securityData == SecurityDataFor(ks[..i], api)
      invariant failed == FailedTickers(ks[..i], api)
    {
      var ticker := ks[i];
      assert ks[..i + 1][..i] == ks[..i];
      var bundle := BundleOutcome(api, ticker);
      if bundle.Success? {
        securityData := securityData[ticker := bundle.value];
      } else {
        failed := failed + [ticker];
      }
    }
    assert ks[..|ks|] == ks;
  }

  /** Every ticker of the portfolio ends up either in `securityData` or among the failures
      reported, never both. */
  lemma EveryTickerAccounted(ks: seq<string>, api: Gateway, t: string)
    requires t in ks
    ensures (t in SecurityDataFor(ks, api)) != (t in FailedTickers(ks, api))
  {
  }

  /** Two tables that agree on one ticker's three calls. */
  predicate SameTickerOutcomes(api1: Gateway, api2: Gateway, t: string)
  {
    && api1.securityDetails(t) == api2.securityDetails(t)
    && api1.securityHistory(t) == api2.securityHistory(t)
    && api1.securityPerformance(t) == api2.securityPerformance(t)
  }

  /** Isolation: whether a ticker is in `securityData`, and with what, depends on that
      ticker's own calls alone, whatever the other tickers' calls do. */
  lemma TickerIsolation(ks: seq<string>, api1: Gateway, api2: Gateway, t: string)
    requires SameTickerOutcomes(api1, api2, t)
    ensures (t in SecurityDataFor(ks, api1)) == (t in SecurityDataFor(ks, api2))
    ensures t in SecurityDataFor(ks, api1) ==> SecurityDataFor(ks, api1)[t] == SecurityDataFor(ks, api2)[t]
  {
  }

  /** The table `api` with the details call of `bad` failing. */
  function FailDetails(api: Gateway, bad: string): (r: Gateway)
    ensures r.securityDetails(bad) == Failure
    ensures forall t :: t != bad ==> SameTickerOutcomes(api, r, t)
  {
    api.(securityDetails := t => if t == bad then Failure else api.securityDetails(t))
  }

  /** One ticker's failure takes that ticker, and only it, out of `securityData`. */
  lemma {:induction false} OneFailureRemovesOnlyItself(ks: seq<string>, api: Gateway, bad: string)
    ensures SecurityDataFor(ks, FailDetails(api, bad)) == SecurityDataFor(ks, api) - {bad}
  {
    if ks != [] {
      var front, last := ks[..|ks| - 1], ks[|ks| - 1];
      var failing := FailDetails(api, bad);
      OneFailureRemovesOnlyItself(front, api, bad);
      if last == bad {
        assert BundleOutcome(failing, last).Failure?;
      } else {
        assert SameTickerOutcomes(api, failing, last);
        assert BundleOutcome(failing, last) == BundleOutcome(api, last);
      }
    }
  }

  /** ...and however many tickers fail, the refresh as a whole still succeeds once the
      portfolio-level batch has. */
  lemma TickerFailureKeepsRefresh(p: PortfolioStore.Portfolio, api: Gateway, prev: DataState, bad: string)
    requires p.tickers != [] && PortfolioBatch(p, api).Success?
    ensures var r := RefreshToasts(p, FailDetails(api, bad));
      r[|r| - 1] == ToastSuccess("Portfolio data updated successfully")
    ensures Refreshed(p, FailDetails(api, bad), prev).securityData
      == Refreshed(p, api, prev).securityData - {bad}
  {
    var failing := FailDetails(api, bad);
    assert PortfolioBatch(p, failing) == PortfolioBatch(p, api);
    OneFailureRemovesOnlyItself(p.tickers, api, bad);
  }

  /** Equal texts after the same prefix are equal. */
  lemma PrefixCancels(prefix: string, a: string, b: string)
    requires prefix + a == prefix + b
    ensures a == b
  {
    assert a == (prefix + a)[|prefix|..];
    assert b == (prefix + b)[|prefix|..];
  }

  /** After a successful batch, a ticker of the portfolio gets its "Failed to fetch data"
      toast exactly when it is missing from the new `securityData`, and the refresh is never
      reported as a failed portfolio fetch. */
  lemma RefreshToastsReportFailures(p: PortfolioStore.Portfolio, api: Gateway, prev: DataState, t: string)
    requires p.tickers != [] && PortfolioBatch(p, api).Success?
    requires t in p.tickers
    ensures ToastError("Failed to fetch data for " + t) in RefreshToasts(p, api)
      <==> t !in Refreshed(p, api, prev).securityData
    ensures ToastError("Failed to fetch portfolio data") !in RefreshToasts(p, api)
  {
    var r := RefreshToasts(p, api);
    var failed := FailedTickers(p.tickers, api);
    var prefix := "Failed to fetch data for ";
    if ToastError(prefix + t) in r {
      var i :| 0 <= i < |r| && r[i] == ToastError(prefix + t);
      PrefixCancels(prefix, failed[i], t);
      assert t in failed;
    }
    if t in failed {
      var i :| 0 <= i < |failed| && failed[i] == t;
      assert r[i] == ToastError(prefix + t);
    }
    forall i | 0 <= i < |r| - 1
      ensures r[i] != ToastError("Failed to fetch portfolio data")
    {
      assert r[i].message[16] == 'd';
    }
  }
}
