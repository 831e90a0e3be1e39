/** The state of the PortfolioDashboard component (client/components/PortfolioDashboard.tsx)
    and the handlers that change it. React's `useState` pairs become fields; each handler
    runs to completion before the next, and the remote calls are answered by a Gateway
    table. */
module Dashboard {
  import opened Wrappers
  import Text
  import NumberInput
  import opened PortfolioStore
  import opened PortfolioApi
  import opened Aggregation

  class Dashboard {
    var portfolio: Portfolio
    /** The ticker input field. */
    var newTicker: string
    /** The amount input field (`<input type="number">`). */
    var newAmount: string
    var loading: bool
    var data: DataState

    /** The portfolio is well formed with positive amounts, and the amount field holds what a
        number input can hold. */
    ghost predicate Valid()
      reads this
    {
      portfolio.Valid() && portfolio.AmountsPositive() && NumberInput.AmountTextSanitised(newAmount)
    }

    /** The initial `useState` values. */
    constructor ()
      ensures Valid()
      ensures portfolio == Empty && newTicker == "" && newAmount == ""
      ensures !loading && data == InitialData
    {
      portfolio, newTicker, newAmount := Empty, "", "";
      loading, data := false, InitialData;
    }

    /** The ticker field's onChange. */
    method SetNewTicker(text: string)
      requires Valid()
      modifies this`newTicker
      ensures Valid() && newTicker == text
    {
      newTicker := text;
    }

    /** The amount field's onChange; the browser has already sanitised the text. */
    method SetNewAmount(text: string)
      requires Valid() && NumberInput.AmountTextSanitised(text)
      modifies this`newAmount
      ensures Valid() && newAmount == text
    {
      newAmount := text;
    }

    /** addToPortfolio: reject a blank ticker, an empty amount or an amount <= 0 and change
        nothing; otherwise store the parsed amount under the normalised ticker and clear both
        fields. */
    method AddToPortfolio() returns (toast: Toast)
      requires Valid()
      modifies this`portfolio, this`newTicker, this`newAmount
      ensures Valid()
      ensures var entry := ParsedEntry(old(newTicker), old(newAmount));
        if entry.None? then
          && portfolio == old(portfolio) && newTicker == old(newTicker) && newAmount == old(newAmount)
          && toast == ToastError("Please enter valid ticker and amount")
        else
          && portfolio == Put(old(portfolio), entry.value.0, entry.value.1)
          && newTicker == "" && newAmount == ""
          && toast == ToastSuccess("Added " + Text.ToUpper(old(newTicker)) + " to portfolio")
    {
      var entry := ParsedEntry(newTicker, newAmount);
      if entry.None? {
        toast := ToastError("Please enter valid ticker and amount");
        return;
      }
      PutKeepsPositive(portfolio, entry.value.0, entry.value.1);
      portfolio := Put(portfolio, entry.value.0, entry.value.1);
      toast := ToastSuccess("Added " + Text.ToUpper(newTicker) + " to portfolio");
      newTicker, newAmount := "", "";
    }

    /** removeFromPortfolio: delete exactly that key, present or not. */
    method RemoveFromPortfolio(ticker: string) returns (toast: Toast)
      requires Valid()
      modifies this`portfolio
      ensures Valid()
      ensures portfolio == Delete(old(portfolio), ticker)
      ensures toast == ToastSuccess("Removed " + ticker + " from portfolio")
    {
      portfolio := Delete(portfolio, ticker);
      toast := ToastSuccess("Removed " + ticker + " from portfolio");
    }

    /** fetchPortfolioData. An empty portfolio clears the portfolio-related data without
        touching `loading`. Otherwise `loading` is set, the portfolio-level batch runs, and on
        its success the per-ticker loop; `data` is replaced in one step at the end, or left
        alone if the batch failed; `loading` is reset in either case. */
    method FetchPortfolioData(api: Gateway) returns (toasts: seq<Toast>)
      requires Valid()
      modifies this`data, this`loading
      ensures Valid()
      ensures data == Refreshed(portfolio, api, old(data))
      ensures toasts == RefreshToasts(portfolio, api)
      ensures loading == (old(loading) && portfolio.tickers == [])
    {
      if portfolio.tickers == [] {
        data := data.(performance := None, score := None, assessment := None, securityData := map[]);
        return [];
      }
      loading := true;
      var batch := All3(api.portfolioPerformance(portfolio), api.portfolioScore(portfolio),
                        api.portfolioAssessment(portfolio));
      if batch.Failure? {
        toasts := [ToastError("Failed to fetch portfolio data")];
      } else {
        var (performance, score, assessment) := batch.value;
        var securityData, failed := CollectSecurityData(portfolio.tickers, api);
        data := data.(performance := Some(performance), score := Some(score),
                      assessment := Some(assessment), securityData := securityData);
        toasts := TickerToasts(failed) + [ToastSuccess("Portfolio data updated successfully")];
      }
      loading := false;
    }

    /** handleAnalyzeClick: refuse an empty portfolio, otherwise refresh. */
    method HandleAnalyzeClick(api: Gateway) returns (toasts: seq<Toast>)
      requires Valid()
      modifies this`data, this`loading
      ensures Valid()
      ensures portfolio.tickers == [] ==>
        data == old(data) && loading == old(loading)
        && toasts == [ToastError("Please add at least one security before analyzing")]
      ensures portfolio.tickers != [] ==>
        data == Refreshed(portfolio, api, old(data)) && toasts == RefreshToasts(portfolio, api) && !loading
    {
      if portfolio.tickers == [] {
        toasts := [ToastError("Please add at least one security before analyzing")];
        return;
      }
      toasts := FetchPortfolioData(api);
    }
  }
}
