# Portfolio dashboard: a verified model of its state and view logic

This project models the client-side core of a portfolio-analytics dashboard, written in Dafny.
The user builds a portfolio, a map from ticker to invested amount. Asking for an analysis
sends a batch of portfolio-level requests and then three requests per ticker to a remote
financial-data service. The answers are merged into the dashboard's data state, and one
ticker's failed requests never keep the other tickers out of it. The view then derives the
total value, the allocation percentages, the score colours, the sentiment badge and the
number formats from that state.

Modules, one per component:

- `Wrappers` (`wrappers.dfy`): `Option`, the `Outcome` of one remote call, and `Toast` (a notification).
- `Text` (`text.dfy`): JavaScript `trim`, `toUpperCase`, `toLowerCase` and `includes`.
- `NumberInput` (`number_input.dfy`): the text of an `<input type="number">` and `parseFloat` over it.
- `PortfolioStore` (`portfolio_store.dfy`): the portfolio value, its input checks, add, remove, total and allocation.
- `PortfolioApi` (`portfolio_api.dfy`): the response records, shortened to the fields the dashboard reads, and the remote service as a table of outcomes (`Gateway`).
- `Aggregation` (`aggregation.dfy`): the merge rule of a refresh and the per-ticker loop.
- `ViewModel` (`view_model.dfy`): the sign rule of `formatPercentage`, plus the sentiment classifier behind the badge colour and icon.
- `Utils` (`utils.dfy`): score banding and unit selection (`client/lib/utils.ts`).
- `Dashboard` (`dashboard.dfy`): the component's state as a class, one method per handler.

The portfolio is `Portfolio(tickers, amounts)`. `amounts` is the ticker-to-amount map. `tickers`
is the order in which `Object.keys`, `Object.values` and `Object.entries` list the keys, which
is the order they were first inserted. Spreading `{...prev, [k]: v}` keeps an existing key in
its place and puts a new key last. `delete` removes the key and keeps the order of the rest.
The model keeps this order because the allocation rows and the per-ticker loop follow it.

Where the design description and the code differ, the model follows the code:

- An empty sentiment string gets the grey "unknown" colour, the same as `null`, because the code tests `!sentiment`.
- Clearing the data for an empty portfolio also sets `assessment` to null, and a successful refresh stores `assessment`. The `DataState` interface leaves that field out, but the code writes it.
- The code does not run the per-ticker bundles concurrently. It runs them one after another in a `for` loop, each with its own `try`/`catch`. The model has the same loop.
- Allocation rows carry `name`, `value`, `percentage` and `amount`, with `value` equal to `amount`.

## Model

| member | source | states |
|---|---|---|
| NumberInput.ParseNumber | client/components/PortfolioDashboard.tsx:312-318 | `parseFloat` on the value of a number input: nothing for empty text, and a negative result only when the text starts with '-' |
| NumberInput.ParseDecimalText | client/components/PortfolioDashboard.tsx:104-110 | reading back the decimal text of any natural number, signed or not, gives that number (inverse partner of the parser) |
| Text.UpperKeepsBlankness | client/components/PortfolioDashboard.tsx:104-110 | a ticker is blank after `toUpperCase().trim()` exactly when `trim()` alone leaves it blank, so the check at line 104 guards the key stored at line 110 |
| PortfolioStore.NormalizeKey | client/components/PortfolioDashboard.tsx:110 | the stored key (`toUpperCase().trim()`) is no longer than the typed ticker, neither begins nor ends with whitespace, and holds no lower-case ASCII letter |
| PortfolioStore.NormalizeIdempotent | client/components/PortfolioDashboard.tsx:110 | normalising a stored key (`toUpperCase().trim()`) gives that key back |
| PortfolioStore.ParsedEntry | client/components/PortfolioDashboard.tsx:104-110 | the input is rejected exactly when the trimmed ticker is empty, the amount text is empty or the parsed amount is <= 0; otherwise the key is the non-empty normalised ticker and the amount is the parsed, positive value |
| PortfolioStore.Put | client/components/PortfolioDashboard.tsx:108-111 | only the given key is added or overwritten, with the given amount, and every other entry is unchanged; an existing key keeps its place and a new key goes last |
| PortfolioStore.PutKeepsPositive | client/components/PortfolioDashboard.tsx:104-111 | storing a checked (positive) amount keeps every stored amount positive |
| PortfolioStore.Delete | client/components/PortfolioDashboard.tsx:117-122 | only the given key is deleted, the other entries are unchanged and keep their order (the key's slot closes up), and deleting an absent key changes nothing |
| PortfolioStore.WithoutOrder | client/components/PortfolioDashboard.tsx:119-120 | in a key list without repeats, removing a present key leaves the keys before and after it in their order |
| PortfolioStore.PutThenDelete | client/components/PortfolioDashboard.tsx:108-122 | adding a ticker the portfolio did not hold and then removing it restores the original portfolio, key order included |
| PortfolioStore.Total | client/components/PortfolioDashboard.tsx:211-213 | `calculatePortfolioValue` sums the amounts from 0, so an empty portfolio is worth 0; how the value moves and its sign are stated by TotalPositive, TotalAfterPut and TotalAfterDelete |
| PortfolioStore.TotalPositive | client/components/PortfolioDashboard.tsx:211-213 | with positive amounts, the portfolio value is positive exactly when the portfolio is not empty |
| PortfolioStore.TotalAfterPut | client/components/PortfolioDashboard.tsx:211-213 | adding a new ticker raises the portfolio value by its amount; overwriting one replaces its old amount in the value with the new one |
| PortfolioStore.TotalAfterDelete | client/components/PortfolioDashboard.tsx:211-213 | removing a held ticker lowers the portfolio value by its amount |
| PortfolioStore.Allocations | client/components/PortfolioDashboard.tsx:215-223 | one row per ticker in key order, with `value` and `amount` equal to the ticker's amount and `percentage` equal to amount / total * 100, or 0 when the total is not positive |
| PortfolioStore.PercentagesSumTo100 | client/components/PortfolioDashboard.tsx:215-223 | when the total is positive, the allocation percentages add up to exactly 100 |
| PortfolioStore.PercentageBounds | client/components/PortfolioDashboard.tsx:215-223 | with positive amounts, every row's percentage lies in (0, 100] |
| PortfolioApi.All3 | client/components/PortfolioDashboard.tsx:140-144 | `Promise.all` over three calls succeeds exactly when all three do, and then carries their three results |
| Aggregation.PortfolioBatch | client/components/PortfolioDashboard.tsx:140-144 | the portfolio-level batch succeeds exactly when the performance, score and assessment calls on the portfolio all succeed, and then holds those three results |
| Aggregation.BundleOutcome | client/components/PortfolioDashboard.tsx:148-157 | a ticker's bundle exists exactly when its details, history and performance calls all succeed, and it holds their results |
| Aggregation.SecurityDataFor | client/components/PortfolioDashboard.tsx:145-162 | the per-ticker dictionary holds only tickers that were looped over, holds one exactly when its three calls succeeded, and holds their results |
| Aggregation.FailedTickers | client/components/PortfolioDashboard.tsx:158-161 | the tickers reported as failed are exactly those whose bundle failed, and there are at most as many as there are tickers |
| Aggregation.TickerToasts | client/components/PortfolioDashboard.tsx:160 | one error toast per failed ticker, naming it, in loop order |
| Aggregation.CollectSecurityData | client/components/PortfolioDashboard.tsx:145-162 | the loop builds exactly the per-ticker dictionary and the failure list specified above |
| Aggregation.Refreshed | client/components/PortfolioDashboard.tsx:126-169 | an empty portfolio nulls performance, score and assessment, empties the per-ticker data, and keeps insights and anomalies. A failed portfolio-level call leaves the data state exactly as it was. Otherwise the three batch results are stored, the per-ticker data has keys within the portfolio and holds a ticker exactly when its bundle succeeded, and insights and anomalies are kept |
| Aggregation.RefreshToasts | client/components/PortfolioDashboard.tsx:126-176 | no toast for an empty portfolio, and a single "Failed to fetch portfolio data" toast when the batch fails. Otherwise one "Failed to fetch data for <t>" toast per failed ticker, in loop order, followed by one success toast |
| Aggregation.RefreshToastsReportFailures | client/components/PortfolioDashboard.tsx:145-170 | after a successful batch, a ticker gets its "Failed to fetch data" toast exactly when it is missing from the new per-ticker data, and the refresh is never reported as a failed portfolio fetch |
| Aggregation.EveryTickerAccounted | client/components/PortfolioDashboard.tsx:145-162 | every ticker ends up either in the per-ticker data or among the reported failures, never both |
| Aggregation.TickerIsolation | client/components/PortfolioDashboard.tsx:146-161 | whether a ticker is present, and with what bundle, depends on that ticker's own three calls alone |
| Aggregation.OneFailureRemovesOnlyItself | client/components/PortfolioDashboard.tsx:146-161 | making one ticker's details call fail removes that ticker, and only it, from the per-ticker data |
| Aggregation.TickerFailureKeepsRefresh | client/components/PortfolioDashboard.tsx:145-170 | after a successful batch, a ticker's failure does not fail the refresh: from any previous data state it still ends with the success toast, and only that ticker is missing |
| ViewModel.FormatPercentage | client/components/PortfolioDashboard.tsx:240-242 | the text starts with '+' exactly when the value is >= 0, then holds formatNumber's rendering, then ends with '%' |
| ViewModel.PercentageExamples | client/components/PortfolioDashboard.tsx:240-242 | -5.5 renders as "-5.50%" and 5.5 renders as "+5.50%" |
| ViewModel.Classify | client/components/PortfolioDashboard.tsx:244-250 | missing or empty text is Unknown. Text that contains "positive" or "bullish", in any case, is Positive. Otherwise "negative" or "bearish" makes it Negative, and anything else is Neutral |
| ViewModel.SentimentColor | client/components/PortfolioDashboard.tsx:244-250 | the badge colour is the colour of the classification: grey, green, red or yellow |
| ViewModel.SentimentIcon | client/components/PortfolioDashboard.tsx:252-260 | the icon is the icon of the same classification: TrendingUp, TrendingDown or Activity |
| ViewModel.IconMatchesColor | client/components/PortfolioDashboard.tsx:244-260 | the icon trends up exactly when the colour is green, and down exactly when it is red |
| ViewModel.ClassifyIgnoresCase | client/components/PortfolioDashboard.tsx:246-248 | upper-casing a sentiment text never changes its class |
| ViewModel.PositiveWins | client/components/PortfolioDashboard.tsx:247-248 | a text mentioning both a positive and a negative word is Positive |
| ViewModel.StrongBullishOutlook | client/components/PortfolioDashboard.tsx:244-250 | "Strong Bullish Outlook" is Positive and a missing sentiment is Unknown |
| Utils.Band | client/lib/utils.ts:48-53 | green for >= 800, yellow for [600, 800), orange for [400, 600) and red below 400. The band's rank is the number of thresholds the score reaches |
| Utils.ScoreColor | client/lib/utils.ts:48-53 | the text colour is the band's, and each colour is returned exactly on its score interval |
| Utils.ScoreBadgeColor | client/lib/utils.ts:55-60 | the badge classes are the band's, with the same thresholds |
| Utils.BandMonotone | client/lib/utils.ts:48-53 | a higher score never gets a lower band |
| Utils.BadgeMatchesColor | client/lib/utils.ts:48-60 | two scores get the same text colour exactly when they get the same badge |
| Utils.UnitOf | client/lib/utils.ts:32-46 | B for >= 1e9, M for [1e6, 1e9), K for [1e3, 1e6), and the currency fallback below 1e3 |
| Utils.Scaled | client/lib/utils.ts:37-43 | the scaled value is >= 1 in the B branch and lies in [1, 1000) in the M and K branches; times the divisor, it gives back the value |
| Utils.FormatLargeNumber | client/lib/utils.ts:32-46 | below 1e3 the result is formatCurrency's. Otherwise it is "$", then the toFixed(2) rendering of the scaled value, then the unit letter |
| Dashboard.Dashboard.constructor | client/components/PortfolioDashboard.tsx:89-101 | empty portfolio, empty input fields, not loading, and the initial data state |
| Dashboard.Dashboard.SetNewTicker | client/components/PortfolioDashboard.tsx:303 | the ticker field takes the typed text |
| Dashboard.Dashboard.SetNewAmount | client/components/PortfolioDashboard.tsx:315 | the amount field takes the typed, browser-sanitised text |
| Dashboard.Dashboard.AddToPortfolio | client/components/PortfolioDashboard.tsx:103-115 | bad input changes nothing and raises the error toast. Good input stores the parsed amount under the normalised key, clears both fields, and toasts "Added " + the upper-cased untrimmed ticker + " to portfolio". Every stored amount stays positive |
| Dashboard.Dashboard.RemoveFromPortfolio | client/components/PortfolioDashboard.tsx:117-124 | the portfolio becomes the copy without that key, and the success toast is always raised |
| Dashboard.Dashboard.FetchPortfolioData | client/components/PortfolioDashboard.tsx:126-177 | the data state becomes `Refreshed` of the old one and the toasts are `RefreshToasts`. `loading` is untouched for an empty portfolio and false after both success and failure |
| Dashboard.Dashboard.HandleAnalyzeClick | client/components/PortfolioDashboard.tsx:203-209 | an empty portfolio changes nothing and raises the "add at least one security" toast; otherwise it refreshes as above |

## Left out

- The JSX, the Recharts charts, tabs, badges and icons as components, `console.error` and `activeTab`: rendering only. Toasts appear as returned `Toast` values; showing them is not modelled.
- Digit rendering by `Intl.NumberFormat`, `toFixed` and `toLocaleString` (`formatCurrency`, `formatNumber` in both files): floating-point formatting from libraries not in this model. It enters as a parameter (`toFixed2`, `formatCurrency`, `digits`). So the model cannot see that rounding in `toFixed(2)` can print a value just under a unit boundary as "1000.00K".
- client/app/api/portfolio-api.ts: the axios client, URLs, `JSON.stringify` of the portfolio, the API key and the 20-second timeout. Each call is an outcome in a `Gateway` table that the caller supplies.
- `fetchMarketData` and the `useEffect` that runs it at start-up: an all-or-nothing fetch of insights, anomalies and macro series with no logic of its own. `macroSeries` is therefore not in `DataState`.
- The response records of client/app/api/portfolio-api.ts are shortened. `SecurityDetails` keeps `ticker`, `ai_sentiment` and `profit_margin` from its nested `security_details` record and carries the other fields as name/value text pairs. `returns` of `PortfolioPerformance` is named `totalReturns` because `returns` is a reserved word in Dafny.
- `securityData` is a map, so the model does not keep the order in which the loop fills it. That order only affects the order of the rendered security cards (`Object.entries`).
- Concurrency: `Promise.all` is modelled as all-succeed-or-fail. Handlers run one at a time, so the model does not cover the last-write-wins race between overlapping refreshes.
- Dashboard.Dashboard.FetchPortfolioData: states only the final value of `loading`, not that it is true while the remote calls are in flight, and does not model the Analyze button being disabled meanwhile (line 330).
- `cn` (clsx and tailwind-merge), client/app/page.tsx and client/app/head.tsx: wrappers and page scaffolding.
- Numbers are reals. The model has no floating-point rounding, no NaN, no infinities and no negative zero. `parseFloat` is modelled only on text a number input can hold: empty, or a valid floating-point number. On such text it never returns NaN, so the check `parseFloat(newAmount) <= 0` works.
- `toUpperCase` and `toLowerCase` are modelled for ASCII letters only. Non-ASCII case mappings, including ones that change a string's length, are not.
- JavaScript lists integer-like keys (such as "123") before all other keys, in numeric order. The model lists every key in insertion order.
