# Chakramarkets core, modelled in Dafny

This project models the logic at the core of two cooperating front ends and one server.

- **Chakramarkets portfolio manager** (`chakra-main/chakramarket-main`):
  - the Express endpoint that analyses a portfolio. It computes allocation, totals, P&L and rule-based recommendations (rebalance, sell, hold, diversify).
  - the Redux portfolio slice and its reducers.
  - the holdings table, the recommendations panel and the add-holding form.
  - the real-time price hook, which deduplicates symbols, throttles updates and reprices holdings.
  - the notification and alert hook.
  - the header's tab, route, drawer and theme state.
- **NSE open-interest visualizer** (`nse-oi-visualizer-main`):
  - the dashboard's key metrics: spot, put and call OI, the strike with the largest OI, and the put-call ratio.
  - the sentiment analysis and the sentiment chip.
  - the OI-change view: chosen expiries, strike-range filtering and OI-change totals.
  - the custom-alerts page with its snapshots.
  - the snapshot-comparison dialog.

Values, such as holdings, alerts, notifications and option-chain replies, are datatypes. Pure computations are functions with lemmas about them.

State that the source updates in place is a class whose methods state the whole new state in their `ensures`:

- the Redux store;
- the notification hook;
- the price feed's last-update reference;
- the header, alerts page and add-holding dialog component state.

Loops in the source are methods with loop invariants, each proved equal to a specification function:

- the server's totals, percentage and recommendation passes;
- `findIndex`;
- the price-map loop;
- the maximum-OI scan;
- the chosen-expiry `reduce`.

Modelling conventions:

- **Numbers.** Money, prices and open interest are `real`.
- **Division.** Divisions by a quantity that can be zero go through `JsNumbers.Divide`. For a divisor that is +0 it gives JavaScript's result: a finite quotient, +Infinity, -Infinity or NaN. The holdings table's basis `purchasePrice * shares` can be -0, which flips the sign of the infinity; `HoldingsTable.PnLPercentage` models that sign. The model keeps the code's behaviour on an empty portfolio and on zero purchase prices rather than forbidding those inputs.
- **Parameters.** Identifiers (`Date.now().toString()`), timestamps and the current time are parameters. So are `parseInt`/`parseFloat`, and the expiry-combining and strike-range helpers of the visualizer's `utils` module.
- **`x || 0`.** It is modelled on a possibly missing number (`OrZero`).
- **`toFixed(2)`.** It is modelled as rounding to the nearest hundredth, halves upward (`Round2`).
- **Object iteration order.** The iteration order of a JavaScript object (the strike map) is the order of the given entry sequence.

Two results go beyond restating the code:

- The put-call-ratio chip classifies the rounded ratio and the analysis classifies the exact one. With both sides positive they disagree exactly for ratios in (1.2, 1.205) or [0.795, 0.8).
- When either OI side is zero or missing, the chip reads the "0.00" placeholder as bullish while the analysis reports neutral (`ChipOnPlaceholder`).

The table shown by the holdings view agrees with the server. The holdings table's P&L percentage equals the server's per-holding return for a positive share count (`PercentageMatchesAnalysis`).

## Model

| member | source | states |
|---|---|---|
| JsNumbers.Divide | chakra-main/chakramarket-main/backend/server.js:233 | JavaScript division: a finite quotient for a non-zero divisor; for a zero divisor, plus or minus Infinity by the dividend's sign, and NaN for 0/0 |
| PortfolioSlice.FindHoldingIndex | chakra-main/chakramarket-main/frontend/src/features/portfolio/portfolioSlice.ts:50 | `findIndex`: -1 exactly when no holding has the id; otherwise the first position whose holding has the id |
| PortfolioSlice.ReplaceFirst | chakra-main/chakramarket-main/frontend/src/features/portfolio/portfolioSlice.ts:49-54 | an update keeps the length, and every position holds either its old holding or the payload |
| PortfolioSlice.ReplaceFirstAt | chakra-main/chakramarket-main/frontend/src/features/portfolio/portfolioSlice.ts:49-54 | when the first holding with the payload's id sits at k, the update overwrites exactly position k |
| PortfolioSlice.ReplaceFirstWithoutMatch | chakra-main/chakramarket-main/frontend/src/features/portfolio/portfolioSlice.ts:49-54 | an update whose id matches no holding leaves the list unchanged |
| PortfolioSlice.WithPrices | chakra-main/chakramarket-main/frontend/src/features/portfolio/portfolioSlice.ts:75-82 | a price update keeps the length, and every holding keeps its id and symbol |
| PortfolioSlice.Repriced | chakra-main/chakramarket-main/frontend/src/features/portfolio/portfolioSlice.ts:77-81 | a holding whose symbol has a new price takes that price and keeps every other field; one without is unchanged |
| PortfolioSlice.WithPricesChangesOnlyPrices | chakra-main/chakramarket-main/frontend/src/features/portfolio/portfolioSlice.ts:75-82 | a price update keeps length, order and every field except the current price, which becomes the symbol's new price when there is one and stays otherwise |
| PortfolioSlice.WithPricesIdempotent | chakra-main/chakramarket-main/frontend/src/features/portfolio/portfolioSlice.ts:75-82 | applying the same price update twice gives the same holdings as applying it once |
| PortfolioSlice.PortfolioStore.constructor | chakra-main/chakramarket-main/frontend/src/features/portfolio/portfolioSlice.ts:34-40 | initial state: no holdings, no metrics, benchmark SPY, not loading, no error |
| PortfolioSlice.PortfolioStore.AddHolding | chakra-main/chakramarket-main/frontend/src/features/portfolio/portfolioSlice.ts:46-48 | the holding is appended at the end |
| PortfolioSlice.PortfolioStore.UpdateHolding | chakra-main/chakramarket-main/frontend/src/features/portfolio/portfolioSlice.ts:49-54 | only the first holding with the payload's id is replaced; nothing changes without a match |
| PortfolioSlice.PortfolioStore.RemoveHolding | chakra-main/chakramarket-main/frontend/src/features/portfolio/portfolioSlice.ts:55-57 | every holding with the id is dropped; the others keep their order |
| PortfolioSlice.PortfolioStore.SetMetrics | chakra-main/chakramarket-main/frontend/src/features/portfolio/portfolioSlice.ts:58-60 | the metrics become the payload |
| PortfolioSlice.PortfolioStore.SetBenchmark | chakra-main/chakramarket-main/frontend/src/features/portfolio/portfolioSlice.ts:61-63 | the benchmark becomes the payload |
| PortfolioSlice.PortfolioStore.SetLoading | chakra-main/chakramarket-main/frontend/src/features/portfolio/portfolioSlice.ts:64-66 | the loading flag becomes the payload |
| PortfolioSlice.PortfolioStore.SetError | chakra-main/chakramarket-main/frontend/src/features/portfolio/portfolioSlice.ts:67-69 | the error becomes the payload |
| PortfolioSlice.PortfolioStore.ClearPortfolio | chakra-main/chakramarket-main/frontend/src/features/portfolio/portfolioSlice.ts:70-74 | holdings emptied, metrics and error cleared; benchmark and loading flag untouched |
| PortfolioSlice.PortfolioStore.UpdateHoldingPrices | chakra-main/chakramarket-main/frontend/src/features/portfolio/portfolioSlice.ts:75-82 | the holdings become the repriced list, which keeps every other field |
| PortfolioAnalysis.Allocation | chakra-main/chakramarket-main/backend/server.js:189-192 | one entry per holding, in order, with its symbol and market value; its percentage is its market value over the total value times 100 when the total is positive, and 0 otherwise |
| PortfolioAnalysis.TotalValue | chakra-main/chakramarket-main/backend/server.js:175-180 | the total market value is 0 for no holdings and a lone holding's market value for one |
| PortfolioAnalysis.TotalInvestment | chakra-main/chakramarket-main/backend/server.js:175-180 | the total cost is 0 for no holdings and a lone holding's cost for one |
| PortfolioAnalysis.TotalsSplit | chakra-main/chakramarket-main/backend/server.js:175-180 | the totals of a portfolio split in two are the sums of the two parts' totals |
| PortfolioAnalysis.MetricsOf | chakra-main/chakramarket-main/backend/server.js:194-195 | the metrics carry the total value and investment, P&L as their difference and the P&L percentage rule applied to them |
| PortfolioAnalysis.SharesAddUp | chakra-main/chakramarket-main/backend/server.js:189-192 | the allocation percentages add up to the total value over the divisor, times 100 |
| PortfolioAnalysis.AllocationSumsToHundred | chakra-main/chakramarket-main/backend/server.js:189-192 | with a positive total value the allocation percentages add up to exactly 100 |
| PortfolioAnalysis.TotalPnLPercentage | chakra-main/chakramarket-main/backend/server.js:194-195 | the P&L percentage is 0 without a positive investment and 0 when value equals investment |
| PortfolioAnalysis.TotalPnLPercentageSign | chakra-main/chakramarket-main/backend/server.js:194-195 | with a positive investment the P&L percentage has the sign of value minus investment; otherwise it is 0 |
| PortfolioAnalysis.SumHoldings | chakra-main/chakramarket-main/backend/server.js:175-187 | the totals loop computes the total market value and the total investment, and one zero-percent allocation entry per holding |
| PortfolioAnalysis.FillPercentages | chakra-main/chakramarket-main/backend/server.js:189-192 | the percentage pass turns those entries into the allocation |
| PortfolioAnalysis.PushRebalance | chakra-main/chakramarket-main/backend/server.js:219-229 | the rebalance pass emits exactly the rebalance recommendations of the allocation |
| PortfolioAnalysis.PushPerformance | chakra-main/chakramarket-main/backend/server.js:232-249 | the performance pass appends exactly the performance recommendations, in holding order |
| PortfolioAnalysis.Analyze | chakra-main/chakramarket-main/backend/server.js:162-282 | the analyze endpoint: a 400 reply without a holdings array, otherwise allocation, metrics and the recommendations in rule order |
| PortfolioAnalysis.Respond | chakra-main/chakramarket-main/backend/server.js:164-276 | 400 exactly when there is no holdings array; otherwise the reply carries the metrics of the holdings, their allocation and their recommendations |
| PortfolioAnalysis.RebalanceFor | chakra-main/chakramarket-main/backend/server.js:222-227 | a concentrated entry gives a high-priority rebalance of its symbol |
| PortfolioAnalysis.HoldingReturn | chakra-main/chakramarket-main/backend/server.js:233 | a holding's return is finite exactly when its purchase price is non-zero, and NaN exactly when both prices are 0 |
| PortfolioAnalysis.PerformanceFor | chakra-main/chakramarket-main/backend/server.js:234-247 | a signalled holding gives a sell (medium) exactly when its return is below -15 percent, otherwise a hold (low), for its own symbol |
| PortfolioAnalysis.RecommendationsFor | chakra-main/chakramarket-main/backend/server.js:216-259 | the rebalance recommendations of the allocation, then the performance recommendations, then the diversify buy exactly when there are fewer than 5 holdings |
| PortfolioAnalysis.RebalanceExactlyForConcentrated | chakra-main/chakramarket-main/backend/server.js:219-229 | one high-priority rebalance recommendation for each allocation entry over 25 percent, and none for any other |
| PortfolioAnalysis.PerformanceRule | chakra-main/chakramarket-main/backend/server.js:232-249 | a return below -15 percent gives a medium-priority sell, above 20 percent a low-priority hold, anything else no recommendation |
| PortfolioAnalysis.PerformanceAtMostOnePerHolding | chakra-main/chakramarket-main/backend/server.js:232-249 | at most one performance recommendation per holding, and each is a sell or a hold |
| PortfolioAnalysis.RulesEmitNoBuy | chakra-main/chakramarket-main/backend/server.js:219-249 | neither the rebalance rule nor the performance rule ever emits a buy |
| PortfolioAnalysis.DiversifyIsLastAndOnlyBuy | chakra-main/chakramarket-main/backend/server.js:252-259 | a buy appears exactly when there are fewer than 5 holdings, and then only once, as the last recommendation |
| PortfolioAnalysis.RecommendationPrioritiesAreKnown | chakra-main/chakramarket-main/backend/server.js:216-259 | every recommendation has priority high, medium or low |
| HoldingsTable.PnL | chakra-main/chakramarket-main/frontend/src/components/PortfolioManager/HoldingsTable.tsx:43-47 | a holding's P&L is price change times shares, and it is non-negative exactly when market value is at least the investment |
| HoldingsTable.PnLPercentage | chakra-main/chakramarket-main/frontend/src/components/PortfolioManager/HoldingsTable.tsx:49-53 | a finite percentage for a non-zero basis; for a zero basis NaN exactly when the P&L is 0, otherwise an infinity with the P&L's sign, flipped when `purchasePrice * shares` is -0 |
| HoldingsTable.FormatPercentage | chakra-main/chakramarket-main/frontend/src/components/PortfolioManager/HoldingsTable.tsx:39-41 | the plus sign is shown exactly for non-negative values, including +Infinity |
| HoldingsTable.RowOf | chakra-main/chakramarket-main/frontend/src/components/PortfolioManager/HoldingsTable.tsx:73-76 | a row shows market value, P&L, the profit flag (non-negative P&L), the P&L's absolute value and the P&L percentage |
| HoldingsTable.PercentageWithPositiveBasis | chakra-main/chakramarket-main/frontend/src/components/PortfolioManager/HoldingsTable.tsx:49-53 | with a positive investment the percentage is finite and has the P&L's sign, and its plus sign agrees with the row's profit colour |
| HoldingsTable.PercentageMatchesAnalysis | chakra-main/chakramarket-main/frontend/src/components/PortfolioManager/HoldingsTable.tsx:49-53 | for a positive share count the table's percentage equals the server's per-holding return, a zero purchase price included |
| HoldingsTable.ZeroPriceShortShowsPlusInfinity | chakra-main/chakramarket-main/frontend/src/components/PortfolioManager/HoldingsTable.tsx:39-53 | a holding bought at 0 with negative shares and a positive price shows as a loss yet reads +Infinity with a '+' |
| HoldingsTable.HandleDelete | chakra-main/chakramarket-main/frontend/src/components/PortfolioManager/HoldingsTable.tsx:28-30 | deleting removes every holding with the id from the store |
| RealTimePrices.UniqueSymbols | chakra-main/chakramarket-main/frontend/src/hooks/useRealTimePrices.ts:14-15 | the symbols are duplicate-free, and they are exactly the symbols of the holdings |
| RealTimePrices.UniqueSymbolsInFirstOccurrenceOrder | chakra-main/chakramarket-main/frontend/src/hooks/useRealTimePrices.ts:14-15 | symbols are listed in the order of their first occurrence among the holdings |
| RealTimePrices.ShouldSkipIffNoHoldings | chakra-main/chakramarket-main/frontend/src/hooks/useRealTimePrices.ts:18 | subscription is skipped exactly when there are no holdings |
| RealTimePrices.ShouldSkip | chakra-main/chakramarket-main/frontend/src/hooks/useRealTimePrices.ts:18 | when skipped, no holding's symbol is among the symbols to subscribe to |
| RealTimePrices.PriceUpdates | chakra-main/chakramarket-main/frontend/src/hooks/useRealTimePrices.ts:36-42 | every collected price is positive |
| RealTimePrices.Accepted | chakra-main/chakramarket-main/frontend/src/hooks/useRealTimePrices.ts:39 | an accepted quote has a positive price |
| RealTimePrices.PriceUpdatesSpec | chakra-main/chakramarket-main/frontend/src/hooks/useRealTimePrices.ts:36-42 | a symbol gets a price exactly when some quote for it is accepted (positive price, no error), and the price is that of the last accepted quote for it |
| RealTimePrices.PriceUpdatesFromLastAccepted | chakra-main/chakramarket-main/frontend/src/hooks/useRealTimePrices.ts:36-42 | a symbol in the update map has the price of an accepted quote for it after which no accepted quote names it |
| RealTimePrices.PriceUpdatesCoverAccepted | chakra-main/chakramarket-main/frontend/src/hooks/useRealTimePrices.ts:36-42 | every symbol named by an accepted quote ends up in the update map |
| RealTimePrices.CollectPriceUpdates | chakra-main/chakramarket-main/frontend/src/hooks/useRealTimePrices.ts:36-42 | the loop over the quotes builds exactly that price map |
| RealTimePrices.PriceFeed.constructor | chakra-main/chakramarket-main/frontend/src/hooks/useRealTimePrices.ts:11 | no update has happened yet (last update at time 0) |
| RealTimePrices.PriceFeed.OnStockData | chakra-main/chakramarket-main/frontend/src/hooks/useRealTimePrices.ts:27-50 | prices are dispatched exactly when data arrived, at least 30 seconds passed and some price was accepted; then the holdings are repriced and the time is recorded; otherwise nothing changes |
| RealTimePrices.PriceFeed.RefreshPrices | chakra-main/chakramarket-main/frontend/src/hooks/useRealTimePrices.ts:53-61 | a refetch happens exactly when there are holdings |
| Notifications.ApplyUpdateIdempotent | chakra-main/chakramarket-main/frontend/src/hooks/useNotifications.ts:103-111 | applying a partial update twice equals applying it once, and an empty update changes nothing |
| Notifications.ApplyUpdate | chakra-main/chakramarket-main/frontend/src/hooks/useNotifications.ts:107 | each of the nine fields is the update's when it gives one and the alert's otherwise |
| Notifications.MarkRead | chakra-main/chakramarket-main/frontend/src/hooks/useNotifications.ts:69-77 | notifications with the id become read; every other field and every other notification stays |
| Notifications.MarkAllRead | chakra-main/chakramarket-main/frontend/src/hooks/useNotifications.ts:79-83 | every notification becomes read and keeps its other fields |
| Notifications.UnreadCount | chakra-main/chakramarket-main/frontend/src/hooks/useNotifications.ts:127-129 | the unread count is at most the number of notifications and is zero exactly when all are read |
| Notifications.UnreadAfterMarkAll | chakra-main/chakramarket-main/frontend/src/hooks/useNotifications.ts:79-83 | after marking all read the unread count is zero |
| Notifications.UnreadAfterMarkRead | chakra-main/chakramarket-main/frontend/src/hooks/useNotifications.ts:69-77 | after marking an id read, the unread notifications are the previously unread ones without that id |
| Notifications.ToggleAlerts | chakra-main/chakramarket-main/frontend/src/hooks/useNotifications.ts:117-125 | alerts with the id flip their active flag; every other field and alert stays |
| Notifications.ToggleTwice | chakra-main/chakramarket-main/frontend/src/hooks/useNotifications.ts:117-125 | toggling the same id twice restores the alerts |
| Notifications.UpdateAlerts | chakra-main/chakramarket-main/frontend/src/hooks/useNotifications.ts:103-111 | alerts without the id are unchanged and the length is kept |
| Notifications.UpdateAlertsOnMatch | chakra-main/chakramarket-main/frontend/src/hooks/useNotifications.ts:103-111 | an alert with the id becomes the alert spread with the update: each of the nine fields the update gives (a supplied id included) is taken, each it leaves out is kept |
| Notifications.ActiveCount | chakra-main/chakramarket-main/frontend/src/hooks/useNotifications.ts:131-133 | the active count is at most the number of alerts and is zero exactly when none is active |
| Notifications.NotificationCenter.constructor | chakra-main/chakramarket-main/frontend/src/hooks/useNotifications.ts:25-26 | no notifications and no alerts |
| Notifications.NotificationCenter.AddNotification | chakra-main/chakramarket-main/frontend/src/hooks/useNotifications.ts:50-58 | a new unread notification is put first |
| Notifications.NotificationCenter.MarkAsRead | chakra-main/chakramarket-main/frontend/src/hooks/useNotifications.ts:69-77 | the notifications become MarkRead of the old ones |
| Notifications.NotificationCenter.MarkAllAsRead | chakra-main/chakramarket-main/frontend/src/hooks/useNotifications.ts:79-83 | all notifications become read and the unread count is zero |
| Notifications.NotificationCenter.RemoveNotification | chakra-main/chakramarket-main/frontend/src/hooks/useNotifications.ts:85-87 | notifications with the id are dropped, the rest keep their order |
| Notifications.NotificationCenter.ClearAllNotifications | chakra-main/chakramarket-main/frontend/src/hooks/useNotifications.ts:89-91 | no notifications remain |
| Notifications.NotificationCenter.AddAlert | chakra-main/chakramarket-main/frontend/src/hooks/useNotifications.ts:93-101 | a new alert built from the draft, with the given id and creation time, is appended |
| Notifications.NotificationCenter.UpdateAlert | chakra-main/chakramarket-main/frontend/src/hooks/useNotifications.ts:103-111 | the alerts become UpdateAlerts of the old ones |
| Notifications.NotificationCenter.RemoveAlert | chakra-main/chakramarket-main/frontend/src/hooks/useNotifications.ts:113-115 | alerts with the id are dropped, the rest keep their order |
| Notifications.NotificationCenter.ToggleAlert | chakra-main/chakramarket-main/frontend/src/hooks/useNotifications.ts:117-125 | the alerts become ToggleAlerts of the old ones |
| Notifications.NotificationCenter.GetUnreadCount | chakra-main/chakramarket-main/frontend/src/hooks/useNotifications.ts:127-129 | the unread count is at most the number of notifications and 0 exactly when all are read |
| Notifications.NotificationCenter.GetActiveAlertsCount | chakra-main/chakramarket-main/frontend/src/hooks/useNotifications.ts:131-133 | the active count is at most the number of alerts and 0 exactly when none is active |
| Header.TabPathRoundTrip | chakra-main/chakramarket-main/frontend/src/components/Common/Header.tsx:55-83 | the five tabs and their routes correspond one to one in both directions |
| Header.TabPath | chakra-main/chakramarket-main/frontend/src/components/Common/Header.tsx:55-67 | exactly the tab indices 0 to 4 have a route, and each route starts with '/' |
| Header.PathTab | chakra-main/chakramarket-main/frontend/src/components/Common/Header.tsx:71-83 | a route selects a tab index between 0 and 4, and a path not starting with '/' selects none |
| Header.Toggled | chakra-main/chakramarket-main/frontend/src/components/Common/Header.tsx:185 | toggling always changes the theme mode |
| Header.ToggleTwiceRestores | chakra-main/chakramarket-main/frontend/src/components/Common/Header.tsx:185 | toggling twice restores the theme mode |
| Header.BadgeCount | chakra-main/chakramarket-main/frontend/src/components/Common/Header.tsx:91 | the badge is at most notifications plus alerts and is zero exactly when nothing is unread and no alert is active |
| Header.HeaderState.constructor | chakra-main/chakramarket-main/frontend/src/components/Common/Header.tsx:29-33 | first tab selected, drawer closed |
| Header.HeaderState.HandleChange | chakra-main/chakramarket-main/frontend/src/components/Common/Header.tsx:55-69 | the selected tab becomes the new one and the page navigates to its route (none for an unknown tab) |
| Header.HeaderState.OnPathChange | chakra-main/chakramarket-main/frontend/src/components/Common/Header.tsx:71-83 | a known route selects its tab; an unknown route keeps the selection |
| Header.HeaderState.OnScreenChange | chakra-main/chakramarket-main/frontend/src/components/Common/Header.tsx:85-89 | a large screen closes the drawer; a small one leaves it |
| Header.HeaderState.OpenAlerts | chakra-main/chakramarket-main/frontend/src/components/Common/Header.tsx:173 | the badge navigates to the alerts route |
| Header.HeaderState.ToggleDrawer | chakra-main/chakramarket-main/frontend/src/components/Common/Header.tsx:194 | the drawer flips |
| Header.HeaderState.CloseDrawer | chakra-main/chakramarket-main/frontend/src/components/Common/Header.tsx:207 | the drawer is closed |
| Header.HeaderState.ToggleTheme | chakra-main/chakramarket-main/frontend/src/components/Common/Header.tsx:185 | the theme mode toggles |
| Header.SelectThenFollow | chakra-main/chakramarket-main/frontend/src/components/Common/Header.tsx:55-83 | selecting a tab and then following its route keeps that tab selected |
| Recommendations.RecommendationColor | chakra-main/chakramarket-main/frontend/src/components/PortfolioManager/Recommendations.tsx:43-56 | buy, sell, hold and rebalance each get their own colour, in both directions |
| Recommendations.PriorityColor | chakra-main/chakramarket-main/frontend/src/components/PortfolioManager/Recommendations.tsx:71-82 | high, medium and low each get their own colour, any other priority the info colour |
| Recommendations.BannerIffSomeHigh | chakra-main/chakramarket-main/frontend/src/components/PortfolioManager/Recommendations.tsx:107-116 | the high-priority banner shows exactly when some recommendation is high priority |
| Recommendations.ShowsBanner | chakra-main/chakramarket-main/frontend/src/components/PortfolioManager/Recommendations.tsx:107 | the banner shows exactly when some recommendation is high priority |
| Recommendations.ShowsEmptyState | chakra-main/chakramarket-main/frontend/src/components/PortfolioManager/Recommendations.tsx:84 | without the empty state there is a non-empty list of recommendations |
| Recommendations.PriorityListsPartition | chakra-main/chakramarket-main/frontend/src/components/PortfolioManager/Recommendations.tsx:97-99 | when every priority is known the three priority lists split the recommendations: lengths add up and each lands in the list of its priority |
| Recommendations.ServerRecommendationsPartition | chakra-main/chakramarket-main/frontend/src/components/PortfolioManager/Recommendations.tsx:97-99 | the server's recommendations always split exactly into the three priority lists |
| AddHoldingForm.UpperCase | chakra-main/chakramarket-main/frontend/src/components/PortfolioManager/AddHoldingForm.tsx:58 | the symbol keeps its length, lower-case letters become upper case, other characters stay, and no lower-case letter remains |
| AddHoldingForm.UpperCaseIdempotent | chakra-main/chakramarket-main/frontend/src/components/PortfolioManager/AddHoldingForm.tsx:58 | upper-casing twice equals upper-casing once |
| AddHoldingForm.BuildHolding | chakra-main/chakramarket-main/frontend/src/components/PortfolioManager/AddHoldingForm.tsx:44-67 | a rejection needs an empty required field or an option; an accepted holding has the given id, the form's type and a current price equal to its purchase price |
| AddHoldingForm.BuildHoldingValidation | chakra-main/chakramarket-main/frontend/src/components/PortfolioManager/AddHoldingForm.tsx:46-54 | a missing field rejects the form with the fill-all-fields message, an option without strike or expiry with the option message, otherwise a holding is built |
| AddHoldingForm.AcceptedHolding | chakra-main/chakramarket-main/frontend/src/components/PortfolioManager/AddHoldingForm.tsx:56-67 | an accepted holding has the upper-cased symbol, the parsed numbers, the current price equal to the purchase price, and option fields only for options |
| AddHoldingForm.StockIgnoresOptionFields | chakra-main/chakramarket-main/frontend/src/components/PortfolioManager/AddHoldingForm.tsx:51-66 | for a stock the option fields of the form do not affect the result |
| AddHoldingForm.AddHoldingDialog.constructor | chakra-main/chakramarket-main/frontend/src/components/PortfolioManager/AddHoldingForm.tsx:27-37 | empty form, no error |
| AddHoldingForm.AddHoldingDialog.HandleInputChange | chakra-main/chakramarket-main/frontend/src/components/PortfolioManager/AddHoldingForm.tsx:39-42 | the edited field changes and the error is cleared |
| AddHoldingForm.AddHoldingDialog.HandleClose | chakra-main/chakramarket-main/frontend/src/components/PortfolioManager/AddHoldingForm.tsx:73-86 | the form is reset, the error cleared and the dialog asked to close |
| AddHoldingForm.AddHoldingDialog.HandleSubmit | chakra-main/chakramarket-main/frontend/src/components/PortfolioManager/AddHoldingForm.tsx:44-71 | a rejected form shows its message and leaves the store; an accepted one appends the holding and closes the dialog |
| OpenInterestDashboard.OrZero | nse-oi-visualizer-main/nse-oi-visualizer-main/frontend/src/components/OpenInterest/RedesignedDashboard.tsx:97-100 | a missing figure reads as 0, a present one as itself |
| OpenInterestDashboard.MaxOIScan | nse-oi-visualizer-main/nse-oi-visualizer-main/frontend/src/components/OpenInterest/RedesignedDashboard.tsx:107-117 | the reported maximum is non-negative and at least every strike's total |
| OpenInterestDashboard.MaxOIScanIsFirstMaximum | nse-oi-visualizer-main/nse-oi-visualizer-main/frontend/src/components/OpenInterest/RedesignedDashboard.tsx:107-117 | the reported strike is the first one with the largest positive total, or 0 and the empty strike when no total is positive |
| OpenInterestDashboard.Round2 | nse-oi-visualizer-main/nse-oi-visualizer-main/frontend/src/components/OpenInterest/RedesignedDashboard.tsx:127 | the rounded value is a whole number of hundredths within half a hundredth of the ratio |
| OpenInterestDashboard.MetricsOf | nse-oi-visualizer-main/nse-oi-visualizer-main/frontend/src/components/OpenInterest/RedesignedDashboard.tsx:94-129 | metrics exactly when there is data; the maximum and its strike are those of the strike scan (0 and no strike without strikes); the ratio is put over call OI to within half a hundredth when both are positive and 0 otherwise |
| OpenInterestDashboard.ReportedPcr | nse-oi-visualizer-main/nse-oi-visualizer-main/frontend/src/components/OpenInterest/RedesignedDashboard.tsx:127 | with positive put and call OI the ratio is put over call to within half a hundredth; otherwise it is 0 |
| OpenInterestDashboard.GetMetrics | nse-oi-visualizer-main/nse-oi-visualizer-main/frontend/src/components/OpenInterest/RedesignedDashboard.tsx:94-129 | null without data; otherwise spot, put and call OI, the maximum strike from the scan, and the put-call ratio |
| OpenInterestDashboard.Classify | nse-oi-visualizer-main/nse-oi-visualizer-main/frontend/src/components/OpenInterest/RedesignedDashboard.tsx:144-156 | bearish exactly above 1.2, bullish exactly below 0.8, neutral exactly in between |
| OpenInterestDashboard.ClassifyMonotone | nse-oi-visualizer-main/nse-oi-visualizer-main/frontend/src/components/OpenInterest/RedesignedDashboard.tsx:144-156 | a higher ratio never reads more bullish |
| OpenInterestDashboard.AnalysisSentimentThresholds | nse-oi-visualizer-main/nse-oi-visualizer-main/frontend/src/components/OpenInterest/RedesignedDashboard.tsx:138-156 | bearish exactly when puts exceed 1.2 times calls, bullish exactly below 0.8 times, neutral when either side is not positive |
| OpenInterestDashboard.AnalysisSentiment | nse-oi-visualizer-main/nse-oi-visualizer-main/frontend/src/components/OpenInterest/RedesignedDashboard.tsx:138-156 | neutral whenever either side is not positive |
| OpenInterestDashboard.AnalyzeSentiment | nse-oi-visualizer-main/nse-oi-visualizer-main/frontend/src/components/OpenInterest/RedesignedDashboard.tsx:132-137 | a sentiment exactly when there is data, neutral when a side is missing or zero |
| OpenInterestDashboard.ChipSentiment | nse-oi-visualizer-main/nse-oi-visualizer-main/frontend/src/components/OpenInterest/RedesignedDashboard.tsx:646-655 | bullish exactly for a reported ratio below 0.8, bearish exactly above 1.2, neutral without metrics |
| OpenInterestDashboard.RoundedAbove | nse-oi-visualizer-main/nse-oi-visualizer-main/frontend/src/components/OpenInterest/RedesignedDashboard.tsx:127 | the rounded ratio exceeds 1.2 exactly when the ratio is at least 1.205 |
| OpenInterestDashboard.RoundedBelow | nse-oi-visualizer-main/nse-oi-visualizer-main/frontend/src/components/OpenInterest/RedesignedDashboard.tsx:127 | the rounded ratio is below 0.8 exactly when the ratio is below 0.795 |
| OpenInterestDashboard.ChipDisagreesOnlyNearThresholds | nse-oi-visualizer-main/nse-oi-visualizer-main/frontend/src/components/OpenInterest/RedesignedDashboard.tsx:646-655 | with both sides positive the chip and the analysis disagree exactly for ratios in (1.2, 1.205) or [0.795, 0.8) |
| OpenInterestDashboard.ChipOnPlaceholder | nse-oi-visualizer-main/nse-oi-visualizer-main/frontend/src/components/OpenInterest/RedesignedDashboard.tsx:646-655 | with either side missing or zero the chip reads bullish while the analysis says neutral |
| CustomAlerts.FormUpdate | nse-oi-visualizer-main/nse-oi-visualizer-main/frontend/src/components/CustomAlerts/index.tsx:127 | an edit never changes the alert's id, active flag or creation time |
| CustomAlerts.AddedAlert | nse-oi-visualizer-main/nse-oi-visualizer-main/frontend/src/components/CustomAlerts/index.tsx:96-99 | the added alert holds the form's fields, is active, and has the caller's id and creation time |
| CustomAlerts.UpdateFromFormRoundTrip | nse-oi-visualizer-main/nse-oi-visualizer-main/frontend/src/components/CustomAlerts/index.tsx:111-138 | editing an alert with a form gives back that form, editing with the alert's own form changes nothing, and id, active flag and creation time survive |
| CustomAlerts.TrimStart | nse-oi-visualizer-main/nse-oi-visualizer-main/frontend/src/components/CustomAlerts/index.tsx:141 | removes exactly the leading whitespace |
| CustomAlerts.TrimEnd | nse-oi-visualizer-main/nse-oi-visualizer-main/frontend/src/components/CustomAlerts/index.tsx:141 | removes exactly the trailing whitespace |
| CustomAlerts.Trim | nse-oi-visualizer-main/nse-oi-visualizer-main/frontend/src/components/CustomAlerts/index.tsx:141 | the trimmed name is the slice of the name after its leading whitespace (as much as the start trim drops) with only whitespace after it; neither end of the result is whitespace |
| CustomAlerts.TrimEmptyIffAllWhitespace | nse-oi-visualizer-main/nse-oi-visualizer-main/frontend/src/components/CustomAlerts/index.tsx:141 | a name trims to empty exactly when it is all whitespace |
| CustomAlerts.AlertTypeLabel | nse-oi-visualizer-main/nse-oi-visualizer-main/frontend/src/components/CustomAlerts/index.tsx:166-174 | the four alert codes get their labels; any other code is shown as is |
| CustomAlerts.CustomAlertsPage.constructor | nse-oi-visualizer-main/nse-oi-visualizer-main/frontend/src/components/CustomAlerts/index.tsx:45-63 | no snapshots, dialog closed, nothing edited, default form, empty name, comparison closed |
| CustomAlerts.CustomAlertsPage.HandleAddAlert | nse-oi-visualizer-main/nse-oi-visualizer-main/frontend/src/components/CustomAlerts/index.tsx:92-109 | without symbol or strike nothing happens; otherwise the form's fields are appended as an active alert with the given id and creation time, the form resets and the dialog closes |
| CustomAlerts.CustomAlertsPage.HandleEditAlert | nse-oi-visualizer-main/nse-oi-visualizer-main/frontend/src/components/CustomAlerts/index.tsx:111-122 | the alert is being edited, the form holds its fields and the dialog opens |
| CustomAlerts.CustomAlertsPage.HandleUpdateAlert | nse-oi-visualizer-main/nse-oi-visualizer-main/frontend/src/components/CustomAlerts/index.tsx:124-138 | with an alert under edit it takes the form's fields, and the form and dialog reset; otherwise nothing happens |
| CustomAlerts.CustomAlertsPage.Submit | nse-oi-visualizer-main/nse-oi-visualizer-main/frontend/src/components/CustomAlerts/index.tsx:346 | while editing, the edited alert takes the form's fields; otherwise the form is added as an active alert with the given id and time, or nothing happens without symbol or strike; the form and dialog reset whenever something was saved |
| CustomAlerts.CustomAlertsPage.Cancel | nse-oi-visualizer-main/nse-oi-visualizer-main/frontend/src/components/CustomAlerts/index.tsx:354-365 | the dialog closes, editing stops and the form resets |
| CustomAlerts.CustomAlertsPage.OpenAddAlert | nse-oi-visualizer-main/nse-oi-visualizer-main/frontend/src/components/CustomAlerts/index.tsx:246 | the dialog opens |
| CustomAlerts.CustomAlertsPage.EditForm | nse-oi-visualizer-main/nse-oi-visualizer-main/frontend/src/components/CustomAlerts/index.tsx:276-337 | the edited form field changes |
| CustomAlerts.CustomAlertsPage.SetSnapshotName | nse-oi-visualizer-main/nse-oi-visualizer-main/frontend/src/components/CustomAlerts/index.tsx:460 | the snapshot name becomes the input |
| CustomAlerts.CustomAlertsPage.CreateSnapshot | nse-oi-visualizer-main/nse-oi-visualizer-main/frontend/src/components/CustomAlerts/index.tsx:140-152 | a blank name does nothing; otherwise a snapshot of the current data is appended and the name cleared |
| CustomAlerts.CustomAlertsPage.DeleteSnapshot | nse-oi-visualizer-main/nse-oi-visualizer-main/frontend/src/components/CustomAlerts/index.tsx:154-156 | snapshots with the id are dropped, the rest keep their order |
| CustomAlerts.CustomAlertsPage.OpenComparison | nse-oi-visualizer-main/nse-oi-visualizer-main/frontend/src/components/CustomAlerts/index.tsx:158-160 | the comparison opens on the snapshot |
| CustomAlerts.CustomAlertsPage.CloseComparison | nse-oi-visualizer-main/nse-oi-visualizer-main/frontend/src/components/CustomAlerts/index.tsx:162-164 | the comparison closes and forgets its snapshot |
| SnapshotComparison.HelpersAgree | nse-oi-visualizer-main/nse-oi-visualizer-main/frontend/src/components/CustomAlerts/SnapshotComparison.tsx:31-61 | the indicator, value and colour helpers agree: up is green, down is red, flat is grey, and N/A appears exactly when the old or new value is zero |
| SnapshotComparison.ChangeIndicator | nse-oi-visualizer-main/nse-oi-visualizer-main/frontend/src/components/CustomAlerts/SnapshotComparison.tsx:31-43 | up exactly above +5 percent, down exactly below -5 percent, with both values present |
| SnapshotComparison.ChangeValue | nse-oi-visualizer-main/nse-oi-visualizer-main/frontend/src/components/CustomAlerts/SnapshotComparison.tsx:45-51 | N/A exactly when a value is missing; otherwise the change, with a '+' exactly when positive |
| SnapshotComparison.ChangeColor | nse-oi-visualizer-main/nse-oi-visualizer-main/frontend/src/components/CustomAlerts/SnapshotComparison.tsx:53-61 | green exactly above +5 percent, red exactly below -5 percent, with both values present |
| SnapshotComparison.BucketsForPositiveOldValue | nse-oi-visualizer-main/nse-oi-visualizer-main/frontend/src/components/CustomAlerts/SnapshotComparison.tsx:31-51 | for a positive old value: up exactly above 105 percent of it, down exactly below 95 percent, plus sign exactly on a rise |
| SnapshotComparison.Dialog | nse-oi-visualizer-main/nse-oi-visualizer-main/frontend/src/components/CustomAlerts/SnapshotComparison.tsx:63-129 | nothing without a snapshot or current data; otherwise three cards, total, call and put OI, each coloured and valued by the change rule applied to the snapshot and current figures with a missing figure read as 0 |
| SnapshotComparison.Comparable | nse-oi-visualizer-main/nse-oi-visualizer-main/frontend/src/components/CustomAlerts/SnapshotComparison.tsx:32 | the two figures are comparable exactly when their product is not 0, that is neither is 0 |
| SnapshotComparison.CardFor | nse-oi-visualizer-main/nse-oi-visualizer-main/frontend/src/components/CustomAlerts/SnapshotComparison.tsx:86-126 | a card shows N/A in grey exactly when either figure reads as 0; otherwise its colour and value follow the change rule on the two figures |
| SnapshotComparison.SnapshotWithoutDataIsNotAvailable | nse-oi-visualizer-main/nse-oi-visualizer-main/frontend/src/components/CustomAlerts/SnapshotComparison.tsx:86-126 | a snapshot without data shows N/A on every card |
| OIChange.HeaderDate | nse-oi-visualizer-main/nse-oi-visualizer-main/frontend/src/components/OpenInterest/OIChange.tsx:23 | the header date drops the last five characters |
| OIChange.CollectChosen | nse-oi-visualizer-main/nse-oi-visualizer-main/frontend/src/components/OpenInterest/OIChange.tsx:21-26 | the loop keeps the chosen expiries, in order, mapped through the formatter |
| OIChange.ExpiryDates | nse-oi-visualizer-main/nse-oi-visualizer-main/frontend/src/components/OpenInterest/OIChange.tsx:18-33 | no dates without expiries; otherwise the header dates of the chosen expiries |
| OIChange.ChosenExpiries | nse-oi-visualizer-main/nse-oi-visualizer-main/frontend/src/components/OpenInterest/OIChange.tsx:39-44 | the dates of the chosen expiries, in order |
| OIChange.HeaderShowsChosenOnly | nse-oi-visualizer-main/nse-oi-visualizer-main/frontend/src/components/OpenInterest/OIChange.tsx:18-33 | one header date per chosen expiry: none when nothing is chosen, all when everything is |
| OIChange.FormattedData | nse-oi-visualizer-main/nse-oi-visualizer-main/frontend/src/components/OpenInterest/OIChange.tsx:35-51 | grouped data combines the chosen expiries; otherwise nothing |
| OIChange.FilteredData | nse-oi-visualizer-main/nse-oi-visualizer-main/frontend/src/components/OpenInterest/OIChange.tsx:53-59 | data restricted to the strike range when both bounds are set; otherwise nothing |
| OIChange.TotalCallOIChange | nse-oi-visualizer-main/nse-oi-visualizer-main/frontend/src/components/OpenInterest/OIChange.tsx:61-69 | a total exactly when there is filtered data; zero for none |
| OIChange.TotalPutOIChange | nse-oi-visualizer-main/nse-oi-visualizer-main/frontend/src/components/OpenInterest/OIChange.tsx:71-79 | a total exactly when there is filtered data; zero for none |
| OIChange.MissingCallChangesAddNothing | nse-oi-visualizer-main/nse-oi-visualizer-main/frontend/src/components/OpenInterest/OIChange.tsx:61-69 | strikes without a call change contribute nothing to the total |
| OIChange.TotalsAreAdditive | nse-oi-visualizer-main/nse-oi-visualizer-main/frontend/src/components/OpenInterest/OIChange.tsx:61-79 | the totals over joined strike lists are the sums of the totals |
| OIChange.UnderlyingPrice | nse-oi-visualizer-main/nse-oi-visualizer-main/frontend/src/components/OpenInterest/OIChange.tsx:81-87 | the underlying price exactly when there is data |

## Left out

- Persistence in `localStorage` (useNotifications.ts 28-48, CustomAlerts/index.tsx 65-76): storage I/O. The model starts from empty lists.
- Browser notifications and the permission request (useNotifications.ts 60-66, CustomAlerts/index.tsx 78-90): a browser API.
- The randomly generated performance series and day change of the analysis endpoint (server.js 197-213, 261-268): `Math.random` output. `AnalysisMetrics` carries no day-change fields.
- The 500 reply of the analysis endpoint (server.js 278-281): no modelled input throws. A JavaScript exception arises only from malformed entries, such as a null holding, which the typed model cannot express.
- The server's other endpoints, option-chain scraping, the payoff engine and their network I/O: not part of this model.
- The RTK Query calls, polling interval and cleanup of useRealTimePrices.ts (21-24, 64-70): timers and network. `RefreshPrices` only states whether a refetch is issued, not its outcome.
- `console` logging everywhere: has no effect on state.
- String formatting (`toFixed`, `toLocaleString`, `Intl.NumberFormat`, reason texts): only the numbers behind them and the sign shown are modelled.
- `OpenInterestDashboard.Round2`: real arithmetic, not IEEE doubles. A ratio whose binary representation rounds differently from its exact value is not captured.
- `OpenInterestDashboard.OrZero`: a NaN read as 0 by `|| 0` is not modelled, since numbers are reals.
- The dashboard's fixed placeholder strings (put and call changes), the Gemini interpretation prose (RedesignedDashboard.tsx 181-292) and the static sentiment card of the alerts page (CustomAlerts/index.tsx 213-230): constants or text with no logic.
- The strike-wise table of the comparison dialog (SnapshotComparison.tsx 150-191): it renders fixed placeholder rows.
- d3 and recharts charts, icons, layout and styling: presentation only. The recommendation icons follow the same cases as the colours.
- PortfolioMetrics.tsx: it repeats the holdings table's percentage formatting and is not modelled separately.
- `PortfolioSlice.PortfolioStore.UpdateHoldingPrices`: keys are a Dafny map. A JavaScript object also answers for inherited keys such as `toString`, which a symbol of that name would pick up. This is not modelled.
- `AddHoldingForm.UpperCase`: only ASCII letters are upper-cased. JavaScript's `toUpperCase` also maps other scripts and can lengthen a string (for example "ß" becomes "SS").
- `CustomAlerts.TrimStart`: the whitespace set is the code points JavaScript trims; strings are sequences of code points, not UTF-16 units.
- The Header's theme slice and router: the theme mode and route are plain values passed in and out.
- The edit button of the holdings table: it has no handler in the source.
- `HoldingsTable.PnLPercentage`: numbers are reals, so a purchase price or share count entered as "-0" (which `parseFloat` keeps) is read as 0. Such a holding's percentage can then be -Infinity in the table where the model gives +Infinity.
- `HoldingsTable.PercentageMatchesAnalysis`: holds for real-valued holdings. For a purchase price stored as -0 the table divides by -0 while the server, which receives the price through JSON as 0, divides by +0, so the two infinities differ in sign.
- `OIChange.UnderlyingPrice`: the source memoises the price on the filtered data only (OIChange.tsx:87). While the filtered data stays null (a strike-range bound unset, or ungrouped data) it keeps its earlier value, null on first load, even when data is present. The model gives the current data's price.
- The visualizer's own hooks/useNotifications.ts is not part of this model. The alerts page is modelled over the portfolio app's hook of the same name; each page that calls the hook has its own lists.
