# Live exchange rates and personal-finance pages — a Dafny model

This project models the client-side logic of a React personal-finance front end. It has four parts.

- **`ExchangeRates`** models the live-rate stream manager (`ExchangeRateService`). It is one object that owns a WebSocket to the exchange-rate feed, three consumer callback slots and a reconnect interval.
  - It is a Dafny class whose methods are `connect`, `disconnect`, `requestRates` and `handleReconnect`, plus one method per socket event and one for the timer.
  - A socket is an entry of `sockets`: its URL, its `readyState`, and whether its four handlers are still attached. The entry's index is the socket's id. The reconnect interval is a flag.
  - A ghost `trace` records what the manager does to the outside world: sockets created, frames sent, `close()` calls, intervals set and cleared, and callback invocations.
  - The invariant `Consistent` holds in every state. Only the current socket has handlers attached or is still live. An interval exists only while the current socket is closed. The trace never shows two intervals pending at once.
  - `Valid` adds that no connection attempt is marked in progress. That makes the early return on `isConnecting` in `connect` unreachable between calls, because `disconnect` clears the flag that `connect` has just set.
- **`RateBoard`** models the live rate board (`LiveExchangeRates`).
  - It covers which pairs are major, the CSS class of each tile, and the comparator that puts gold first, then the other major pairs, then the rest.
  - The order `localeCompare` gives within a group is a parameter, the collation. The proofs assume only that it is a strict order that never ties on distinct names. Code-point order is proved to be one such collation.
  - It proves that the sorted board is a permutation of the rate map, in that layout. For any such collation, any result that the comparator accepts is that same board, whatever sorting algorithm the engine uses.
  - It also covers the view state that the manager's two callbacks update under the `isMounted` guard.
- **`Transactions`** models the transactions page.
  - It covers the payload `handleSubmit` builds for each transaction type and the field-wise form update.
  - It covers the page state after a create succeeds or fails, and the colouring of the list and balance.
- **`Reports`** models the reports page.
  - It covers the date-range guard and the state reset of a report fetch, and the category list.
  - It covers the preset windows. These are computed with the roll-over rules of JavaScript's `new Date(year, monthIndex, day)`.
  - It covers the right-biased merge of realized and unrealized profit/loss, and the sign of the net balance.
  - It covers the gate of the investment section. That gate tests `profitLossByAsset` alone. The merged map and the `hasInvestmentData` flag derived from it are computed on every render but never read.

Four behaviours of the code differ from an idealised protocol, and the model keeps the code's version:

- Frames are classified by brace sniffing.
  - A text frame that starts with `{` and ends with `}` goes whole to the rates callback if it parses, and is dropped if it does not.
  - Every other frame goes to the notification callback.
  - Frames are not classified by counting JSON keys.
- The interval callback and `requestRates` call `connect` with two callbacks only, so the notification slot is emptied.
- Because `connect` tears down through `disconnect`, the "repeating" interval fires at most once per scheduling.
- The interval clearing in `onopen` is dead code. An interval is set only while the current socket is closed, and every new socket is created after `disconnect` has cleared it.

## Model

| member | source | states |
|---|---|---|
| ExchangeRates.ConnectionUrl | src/services/ExchangeRateService.js:23-32 | the URL is the base URL exactly when there is no non-empty token; otherwise it is base + `?token=` + the raw token |
| ExchangeRates.ConnectionUrlInjective | src/services/ExchangeRateService.js:27-28 | the token is appended unencoded, so equal URL strings, before the browser parses them, mean equal tokens |
| ExchangeRates.RouteFrame | src/services/ExchangeRateService.js:53-75 | a frame goes to the rates callback iff it is text, brace-delimited and parses, with the parsed value; to the notification callback iff it is text and not brace-delimited, unchanged; otherwise nowhere |
| ExchangeRates.TornDown | src/services/ExchangeRateService.js:109-121 | a torn-down socket has its handlers detached and is no longer live; `close` moved only an OPEN or CONNECTING socket to CLOSING |
| ExchangeRates.ExchangeRateService.constructor | src/services/ExchangeRateService.js:2-9 | no socket, no callbacks, no interval, not connecting |
| ExchangeRates.ExchangeRateService.Disconnect | src/services/ExchangeRateService.js:106-127 | callable in every consistent state; afterwards no current socket, no interval, `isConnecting` false, every socket detached and not live; the only effects are closing a live current socket and clearing a pending interval; a no-op when already torn down |
| ExchangeRates.ExchangeRateService.Connect | src/services/ExchangeRateService.js:11-35 | records the three callbacks, tears the previous socket and interval down, and creates exactly one new CONNECTING socket on `ConnectionUrl(token)`, which becomes current |
| ExchangeRates.ExchangeRateService.OpenSocket | src/services/ExchangeRateService.js:34-35 | once every earlier socket is detached and not live, the one new CONNECTING socket, handlers attached, is appended and becomes current, keeping the invariant |
| ExchangeRates.ExchangeRateService.OnOpen | src/services/ExchangeRateService.js:37-52 | the opened socket is the current one; the consumer hears `true`, exactly the frame `getRates` is sent, and no interval remains |
| ExchangeRates.ExchangeRateService.OnMessage | src/services/ExchangeRateService.js:53-75 | a frame arrives only on an OPEN socket, which is the current one with its handlers attached; the effect is the callback `RouteFrame` picks, if its slot is filled, so at most one callback per frame |
| ExchangeRates.ExchangeRateService.HandleReconnect | src/services/ExchangeRateService.js:95-104 | afterwards one interval is set; a second one is never scheduled while one exists |
| ExchangeRates.ExchangeRateService.OnClose | src/services/ExchangeRateService.js:77-84 | the socket is closed; if its handlers are attached the consumer hears `false` and one interval is pending; a detached socket's close has no effect |
| ExchangeRates.ExchangeRateService.OnClosingHandshake | src/services/ExchangeRateService.js:117-119 | a server-initiated close moves the open current socket to CLOSING with its handlers still attached and no handler run; from there `disconnect` detaches it without calling `close` |
| ExchangeRates.ExchangeRateService.OnError | src/services/ExchangeRateService.js:86-92 | on a socket not yet closed, the consumer hears `false` if the handlers are attached; no interval is scheduled and no socket changes |
| ExchangeRates.ExchangeRateService.OnReconnectTimer | src/services/ExchangeRateService.js:100-103 | the tick clears its own interval and opens one new socket; the rates and connection callbacks are kept and the notification callback is lost |
| ExchangeRates.ExchangeRateService.RequestRates | src/services/ExchangeRateService.js:129-136 | on an OPEN socket exactly `getRates` is sent and nothing else changes; otherwise it reconnects as `Connect` does with the notification slot emptied |
| ExchangeRates.AtMostOneLiveSocket | src/services/ExchangeRateService.js:13-35 | between public calls at most one socket is live, and it is the current one |
| RateBoard.IsMajorPair | src/components/LiveExchangeRates.js:44-47 | true exactly for USD/TRY, EUR/TRY, GBP/TRY, USD/EUR, EUR/USD and GRAM ALTIN |
| RateBoard.ItemClassName | src/components/LiveExchangeRates.js:56-61 | `goldRateItem` iff GRAM ALTIN, `majorRateItem` iff another major pair, `rateItem` iff not major |
| RateBoard.Rank | src/components/LiveExchangeRates.js:96-100 | the tile group: 0 iff gold, at most 1 iff major |
| RateBoard.StrLessIsStrictTotal | src/components/LiveExchangeRates.js:101 | code-point order is irreflexive, transitive and total on distinct strings, so it is one collation the board lemmas accept |
| RateBoard.CompareMatchesRank | src/components/LiveExchangeRates.js:95-102 | for any collation that is a strict order never tying on distinct names, the comparator never ties on distinct pairs, is antisymmetric, and says "before" exactly when the pair's group is lower or, in the same group, the collation puts it first |
| RateBoard.SortBoardCorrect | src/components/LiveExchangeRates.js:94-102 | the sorted board is a permutation of the entries and strictly ordered by group then collation |
| RateBoard.BoardLayout | src/components/LiveExchangeRates.js:95-102 | GRAM ALTIN can only be first, every major pair precedes every other pair, pairs of one group are in collation order, and no entry is added or dropped |
| RateBoard.SortBoardAgreesWithComparator | src/components/LiveExchangeRates.js:95-102 | every pair of tiles in the result compares as "first before second" |
| RateBoard.SortBoardUnique | src/components/LiveExchangeRates.js:94-102 | for any collation that is a strict order never tying on distinct names, any permutation that the comparator accepts pairwise equals the modelled board, so the layout does not depend on the sort algorithm |
| RateBoard.TilesShowEntries | src/components/LiveExchangeRates.js:94-110 | the board shows exactly one tile per entry of the rate map, each with that entry's rate, and no other tile |
| RateBoard.TilesClassOrder | src/components/LiveExchangeRates.js:94-110 | only the first tile can be `goldRateItem`, and every `goldRateItem` or `majorRateItem` tile precedes every `rateItem` tile |
| RateBoard.LiveRatesView.constructor | src/components/LiveExchangeRates.js:6-8 | empty map, disconnected, no update time, and no effect has run yet |
| RateBoard.LiveRatesView.Mount | src/components/LiveExchangeRates.js:10-30 | the effect's own `isMounted` flag is set, so a remount after an unmount receives updates again; the view registers its two handlers and no notification handler; the previous socket and interval are torn down and one new socket becomes current, with the trace `Connect` gives |
| RateBoard.LiveRatesView.HandleRatesUpdate | src/components/LiveExchangeRates.js:14-20 | while mounted the map is replaced whole (no merge) and the time recorded; after unmount nothing changes |
| RateBoard.LiveRatesView.HandleConnectionChange | src/components/LiveExchangeRates.js:22-27 | while mounted the flag takes the reported value; after unmount it is unchanged |
| RateBoard.LiveRatesView.Unmount | src/components/LiveExchangeRates.js:32-36 | the view is unmounted and the stream is torn down as `Disconnect` states: no current socket, no interval, every socket detached and not live, the sockets and trace as `SocketsAfterTeardown` and `TeardownEffects` give; the three callback slots are left as they were |
| RateBoard.LiveRatesView.ManualRefresh | src/components/LiveExchangeRates.js:39-42 | on an open stream exactly `getRates` is sent and nothing else changes; otherwise the stream is torn down and reconnects without a notification handler, as `RequestRates` states |
| RateBoard.DisplayConditions | src/components/LiveExchangeRates.js:83-118 | the loading text shows iff there are no tiles; the stale-data warning shows iff there are tiles and no connection |
| Transactions.IsInvestmentType | src/pages/Transactions.js:128 | the investment types are exactly CURRENCY_BUY, CURRENCY_SELL, GOLD_BUY and GOLD_SELL |
| Transactions.HandleChange | src/pages/Transactions.js:114-119 | the named field takes the new value and every other field is unchanged |
| Transactions.BlankForm | src/pages/Transactions.js:85-95 | the reset form has type EXPENSE, today's date and every other field empty |
| Transactions.TransactionData | src/pages/Transactions.js:61-78 | the payload keys are those of `PayloadKeys(type)`, each carrying its form value, numeric fields as `parseFloat` of the form string |
| Transactions.BuildTransactionData | src/pages/Transactions.js:61-78 | the step-by-step construction yields exactly `TransactionData(form)` |
| Transactions.PayloadKeysByType | src/pages/Transactions.js:61-77 | a non-investment type carries exactly the five common fields; investment types also carry pair, quantity and purchase rate; `sellingRate` iff CURRENCY_SELL or GOLD_SELL, never for a `_BUY` type |
| Transactions.BuyIsNotSell | src/pages/Transactions.js:75-77 | no type ends with both `_BUY` and `_SELL` |
| Transactions.SellingRateInputMatchesPayload | src/pages/Transactions.js:235-272 | the form shows a selling-rate input exactly when the payload will carry `sellingRate` |
| Transactions.IncomeColourIsInflow | src/pages/Transactions.js:305-307 | a row is green iff its type is INCOME or an investment type ending in `_SELL` |
| Transactions.BalanceColour | src/pages/Transactions.js:289 | the balance is green iff it is at least zero, red iff negative |
| Transactions.ErrorText | src/pages/Transactions.js:108 | the shown error is never empty: the server message, else the response data, else the default text |
| Transactions.TransactionsPage.constructor | src/pages/Transactions.js:6-20 | empty list, zero balance, blank form, not loading, no error |
| Transactions.TransactionsPage.Change | src/pages/Transactions.js:114-119 | the form becomes `HandleChange` of the old form |
| Transactions.TransactionsPage.Submit | src/pages/Transactions.js:54-112 | one create request whose payload is exactly `TransactionData` of the submitted form; on failure the form is kept and the error set; on success the form is reset, then the reloaded list and balance are taken or the reload error is shown; loading ends false |
| Reports.JsDateDayZero | src/pages/Reports.js:86 | `new Date(y, m, 0)` is the last day of the month before month index m, across year boundaries |
| Reports.ThisMonthWindow | src/pages/Reports.js:84-87 | `this_month` runs from the first to the last day of the current month |
| Reports.LastMonthWindow | src/pages/Reports.js:88-91 | `last_month` is the whole previous month, December of the previous year in January |
| Reports.ThisYearWindow | src/pages/Reports.js:92-95 | `this_year` runs from January 1 to December 31 |
| Reports.OtherPeriodsHaveNoWindow | src/pages/Reports.js:96-97 | only the three presets have a window |
| Reports.CombinedProfitLoss | src/pages/Reports.js:106-113 | empty without data; otherwise the union of both maps' assets, the unrealized figure winning on shared assets |
| Reports.NoInvestmentDataWhenAbsent | src/pages/Reports.js:106-116 | without data or with both maps absent the (unused) `hasInvestmentData` value is false |
| Reports.InvestmentSectionIgnoresMerge | src/pages/Reports.js:255 | the investment section shows iff a summary is present and `profitLossByAsset` is non-empty; the realized and unrealized maps never change that |
| Reports.InvestmentSectionDisagreesWithMerge | src/pages/Reports.js:115-116 | the section and `hasInvestmentData` disagree in both directions, so the merge does not decide what is shown |
| Reports.InvestmentItemClass | src/pages/Reports.js:259-266 | a profit/loss figure is `investment-positive` only above zero; zero is shown as negative |
| Reports.CategoryRows | src/pages/Reports.js:53-56 | one `{category, amount}` row per entry, in entry order |
| Reports.NetBalanceClass | src/pages/Reports.js:204 | positive iff income minus expense is at least zero |
| Reports.NetBalanceSign | src/pages/Reports.js:204-205 | a missing total counts as zero, case by case |
| Reports.ReportsPage.constructor | src/pages/Reports.js:6-16 | empty dates, no data, not loading, no error, filters ALL/custom |
| Reports.ReportsPage.FetchReports | src/pages/Reports.js:27-75 | without both dates only the error changes and no request is made; otherwise results are cleared before any request; the category request is made only for a type other than ALL and its failures are swallowed; a summary or profit/loss failure sets the error; loading ends false; the investment section then shows iff both requests succeeded with a non-empty `profitLossByAsset` |
| Reports.ReportsPage.HandlePeriodChange | src/pages/Reports.js:77-104 | the period is always recorded; a preset sets both dates to its window; any other period leaves them unchanged |
| Reports.ReportsPage.SetTypeFilter | src/pages/Reports.js:129 | only the type filter changes |

## Left out

- The WebSocket transport and timing are abstract. Framing, the handshake, close codes and the 5000 ms period are not modelled. Each transport event is a method call.
- ExchangeRates.ConnectionUrlInjective: it is about the URL string `connect` builds. `new WebSocket` opens the URL parser's serialisation of that string, where distinct tokens can coincide (`"a b"` and `"a%20b"`). That is not modelled.
- ExchangeRates.ExchangeRateService.Connect: the `SyntaxError` that `new WebSocket` throws for an invalid URL is not modelled, for example a token holding `#`. Such a call would leave `this.socket` null instead of creating one socket.
- A transport event's precondition states what the browser guarantees. Only a CONNECTING socket opens, only an OPEN socket delivers frames, an error precedes a close, and a socket closes once.
- `JSON.parse` is a partial function given to the manager's constructor. Only success or failure matters.
- Binary frames are dropped. On a Blob, `startsWith` throws and the handler's catch swallows it.
- Consumer callbacks are recorded in the trace, not executed. A callback that re-enters the manager is not modelled, and the view's handlers are driven separately.
- `localStorage` is not modelled. The token is a parameter of `Connect`, `RequestRates` and `OnReconnectTimer`.
- Console logging is not modelled.
- The browser's collation is not modelled; it is the parameter `less`. Its order differs from code-point order for non-ASCII letters and for case: ICU puts `"ÇEYREK ALTIN"` before `"YARIM ALTIN"` and `"a"` before `"B"`. The board lemmas assume only that the collation is a strict order that never returns 0 on distinct pair names. A locale collation can tie canonically equivalent spellings such as `"\u00e9/TRY"` and `"e\u0301/TRY"`. The engine's stable sort would then keep entry order, and that case is not modelled.
- RateBoard.SortBoardUnique: holds only under that assumption. With a comparator that ties on distinct names, the layout can depend on entry order.
- `parseFloat`, `toFixed`, `Intl.NumberFormat` and `toLocaleDateString` are not modelled.
  - A numeric payload field keeps the form string it was parsed from.
  - Amounts and balances are reals, so NaN and floating-point rounding are not represented.
  - The monthly averages (`/ 12`) are not modelled.
- Clocks are parameters. The view's update time is a number, and "today" is a calendar date.
- The `toISOString` step of `handlePeriodChange` is not modelled. Windows are calendar dates, and time zones are out of scope, including the shift of local midnight to the previous UTC day east of Greenwich.
- `new Date`'s mapping of the years 0–99 to 1900–1999 is not modelled. Today's date is in range, and so is its year.
- REST requests are parameters: the outcome of each request is passed to `Submit` and `FetchReports`.
  - axios, its interceptors, and the `fetch` headers are not modelled.
  - The load-on-mount of the transactions page is not modelled.
  - Navigation to the login page is not modelled.
- Transactions.ErrorText: `err.response.data` is modelled as a string. The response data being an object is not represented.
- Transactions.TransactionsPage.Submit: both reloads are one outcome, as in `Promise.all`. A reload that only partly fails is not distinguished.
- The other pages and components are not part of this model: login, registration, dashboard, transaction view, chat bot, layout, routing and the auth context.
