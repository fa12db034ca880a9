# Market dashboard: data-source selection, broker cache and session rules

A Dafny model of the logic inside an Angular trading dashboard. The model covers:

- **Data service.** For holdings, trades and the portfolio summary it serves live broker data when an `active` broker account is cached. Otherwise, or when the broker call fails, it serves the mock catalogue. Live broker records are renamed into the dashboard's shapes. Journal statistics are derived with divide-by-zero guards. Provenance lives in one shared `usingRealData` flag.
- **Mock catalogue.** Fixed trades, holdings, scanner rows and an analytics series, plus the portfolio summary and journal statistics computed from them.
- **Broker service.** The cached account list together with its `loading`, `error` and `liveQuote` state. This state is updated when connect, load, disconnect, sync and quote calls complete.
- **Views.**
  - The scanner's filter and volume unit.
  - The broker form's validators, submission and status badges.
  - The login form's validators, messages and login/register dispatch.
  - The table's width and cell lookups.
- **Auth service.** Token storage, the token shape check, expiry, and log-in/log-out state.
- **HTTP interceptor.** Its bearer-header rule.

How things are represented:

- **Remote calls.** A call and its completion form one step. The response arrives as a parameter of type `Http.Outcome<T>`, which is `Success(data)` or `Failure(detail)`. `detail` is the server's `error.detail` field when it has one.
- **Service state.** Signals become class fields. Each method's `ensures` states the whole new state. The auth service also keeps an invariant, `Auth.AuthService.Valid`: a logged-in session has a stored token.
- **Pure rules.** Map/filter/reduce code and lookups become functions. Proved properties are stated about them.
- **Numbers.** Money and quantities are exact `real`s. Ids, ports, token expiry (seconds) and the clock `now` (milliseconds) are `int`s.
- **Abstracted parts.**
  - Decoding a token's payload (base-64 plus JSON) is the uninterpreted function `Auth.PayloadDecoder`.
  - The clock, the confirm dialog's answer and the quote timestamp are parameters.

Some of the code's behaviour may surprise a reader. The model keeps it as written:

- **One provenance flag.** The code keeps a single `usingRealData` flag that each accessor overwrites, not one flag per category. After a failed holdings call and a successful trades call, the flag describes only the last call to complete.
- **Connection parameters.** These are validated only by the broker form (`BrokerPage.FormValid`), not by the broker service.
- **Quote failures.** On a failed quote, the broker service itself records a placeholder quote, and it still passes the failure on.
- **Scanner filters.** The filters are not a partition. `'active'` tests the category label, so a most-active row can also be a gainer; on the mock data that row is AMZN.
- **Portfolio percentage.** The mock summary divides by `totalValue - totalPL`. On the fixed holdings this is the cost basis, 37311.1, which is non-zero (`MockData.GetPortfolioSummary`). For consistent holdings it always equals the cost basis (`MockData.CostBasisIdentity`). The summary is never computed over any other holdings.

One part of the code cannot run as written. The data service calls three broker-service methods that the broker service does not declare. Here the model follows the evident intent and takes their outcome as an input (see "## Left out").

## Model

| member | source | states |
|---|---|---|
| Http.DetailOr | src/app/services/broker.service.ts:46 | the recorded message is the server detail when it is non-empty, else the fallback; never empty when the fallback is not |
| Strings.Contains | src/app/interceptor/interceptor.ts:11 | `includes` is true iff the pattern occurs at some index of the string |
| Strings.Split | src/app/services/auth.ts:149 | `split('.')` yields one more piece than there are separators, and no piece contains the separator |
| Strings.JoinSplit | src/app/services/auth.ts:149 | joining the split pieces with the separator gives back the token |
| Strings.IntToString | src/app/services/data.service.ts:62 | an id renders as a non-empty decimal text |
| Strings.ParseIntToString | src/app/services/data.service.ts:62 | rendering an integer is lossless: the text reads back as the same integer |
| Strings.ToLower | src/app/components/dashboard/shared/components/table/table.ts:19 | same length, each ASCII capital replaced by its lower-case letter |
| Strings.ToLowerIdempotent | src/app/components/dashboard/shared/components/table/table.ts:19 | lower-casing twice equals lower-casing once |
| Strings.Capitalize | src/app/components/login/login.ts:78 | the first character is upper-cased and the rest kept |
| Strings.Utf16Length | src/app/components/login/login.ts:26-27 | JavaScript `.length`: between one and two code units per character, zero only for the empty string, and the character count when every character is in the Basic Multilingual Plane |
| Seqs.Filter | src/app/components/dashboard/scanner/scanner.ts:31-33 | a filter result is no longer than its input and every element passes the test |
| Seqs.FilterMembers | src/app/components/dashboard/scanner/scanner.ts:31-33 | an element survives a filter iff it is in the input and passes the test |
| Seqs.FilterIsSubsequence | src/app/services/broker.service.ts:83 | a filter result is an order-preserving subsequence of its input |
| Seqs.FilterCounts | src/app/services/broker.service.ts:83 | a filter keeps every copy of a passing element and drops every copy of a failing one |
| Seqs.FilterComplement | src/app/services/data.service.ts:130-138 | the elements kept by a test and by its negation together number the whole list |
| Seqs.Any | src/app/services/broker.service.ts:167 | `some` is true iff some element passes the test |
| BrokerModel.BrokerTypeName | src/app/models/broker.model.ts:3-8 | the only broker type is sent as 'ibkr', and that value identifies it |
| BrokerModel.StatusName | src/app/models/broker.model.ts:26 | an account status is one of 'pending', 'active', 'error', 'disconnected' |
| MockData.GetTrades | src/app/components/dashboard/services/mock-data.service.ts:45-103 | five closed trades; each has positive profit exactly when the price moved in the trade's direction (up for a buy, down for a sell) |
| MockData.GetHoldings | src/app/components/dashboard/services/mock-data.service.ts:105-153 | five long positions, each priced above its average cost and with positive profit |
| MockData.GetScanners | src/app/components/dashboard/services/mock-data.service.ts:155-206 | six rows; change and changePercent share a sign; top gainers rose and top losers fell; every volume is at least one million |
| MockData.GetAnalytics | src/app/components/dashboard/services/mock-data.service.ts:208-226 | a fifteen-day series, each day with at least two trades and a positive cumulative profit |
| MockData.TotalValue | src/app/components/dashboard/services/mock-data.service.ts:230 | the sum of non-negative holding values is non-negative |
| MockData.TotalPL | src/app/components/dashboard/services/mock-data.service.ts:231 | the total profit is non-negative when no holding loses and non-positive when none gains |
| MockData.CostBasisIdentity | src/app/components/dashboard/services/mock-data.service.ts:229-237 | for consistent holdings, total value minus total profit is the cost basis |
| MockData.MockHoldingsFacts | src/app/components/dashboard/services/mock-data.service.ts:105-152 | 5 holdings with distinct symbols, each with value = quantity*currentPrice and pl = value - quantity*avgPrice; AAPL value 9115 |
| MockData.GetPortfolioSummary | src/app/components/dashboard/services/mock-data.service.ts:228-240 | totalValue 39355.5 and totalPL 2044.4 are the holding sums; plPercent is totalPL relative to the cost basis times 100; holdings 5; winRate 60 |
| MockData.Sums | src/app/components/dashboard/services/mock-data.service.ts:230-231 | the value, profit and cost sums of the mock holdings are 39355.5, 2044.4 and 37311.1 |
| MockData.TotalProfit | src/app/components/dashboard/services/mock-data.service.ts:247 | the summed trade profit is non-negative when no trade loses and non-positive when none gains |
| MockData.CountWinners | src/app/components/dashboard/services/mock-data.service.ts:245 | there are never more winners than trades |
| MockData.MockWinners | src/app/components/dashboard/services/mock-data.service.ts:245 | the mock winners are the first, fourth and fifth trades, in order |
| MockData.MockProfit | src/app/components/dashboard/services/mock-data.service.ts:247 | the mock trades' profits sum to 3520 |
| MockData.MockTradeFacts | src/app/components/dashboard/services/mock-data.service.ts:245-247 | the mock trades have 3 winners and a total profit of 3520 |
| MockData.GetJournalStats | src/app/components/dashboard/services/mock-data.service.ts:243-257 | the mock journal is 5 trades, 3 winners, 2 losers, win rate 60, total profit 3520, average 704 |
| BrokerGateway.AnyActive | src/app/services/broker.service.ts:166-168 | true iff some account in the list has status active |
| BrokerGateway.WithoutId | src/app/services/broker.service.ts:82-84 | exactly the accounts with a different id remain, each as many times as before and in their original order; no copy of an account with the id remains; nothing changes when no account has the id |
| BrokerGateway.PlaceholderQuote | src/app/services/broker.service.ts:135-141 | the placeholder carries the requested symbol and the current time |
| BrokerGateway.ConnectActiveConnects | src/app/services/broker.service.ts:42 | appending an active account makes the cache report a connected broker |
| BrokerGateway.DisconnectKeepsUnconnected | src/app/services/broker.service.ts:83 | removing accounts never turns an unconnected cache into a connected one |
| BrokerGateway.BrokerService.constructor | src/app/services/broker.service.ts:23-30 | the service starts with an empty cache and loads it: the list on success, the load error on failure; loading false |
| BrokerGateway.BrokerService.HasConnectedBroker | src/app/services/broker.service.ts:166-168 | true iff some cached account has status active |
| BrokerGateway.BrokerService.ConnectBroker | src/app/services/broker.service.ts:35-52 | success appends the new account after the old ones and leaves error cleared; failure keeps the list and records the detail or 'Failed to connect to broker'; loading ends false; the outcome is passed on |
| BrokerGateway.BrokerService.LoadBrokerAccounts | src/app/services/broker.service.ts:57-71 | success replaces the list and leaves error as it was; failure keeps the list and records 'Failed to load broker accounts'; loading ends false |
| BrokerGateway.BrokerService.DisconnectBroker | src/app/services/broker.service.ts:76-93 | success drops exactly the accounts with that id, in order; failure keeps the list and records 'Failed to disconnect broker'; loading ends false |
| BrokerGateway.BrokerService.SyncBrokerData | src/app/services/broker.service.ts:107-120 | only a failure changes state, recording 'Failed to sync broker data' |
| BrokerGateway.BrokerService.GetLiveQuote | src/app/services/broker.service.ts:126-146 | success records the quote; failure records a placeholder for the requested symbol and still returns the failure |
| Reconciliation.NormaliseHoldings | src/app/services/data.service.ts:27-35 | one holding per position, in order, with avg_price, current_price, market_value, unrealized_pnl and unrealized_pnl_percent renamed |
| Reconciliation.NormaliseTrades | src/app/services/data.service.ts:55-71 | one trade per execution, in order: entry and exit price are the execution price, profit and profitPercent are 0, id is the rendered id or '' |
| Reconciliation.TradeIdFaithful | src/app/services/data.service.ts:62 | the rendered id is '' iff the broker sent none, and different ids render differently |
| Reconciliation.ToSummary | src/app/services/data.service.ts:98-104 | a live summary renames total_value, total_pnl, total_pnl_percent and positions_count, with winRate 0 |
| Reconciliation.SelectHoldings | src/app/services/data.service.ts:23-46 | live iff connected and the call succeeded; live data is the normalised positions, otherwise exactly the mock holdings |
| Reconciliation.SelectTrades | src/app/services/data.service.ts:51-83 | live iff connected and the call succeeded; live data is the normalised trades, otherwise exactly the mock trades |
| Reconciliation.SelectSummary | src/app/services/data.service.ts:88-114 | live iff connected and the call succeeded; live data is the renamed summary, otherwise exactly the mock summary |
| Reconciliation.JournalStatsOf | src/app/services/data.service.ts:128-144 | winners + losers = totalTrades, losers counts zero-profit trades; empty trades give all zeros; otherwise winRate = winners/totalTrades*100 in [0,100] and avgTrade = totalProfit/totalTrades |
| Reconciliation.RatioFacts | src/app/services/data.service.ts:139 | a win count over a non-empty journal gives a percentage within [0,100] |
| Reconciliation.MockStatsAgree | src/app/services/data.service.ts:128-144 | on the mock trades the guarded statistics equal the mock catalogue's unguarded ones |
| Reconciliation.DataService.constructor | src/app/services/data.service.ts:13-18 | the service starts with usingRealData false |
| Reconciliation.DataService.GetHoldings | src/app/services/data.service.ts:23-46 | returns the selected holdings and leaves usingRealData exactly when they are live |
| Reconciliation.DataService.GetTrades | src/app/services/data.service.ts:51-83 | returns the selected trades and leaves usingRealData exactly when they are live |
| Reconciliation.DataService.GetPortfolioSummary | src/app/services/data.service.ts:88-114 | returns the selected summary and leaves usingRealData exactly when it is live |
| Reconciliation.DataService.GetJournalStats | src/app/services/data.service.ts:120-145 | statistics of whatever trades are served, with the flag set as `GetTrades` sets it |
| Reconciliation.DataService.GetScanners | src/app/services/data.service.ts:150-152 | always the mock scanner rows, whatever the broker state |
| Reconciliation.DataService.GetAnalytics | src/app/services/data.service.ts:157-159 | always the mock analytics, whatever the broker state |
| Reconciliation.DataService.IsUsingRealData | src/app/services/data.service.ts:164-166 | reports the shared provenance flag, which each data accessor's ensures fixes to whether it served live data |
| Reconciliation.DataService.IsBrokerConnected | src/app/services/data.service.ts:171-173 | true iff the broker cache holds an active account |
| ScannerPage.Keep | src/app/components/dashboard/scanner/scanner.ts:31-33 | the rows passing a test, in order, each kept as many times as it occurs and no failing row kept |
| ScannerPage.FilterRows | src/app/components/dashboard/scanner/scanner.ts:27-36 | 'all' returns the rows unchanged; every result is an order-preserving subsequence; gainers, losers and active select exactly the rows with changePercent > 0, < 0, and category 'Most Active', keeping each such row as many times as it occurs |
| ScannerPage.GainersLosersDisjoint | src/app/components/dashboard/scanner/scanner.ts:31-32 | no row is both a gainer and a loser; a row with zero change is neither |
| ScannerPage.MockGainers | src/app/components/dashboard/scanner/scanner.ts:31 | on the mock rows the gainers are exactly MSTR, COIN, AMZN, META in order |
| ScannerPage.MockLosers | src/app/components/dashboard/scanner/scanner.ts:32 | on the mock rows the losers are exactly CRM and NFLX |
| ScannerPage.MockMostActive | src/app/components/dashboard/scanner/scanner.ts:33 | on the mock rows only AMZN is most active, and it is also a gainer |
| ScannerPage.FormatVolume | src/app/components/dashboard/scanner/scanner.ts:38-42 | suffix M iff volume >= 1000000, K iff 1000 <= volume < 1000000, none otherwise; the shown value is the volume scaled to that unit |
| ScannerPage.ScannerComponent.constructor | src/app/components/dashboard/scanner/scanner.ts:13-14 | no rows and filter 'all' at creation |
| ScannerPage.ScannerComponent.NgOnInit | src/app/components/dashboard/scanner/scanner.ts:19-21 | the rows become the mock scanner rows |
| ScannerPage.ScannerComponent.SetFilter | src/app/components/dashboard/scanner/scanner.ts:23-25 | only the active filter changes |
| ScannerPage.ScannerComponent.FilteredScanners | src/app/components/dashboard/scanner/scanner.ts:27-36 | the shown rows are an order-preserving subsequence of all rows, all of them under 'all' |
| BrokerPage.FormValid | src/app/components/dashboard/broker/broker.ts:30-36 | the five validators pass iff a broker is chosen, account code and host are non-empty, a port within [1000,65535] and a client id >= 1 are present; a missing number fails `required` even though `min` and `max` accept it |
| BrokerPage.ToCreate | src/app/components/dashboard/broker/broker.ts:50 | a valid form yields connection parameters with non-empty account and host, port in [1000,65535] and client id >= 1 |
| BrokerPage.DefaultFormNeedsAccountCode | src/app/components/dashboard/broker/broker.ts:30-36 | the default form is invalid because the account code is empty; with any non-empty code it is valid |
| BrokerPage.PortOutOfRangeInvalid | src/app/components/dashboard/broker/broker.ts:34 | a port outside [1000,65535] makes the form invalid |
| BrokerPage.GetStatusClass | src/app/components/dashboard/broker/broker.ts:96-104 | the four known statuses map to 'status-' + status, anything else to 'status-unknown' |
| BrokerPage.GetStatusIcon | src/app/components/dashboard/broker/broker.ts:106-114 | the icon is '?' iff the status is not one of the four known ones |
| BrokerPage.KnownStatusesDisplayed | src/app/components/dashboard/broker/broker.ts:96-114 | every account status gets its own class and a real icon |
| BrokerPage.BrokerComponent.constructor | src/app/components/dashboard/broker/broker.ts:26-37 | the form starts at the defaults and is hidden |
| BrokerPage.BrokerComponent.NgOnInit | src/app/components/dashboard/broker/broker.ts:39-42 | the account list is reloaded as `LoadBrokerAccounts` specifies |
| BrokerPage.BrokerComponent.ToggleForm | src/app/components/dashboard/broker/broker.ts:44-46 | showForm is negated, so two toggles restore it |
| BrokerPage.BrokerComponent.OnSubmit | src/app/components/dashboard/broker/broker.ts:48-69 | an invalid form makes no call and changes nothing; a valid one connects; only success resets the form to IBKR/''/'127.0.0.1'/7497/1 and hides it |
| BrokerPage.BrokerComponent.Disconnect | src/app/components/dashboard/broker/broker.ts:71-82 | nothing happens unless confirmed; then loading ends false, success drops the accounts with that id and keeps the error, failure keeps the list and records 'Failed to disconnect broker' |
| BrokerPage.BrokerComponent.SyncData | src/app/components/dashboard/broker/broker.ts:84-94 | only a failed sync changes state, recording the sync error |
| BrokerPage.BrokerComponent.HasAccounts | src/app/components/dashboard/broker/broker.ts:21 | true iff the account list is non-empty, and always true when a broker is connected |
| Auth.DecodeToken | src/app/services/auth.ts:147-157 | null unless the token has exactly two dots (three parts); otherwise the decoded middle part |
| Auth.IsTokenExpired | src/app/services/auth.ts:162-167 | expired when decoding fails, otherwise iff exp*1000 < now (equality is not expired) |
| Auth.HasValidToken | src/app/services/auth.ts:188-191 | true iff a non-empty token is stored and it is not expired |
| Auth.StoreToken | src/app/services/auth.ts:172-183 | the token is always stored; user and role only when it decodes; other keys keep their values and no other key is added |
| Auth.WellShapedToken | src/app/services/auth.ts:149-150 | a token passing the shape check splits into three parts that join back to it |
| Auth.AuthService.constructor | src/app/services/auth.ts:40-51 | fields are read from storage; a stored expired token is logged out; afterwards isLoggedIn iff a valid token is stored |
| Auth.AuthService.GetToken | src/app/services/auth.ts:126-128 | the stored token when the key is present, none otherwise |
| Auth.AuthService.IsAuthenticated | src/app/services/auth.ts:119-121 | a logged-in session always has a stored token: every method keeps this invariant |
| Auth.AuthService.Logout | src/app/services/auth.ts:106-114 | removes the three keys, keeps the others, logs out and clears user and role |
| Auth.AuthService.SetAuthData | src/app/services/auth.ts:172-183 | stores the token; user and role in storage and fields only when it decodes, otherwise unchanged |
| Auth.AuthService.CheckTokenValidity | src/app/services/auth.ts:196-201 | logs out iff a non-empty token is stored and expired; otherwise nothing changes |
| Auth.AuthService.Authenticate | src/app/services/auth.ts:63-73 | success stores the token and logs in; failure records the detail or the fallback and leaves the session unchanged; loading ends false |
| Auth.AuthService.Login | src/app/services/auth.ts:56-76 | success logs in with the token and error cleared; failure records the detail or 'Login failed. Please try again.' and leaves the session unchanged; loading false |
| Auth.AuthService.Register | src/app/services/auth.ts:81-101 | as Login, with 'Registration failed. Please try again.' |
| AuthInterceptor.Intercept | src/app/interceptor/interceptor.ts:6-21 | no headers without a non-empty token or for login/register URLs; otherwise Authorization 'Bearer '+token and Content-Type 'application/json' are set and nothing else changes |
| AuthInterceptor.Handle | src/app/interceptor/interceptor.ts:6-21 | the next handler receives the request unchanged when no token is attached, otherwise the request with the bearer and JSON content-type headers set |
| AuthInterceptor.LoginLookalikeExcluded | src/app/interceptor/interceptor.ts:11 | the substring test also excludes a URL such as '/api/auth/login-history' |
| AuthInterceptor.ApiCallAuthorised | src/app/interceptor/interceptor.ts:11-17 | an ordinary API URL with a token gets the headers |
| LoginPage.ErrorMessageFor | src/app/components/login/login.ts:73-84 | the message is non-empty iff the control exists, is touched and has errors; then required beats minlength ('<Field> is required'), minlength names requiredLength, anything else 'Invalid input' |
| LoginPage.FieldErrors | src/app/components/login/login.ts:26-27 | a value has no errors iff it is non-empty and its UTF-16 length (JavaScript `.length`) reaches the minimum; empty gives only 'required', too short gives 'minlength' with the required length |
| LoginPage.Control | src/app/components/login/login.ts:74 | `form.get` finds exactly the two controls; each carries its touched flag and is error-free iff its value's UTF-16 length reaches the minimum |
| LoginPage.FormValid | src/app/components/login/login.ts:25-28 | the form is valid iff neither control has errors |
| LoginPage.FormValidIff | src/app/components/login/login.ts:26-27 | the form is valid iff the username has at least 3 and the password at least 6 UTF-16 code units |
| LoginPage.AstralUsernameAccepted | src/app/components/login/login.ts:26 | a username of two emoji (four UTF-16 code units) passes the length check of 3 |
| LoginPage.GetErrorMessage | src/app/components/login/login.ts:73-84 | no message for unknown fields, untouched fields or values whose UTF-16 length reaches the minimum |
| LoginPage.UsernameRequiredMessage | src/app/components/login/login.ts:77-79 | a touched empty username reads 'Username is required' |
| LoginPage.UsernameTooShortMessage | src/app/components/login/login.ts:80-82 | a touched non-empty username of fewer than 3 UTF-16 code units reads 'Username must be at least 3 characters' |
| LoginPage.PasswordTooShortMessage | src/app/components/login/login.ts:80-82 | a touched non-empty password of fewer than 6 UTF-16 code units reads 'Password must be at least 6 characters' |
| LoginPage.LoginComponent.constructor | src/app/components/login/login.ts:14-29 | empty form, no message, both toggles off |
| LoginPage.LoginComponent.OnLogin | src/app/components/login/login.ts:34-54 | an invalid form sets the message and makes no call; a valid one calls register iff in register mode, else login; success resets the form, failure copies the service error |
| LoginPage.LoginComponent.TogglePasswordVisibility | src/app/components/login/login.ts:59-61 | showPassword is negated |
| LoginPage.LoginComponent.ToggleRegisterMode | src/app/components/login/login.ts:87-91 | showRegister is negated, the form reset and the message cleared |
| TableView.GetColumnWidth | src/app/components/dashboard/shared/components/table/table.ts:14-16 | the mapped width when present and non-empty, otherwise 'auto'; never empty |
| TableView.GetCellTemplate | src/app/components/dashboard/shared/components/table/table.ts:18-21 | the lower-cased key's value if truthy, else the exact key's if truthy, else ''; the result is truthy or '' |
| TableView.LowerCaseColumnReadsOneKey | src/app/components/dashboard/shared/components/table/table.ts:19 | for a lower-case column only that key matters |
| TableView.LowerCaseKeyWins | src/app/components/dashboard/shared/components/table/table.ts:19 | a capitalised column shows the lower-case key's value |

## Left out

- HTTP transport, observables and the rxjs operators. Each call is one step whose response is a parameter. The transient `loading = true` between request and response is not a separate state. Interleavings of concurrent calls are not modelled beyond the last-writer-wins flag.
- `getConnectionStatus` (src/app/services/broker.service.ts:97-102): a plain GET with no state of its own.
- `startLiveDataStream` and every other timer: they have no state logic.
- Router navigation after login, register and logout; console logging; the `alert` after a sync.
- The `confirm` dialog is modelled only as its boolean answer.
- `new Date(trade.execution_time)`: a live trade's date is the broker's timestamp text, not a parsed date.
- The data service's connected branch calls `getPositions`, `getTrades` and `getPortfolioSummary` on the broker service (src/app/services/data.service.ts:26, :54, :97). The broker service (src/app/services/broker.service.ts) declares none of the three. As written, the connected branch therefore does not type-check. Compiled anyway, each call would throw right after `usingRealData.set(true)`, before `catchError` is attached, so the mock fallback would not run. `Reconciliation.SelectHoldings`, `SelectTrades` and `SelectSummary` model the evident intent: each accessor's outcome is an input, whose records carry the fields the data service reads. That thrown call is not modelled.
- IEEE double arithmetic. Amounts are exact reals, so NaN, infinities and rounding are absent. So is division by zero, which the model never performs.
- Token payloads that decode to an object lacking `exp`, `sub` or `role`. In the source a missing `exp` compares as NaN, so such a token never expires. Here the decoder returns all three claims or nothing.
- A server `detail` that is not a string (for example a validation-error list) is not modelled.
- The mock summary's unused `avgReturn` variable (src/app/components/dashboard/services/mock-data.service.ts:232) has no effect and is not modelled.
- The mock data's rounded percentage literals are carried as data. Nothing is proved about them.
- MockData.GetTrades: only the sign of each profit is tied to the trade's side and prices. The magnitudes are not, because the catalogue's profits are not quantity times price move (AAPL: 10 shares up 6.8 is listed as 680).
- The mock getters take no arguments and read no state, so their determinism holds by construction. No separate lemma states it.
- ScannerPage.FormatVolume: the digits that `toFixed(1)` and `toString()` produce are not modelled, only the unit and the scaled value.
- Strings.ToLower: only ASCII letters are case-mapped, unlike JavaScript's full Unicode `toLowerCase`. The same holds for Strings.Capitalize.
- BrokerPage.GetStatusClass: JavaScript object lookups that hit inherited properties such as `'constructor'` are not modelled. The same holds for BrokerPage.GetStatusIcon and TableView.GetColumnWidth.
- AuthInterceptor.Intercept: header names are compared exactly. Angular's case-insensitive header names are not modelled.
- Strings.IntToString: JavaScript's exponent notation for magnitudes of 10^21 and above, and the inexactness of ids above 2^53, are not modelled; ids are exact integers written in plain decimal.
- TableView.GetCellTemplate: cell values are text, numbers, booleans or null. Nested objects and NaN are not modelled.
