# Option pricing service: a Dafny model

This project models the decision logic of an option-pricing web service and its browser client.

The service runs in three deployments that answer the same four API requests in slightly different ways:
- a local Flask development server (`server.py`);
- a single-function Flask app (`api/main.py`);
- serverless handlers, one per endpoint (`api/*.py`).

The four requests are:
- market data for a ticker;
- the price of an option under three models;
- an options chain;
- an exchange rate.

The client (`public/js`) builds the requests, formats the answers, sorts result tables, debounces the options-chain ticker field and keeps one chart per canvas.

What is modelled:
- **The handlers.** Each is a pure function from its query parameters and an abstract market provider to a status code and a body. The model keeps:
  - the order in which they validate;
  - their exact error messages;
  - the points where an exception becomes a 500.
- **`MarketDataFetcher`.** It is a class whose lazily cached properties are fields that its methods update. Its loops over history bars and option-chain rows are methods proved equal to specification functions.
- **The binomial model.** The European induction is a loop over a column vector. The American induction fills a stock tree and an option tree as two-dimensional arrays. Both are proved equal to recursive column functions, and the pricing facts are proved about those functions.
- **The Monte Carlo model.** Its step clamp and its per-path payoff rules are modelled over given simulated paths.
- **The client.** Its formatters, request builder, submit guards, options-chain panel (an event-driven state machine), table sorting (an in-place sort on an array) and chart registry are all modelled.

Common inputs:
- yfinance is a `Provider` value: the histories, info dict, expiries and option chains it answers at the moment of a call.
- An exchange-rate quote feed is a function from a symbol and a period to a history.
- The three pricing engines' European prices are a `PricingEngine` function.
- Numbers are exact reals.
- Python's `round` is round-half-even at the given decimals. JavaScript's `toFixed` rounds half away from zero.

## Model

| member | source | states |
|---|---|---|
| Common.Abs | server.py:153 | `abs(x)` is non-negative and is x or -x |
| Text.TrimStart | server.py:63 | the result is a suffix of s; it starts with a non-space; everything dropped is whitespace |
| Text.TrimEnd | server.py:63 | the result is a prefix of s; it ends with a non-space; everything dropped is whitespace |
| Text.StripIdempotent | server.py:63 | stripping a stripped string changes nothing |
| Text.Upper | server.py:63 | `upper()` keeps the length and maps every character through the ASCII upper-case map |
| Text.Lower | server.py:82 | `lower()` keeps the length and maps every character through the ASCII lower-case map |
| Text.UpperIdempotent | server.py:63 | upper-casing twice is upper-casing once |
| Text.UpperStripCommute | server.py:63 | upper-casing and stripping commute, so `strip().upper()` equals `upper().strip()` |
| Text.ShowNat | server.py:93-98 | the decimal rendering of a natural number is never empty |
| Text.ShowInt | server.py:93-98 | the decimal rendering of an integer is never empty |
| Text.ParseShowInt | server.py:93-98 | `int()` reads the decimal rendering of every integer back as that integer |
| Text.UnsignedDecimal | api/price_option.py:74 | an unsigned decimal that `float()` reads is never negative |
| Text.ParseDecimalExtendsParseInt | server.py:113 | whatever `int()` accepts, `float()` accepts with the same value |
| Text.Repr | lib/market_data_fetcher.py:180-181 | `repr` of a string: it is enclosed in its quote character, and a string with no quote, backslash or line break is shown between single quotes unchanged |
| Text.ReprOfQuoted | lib/market_data_fetcher.py:180-181 | a string holding a single quote and no double quote is shown between double quotes, unchanged |
| Numeric.RoundHalfEven | server.py:125-134 | the chosen integer is within one half of y, and it is non-negative for a non-negative y |
| Numeric.RoundToClose | server.py:125-134 | `round(x, d)` moves x by at most half a unit in the d-th decimal |
| Numeric.RoundToNonNegative | server.py:153 | rounding never turns a non-negative value negative |
| Numeric.RoundToIdempotent | server.py:125-134 | rounding an already rounded value changes nothing |
| Numeric.Trunc | lib/market_data_fetcher.py:118 | `int(x)` truncates toward zero: for x >= 0 it is the floor, for x < 0 the ceiling |
| Http.Params | api/market_data.py:32-38 | `parse_qs` keeps exactly the non-blank fields of the URL; `request.args` is taken as it is; no query gives {} |
| Http.Param | server.py:58 | `args.get(key, default)` is the value when the key is present and the default otherwise |
| Http.Lookup | server.py:57 | `args.get(key)` is present exactly when the key is, with its value |
| Http.NormalizeTickerIdempotent | server.py:63 | normalising a ticker twice is normalising it once |
| Http.PositiveDays | server.py:93-98 | a day count is accepted exactly when `int()` reads it and it is above zero, with that value |
| Http.PositiveDaysOfShown | server.py:93-98 | every positive day count written in decimal is accepted as that count |
| Handlers.MarketInputsOf | server.py:106-110 | the inputs are read when spot and volatility are; the spot's error comes first, then the volatility's; rate and yield never raise |
| Handlers.RunModels | api/main.py:91-102 | the model run raises ZeroDivisionError exactly for a zero strike (Black-Scholes' `S / K`) or a zero spot (the binomial delta divides by `2 * dS` with `dS = S * 0.01`, lib/pricing_models.py:328-335); otherwise the engine's prices are used |
| Handlers.Classify | server.py:116-120 | a call is ITM iff S/K > 1.02 and OTM iff S/K < 0.98; a put is the reverse; ATM iff 0.98 <= S/K <= 1.02 |
| Handlers.ClassifyStepwise | api/price_option.py:83-90 | the guarded-assignment classifier leaves ATM unless S/K is outside [0.98, 1.02] |
| Handlers.ClassifiersAgree | api/price_option.py:83-90 | the stepwise classifier equals the nested-conditional one for every ratio and option type |
| Handlers.CallPutMirror | server.py:117-120 | an ITM call is an OTM put at the same ratio, and the reverse; ATM is shared |
| Handlers.Compare | server.py:151-160 | diff is never negative and within rounding of \|bs - other\|; pct is 0 for a zero Black-Scholes price and non-negative for a positive one; equal prices give diff 0 |
| Handlers.MarketDataResponse | server.py:60-76 | a missing ticker gives 400; an invalid normalised ticker gives 404; a raising fetch gives 500; 200 exactly when the summary and history are read, echoing the period |
| Handlers.MarketDataFailsOnlyOnVolatility | server.py:64-76 | for a validated ticker, a 500 on the five-day history means the one-year volatility raised |
| Handlers.MarketDataRoute | api/main.py:32-55 | no ticker or an empty one gives 400; a 200 echoes the period, "1y" when none is given |
| Handlers.FlaskStrike | server.py:113 | an absent or empty strike is the spot; otherwise `float()` of it, raising its ValueError message when it cannot be read |
| Handlers.FullChainByDefault | server.py:177 | without `only_expiries` the full chain is answered |
| Handlers.ChainAnswer | api/main.py:134-144 | only-expiries answers the expiry list; otherwise 200 iff the ticker has a five-day history, with the chain, ticker and spot rounded to cents, else 500 |
| Handlers.ValidatedChainResponse | server.py:179-198 | 400 without a ticker; 404 for an invalid one; never 500; a 200 is the chain answer for the normalised ticker |
| DevServer.Rejection | server.py:86-98 | the first failing check of: missing ticker, missing days, option type not call/put after strip and lower, days not a positive integer; none iff all pass |
| DevServer.PricedBody | server.py:111-168 | the summary carries Classify(S/K), the spot and strike rounded to 4 places, the days and the upper-cased type; the prices are the engine's; the step count is the clamp |
| DevServer.PriceOptionRoute | server.py:80-170 | 400 iff a check fails, with its message; 404 for an invalid ticker; 500 for a raising fetch, a bad strike, a zero strike or a zero spot; 200 exactly otherwise, with the priced body |
| DevServer.DefaultStrikeIsAtTheMoney | server.py:113-120 | without a strike a priced answer is ATM with strike equal to spot |
| DevServer.ZeroSpotDefaultStrikeFails | server.py:113-116 | a zero spot with the default strike is a 500 with the division message |
| DevServer.ZeroSpotIsServerError | server.py:105-170 | a zero spot is a 500 with the division message for every readable strike, since the binomial Greeks divide by a zero bump |
| DevServer.UnreadableStrikeIsServerError | server.py:105-170 | a non-empty strike `float()` rejects is a 500 carrying its ValueError message |
| DevServer.OptionsChainRoute | server.py:173-198 | only 200, 400 or 404; a 200 means a valid ticker and is the expiry list or the chain as asked |
| DevServer.ExchangeRateRoute | server.py:201-244 | equal codes give 1.0; otherwise the cross rate through the dollar with four majors; every 200 is stamped "latest" |
| DevServer.AudIsMajor | server.py:208-216 | the AUD quote's last close is used as it is, not inverted |
| FlaskApi.Rejection | api/main.py:64-71 | one combined message when ticker or days is missing, then the days check; none iff both pass |
| FlaskApi.PriceOptionRoute | api/main.py:57-122 | 400 iff a check fails; 404 for an invalid ticker; 500 for a raising fetch, a bad strike, a zero strike or a zero spot; 200 exactly otherwise, with a summary carrying the currency |
| FlaskApi.UncheckedOptionTypePricesAPut | api/main.py:60-102 | " call" is priced (200) as a put here, while server.py strips it to "call" |
| FlaskApi.OptionsChainRoute | api/main.py:124-144 | 400 without a ticker; otherwise the chain answer for the normalised ticker, without validation |
| FlaskApi.UnknownTickerChain | api/main.py:130-144 | an unknown ticker's full chain is a 500 and its expiry list a 200, where server.py answers 404 |
| FlaskApi.ExchangeRateRoute | api/main.py:146-178 | equal codes give 1.0 with no timestamp; otherwise the cross rate with two majors, and a 404 naming both codes |
| FlaskApi.AudReadReciprocally | api/main.py:156-164 | for a non-zero AUD close the two Flask copies' dollar values of AUD multiply to 1 |
| PriceOptionEndpoint.Rejection | api/price_option.py:40-56 | the combined missing-parameter message, then option type, then days; none iff all pass |
| PriceOptionEndpoint.Strike | api/price_option.py:71-80 | no strike means the spot; a given strike must read as a number above zero, else the 400 message |
| PriceOptionEndpoint.PricedBody | api/price_option.py:82-146 | the summary carries the stepwise moneyness, the rounded spot and strike, and the currency defaulting to "USD"; the engine's prices; the clamped step count |
| PriceOptionEndpoint.HandleGet | api/price_option.py:30-149 | the 400s, then 404, then 500 for a raising fetch, then the strike's 400, then 500 for a zero spot; 200 exactly when everything is read and the spot is non-zero, with the priced body |
| PriceOptionEndpoint.Handle | api/price_option.py:20-28 | OPTIONS answers 200 with no body; GET answers the request's decision; every other method has no `do_` handler and gets 501 with the "Unsupported method" page (no body for HEAD) |
| PriceOptionEndpoint.BadStrikeIsClientError | api/price_option.py:63-78 | a strike that is not a positive number is a 400 once the fetch succeeded, and a 500 when the fetch raised first |
| PriceOptionEndpoint.BlankStrikeIsAtTheMoney | api/price_option.py:71-90 | a blank strike is dropped by the query parser, so a priced answer is ATM with strike equal to spot |
| ExchangeRateEndpoint.FallbackPair | api/exchange_rate.py:61-84 | the fallback symbol is "<TARGET>=X" for a dollar source and "<SOURCE>=X" for a dollar target; none (the 400) iff neither side is USD |
| ExchangeRateEndpoint.UsdSourceResponse | api/exchange_rate.py:42-95 | the branch answers 400 exactly when the direct history is empty and neither side is USD |
| ExchangeRateEndpoint.OptionsPreflight | api/exchange_rate.py:24-25 | OPTIONS answers 200 with an empty body |
| ExchangeRateEndpoint.EqualCurrencies | api/exchange_rate.py:36-40 | equal codes after defaulting and upper-casing give exactly 1.0, whatever the feed |
| ExchangeRateEndpoint.DefaultsToDollar | api/exchange_rate.py:36-40 | no parameters means USD to USD at 1.0 |
| ExchangeRateEndpoint.UsdSourceDirectQuote | api/exchange_rate.py:57-93 | a dollar source uses the last close of "USD<TARGET>=X" without inversion |
| ExchangeRateEndpoint.UsdSourceFallbackQuote | api/exchange_rate.py:61-93 | when that history is empty, the last close of "<TARGET>=X" is used without inversion |
| ExchangeRateEndpoint.UsdSourceNotFound | api/exchange_rate.py:86-91 | both histories empty gives 404 naming "<TARGET>=X", the last pair tried |
| ExchangeRateEndpoint.NeverAnswers400 | api/exchange_rate.py:66-84 | the handler never answers 400: the "only supports conversion to/from USD" branch is unreachable |
| ExchangeRateEndpoint.NonUsdSourceCrossRate | api/exchange_rate.py:97-150 | a non-dollar source is the cross rate through the dollar with EUR and GBP as majors and its own 404 message |
| FxQuotes.UsdValue | api/exchange_rate.py:111-138 | USD is 1.0 with no lookup; a major's close is used as it is; another code's close is inverted, 0 for a zero close; no history gives None; a raising lookup propagates |
| FxQuotes.UsdNeedsNoLookup | api/exchange_rate.py:112 | the dollar's value does not depend on the feed |
| FxQuotes.IntZeroIsZero | api/exchange_rate.py:135-136 | a non-major whose last close is zero is valued at the int 0 |
| FxQuotes.CrossRate | api/exchange_rate.py:150 | rate_s / rate_t raises exactly for a zero rate_t, with "division by zero" when both operands are ints and "float division by zero" otherwise; otherwise rate * rate_t == rate_s |
| FxQuotes.CrossRateReciprocal | api/exchange_rate.py:150 | the s-to-t and t-to-s rates multiply to 1 |
| FxQuotes.CrossResponse | api/exchange_rate.py:140-150 | 200 iff both values exist and rate_t is non-zero, stamped "latest"; 404 iff a value is missing; a zero rate_t is a 500 carrying the int message exactly when both values are the int 0 |
| FxQuotes.ZeroNonMajorsDivideInts | api/exchange_rate.py:130-150 | two non-majors with zero closes give a 500 with "division by zero", Python's int message |
| MarketDataEndpoint.Handle | api/market_data.py:25-80 | OPTIONS answers 200 with an empty body; otherwise the market-data decision over the parsed parameters |
| MarketDataEndpoint.AgreesWithFlaskRoute | api/market_data.py:35-38 | given Flask-style arguments the endpoint answers exactly as the Flask routes |
| MarketDataEndpoint.BlankTickerInUrlIsMissing | api/market_data.py:32-48 | a blank ticker in the URL gives the missing-ticker 400 |
| OptionsChainEndpoint.Handle | api/options_chain.py:25-85 | OPTIONS answers 200 with an empty body; otherwise the validated chain decision |
| OptionsChainEndpoint.NeverServerError | api/options_chain.py:50-78 | the endpoint never answers 500 |
| OptionsChainEndpoint.ChainForValidTicker | api/options_chain.py:70-78 | a valid ticker's answer is the chain for the requested or first expiry, with the ticker and the spot rounded to cents |
| MarketData.SpotPriceOf | lib/market_data_fetcher.py:44-51 | the spot is read iff the ticker has a non-empty five-day history, and it is the last close |
| MarketData.VolatilityOf | lib/market_data_fetcher.py:53-63 | the volatility is read iff the one-year history has at least ten bars |
| MarketData.DividendYieldOf | lib/market_data_fetcher.py:65-73 | a missing or falsy yield is 0.0; a numeric one is itself |
| MarketData.RiskFreeRate | lib/market_data_fetcher.py:75-84 | the last ^IRX close over 100 when there is one, else 0.05 |
| MarketData.DisplayName | lib/market_data_fetcher.py:91 | longName, else shortName, else the ticker |
| MarketData.StockInfoOf | lib/market_data_fetcher.py:86-101 | read iff spot and volatility are; "N/A", "USD" and None as defaults |
| MarketData.Summarise | lib/market_data_fetcher.py:86-101 | the summary is read iff the spot and the volatility are, the spot's error first; its fields are the info's entries with their defaults and the four values read |
| MarketData.SafeFloat | lib/market_data_fetcher.py:155-167 | None, NaN and infinities give None; a number is itself, rounded when decimals are given; a string is read iff `float()` reads it |
| MarketData.CountOf | lib/market_data_fetcher.py:180-181 | a missing or NaN count is 0; a number is truncated; it raises exactly for an infinity or a string `int()` cannot read, the latter with `int()`'s message quoting the string as `repr` does |
| MarketData.ToContract | lib/market_data_fetcher.py:175-184 | a row converts iff both counts do; inTheMoney is the truthiness of the cell |
| MarketData.ContractsOf | lib/market_data_fetcher.py:169-186 | one record per row in order iff every row converts; otherwise the error of a row that raises |
| MarketData.SelectExpiry | lib/market_data_fetcher.py:136-137 | the requested expiry if it is listed, else the first; always a listed one |
| MarketData.HistoricalDataOf | lib/market_data_fetcher.py:103-121 | a raising lookup raises; an empty history gives []; otherwise one record per bar in order |
| MarketData.ChainOf | lib/market_data_fetcher.py:130-153 | no expiries gives empty tables and no selection; a selection is a listed expiry; an error empties everything |
| MarketData.MarketDataFetcher.constructor | lib/market_data_fetcher.py:28-34 | the ticker is kept and every cache starts empty |
| MarketData.MarketDataFetcher.GetInfo | lib/market_data_fetcher.py:36-42 | the info is read once and then served from the cache |
| MarketData.MarketDataFetcher.SpotPrice | lib/market_data_fetcher.py:44-51 | a cached spot is returned unchanged; otherwise it is read and cached only when it did not raise |
| MarketData.MarketDataFetcher.HistoricalVolatility | lib/market_data_fetcher.py:53-63 | a cached volatility is returned unchanged; otherwise it is read and cached only when it did not raise |
| MarketData.MarketDataFetcher.DividendYield | lib/market_data_fetcher.py:65-73 | a cached yield leaves the object unchanged; otherwise it is computed from the cached or fresh info and always cached, and the info is cached as `_get_info` leaves it |
| MarketData.MarketDataFetcher.GetStockInfo | lib/market_data_fetcher.py:86-101 | for any cache state, the summary of what each cached property answers in that state; afterwards the info is cached, the spot and volatility are cached when read without raising (the volatility only when the spot was read), and the yield only for a complete summary; on empty caches it equals StockInfoOf |
| MarketData.MarketDataFetcher.GetHistoricalData | lib/market_data_fetcher.py:103-121 | the append loop produces HistoricalDataOf |
| MarketData.MarketDataFetcher.ChainToRecords | lib/market_data_fetcher.py:169-186 | the append loop produces the table's records, or the first raising row's error |
| MarketData.MarketDataFetcher.GetOptionsChain | lib/market_data_fetcher.py:130-153 | the answer equals ChainOf |
| Payoffs.KindOf | lib/pricing_models.py:53 | a call exactly when the lower-cased type is "call"; every other string is a put |
| Payoffs.Floored | lib/pricing_models.py:28-30 | `max(x, 1e-10)`: never below the floor, and unchanged from the floor upwards |
| Payoffs.Payoff | lib/pricing_models.py:149-151 | the payoff is non-negative, at least S - K for a call (K - S for a put), and either 0 or that difference |
| Payoffs.PayoffParity | lib/pricing_models.py:149-151 | call payoff minus put payoff is S - K |
| MonteCarlo.StepCount | lib/pricing_models.py:216 | the step count is in [21, 252] and equals int(252T) when that lies in the range |
| MonteCarlo.SumNonNegative | lib/pricing_models.py:153 | a sum of non-negative payoffs is non-negative |
| MonteCarlo.DiscountedMean | lib/pricing_models.py:153 | a non-negative discount times the mean of non-negative payoffs is non-negative |
| MonteCarlo.PathMin | lib/pricing_models.py:176 | the minimum is on the path and below every point of it |
| MonteCarlo.PathMax | lib/pricing_models.py:179 | the maximum is on the path and above every point of it |
| MonteCarlo.LookbackPayoff | lib/pricing_models.py:172-184 | a call pays final minus minimum, a put maximum minus final: the floor at zero never binds |
| MonteCarlo.DefaultBarrierLevel | lib/pricing_models.py:192-195 | 0.9 S for a "down" type and 1.1 S otherwise; for S > 0 the level is below S iff the type is "down" |
| MonteCarlo.BarrierPayoff | lib/pricing_models.py:198-209 | an "out" type pays the European payoff only while the barrier is untouched, an "in" type only once it is touched |
| MonteCarlo.InOutParity | lib/pricing_models.py:206-209 | a knock-out plus a knock-in on the same barrier pay the European payoff |
| MonteCarlo.BarrierTypeFor | lib/pricing_models.py:228 | always an "out" type, and "down" exactly for the string "call" |
| MonteCarlo.BarrierSideMatchesKind | lib/pricing_models.py:228 | for a lower-case type the barrier side agrees with the priced side |
| MonteCarlo.MonteCarloModel.constructor | lib/pricing_models.py:120-129 | T and sigma are floored; dt = T / n_steps |
| MonteCarlo.MonteCarloModel.ClampSteps | lib/pricing_models.py:216-218 | n_steps becomes the clamped step count and dt is recomputed from it |
| MonteCarlo.MonteCarloModel.GetResults | lib/pricing_models.py:215-252 | clamps the steps; the barrier type and level follow the option type; each price is the discounted mean of its payoffs, non-negative for a non-negative discount |
| Binomial.Rollback | lib/pricing_models.py:290-293 | one backward step shortens the value vector by one |
| Binomial.CountAbove | lib/pricing_models.py:318 | the count of nodes where exercise wins is at most the column's length |
| Binomial.TriangleClosedForm | lib/pricing_models.py:318 | 2 (0 + 1 + ... + n) = n(n+1), the bound on early-exercise nodes |
| Binomial.RollbackMonotone | lib/pricing_models.py:290-293 | with 0 <= p <= 1 and a non-negative discount, rolling back keeps the pointwise order of two columns |
| Binomial.RollbackNonNegative | lib/pricing_models.py:290-293 | with 0 <= p <= 1 and a non-negative discount, rolling back non-negative values stays non-negative |
| Binomial.BinomialModel.constructor | lib/pricing_models.py:263-275 | T and sigma are floored; dt = T / n; d = 1/u; u, p and the discount are the given values |
| Binomial.BinomialModel.StockClosedForm | lib/pricing_models.py:298-302 | the multiplicatively built node `stock_tree[j, i]` is S u^(i-j) d^j |
| Binomial.BinomialModel.TerminalPrices | lib/pricing_models.py:277-281 | n + 1 terminal prices |
| Binomial.BinomialModel.TerminalPricesMatchTree | lib/pricing_models.py:277-302 | the closed-form terminal prices are the last column of the stock tree |
| Binomial.BinomialModel.ExerciseColumn | lib/pricing_models.py:315-317 | column i has i + 1 exercise values |
| Binomial.BinomialModel.ExpiryPayoffs | lib/pricing_models.py:286-289 | one payoff per terminal price |
| Binomial.BinomialModel.EuropeanColumn | lib/pricing_models.py:283-294 | column i of the European induction has i + 1 values, so one value remains after n steps |
| Binomial.BinomialModel.AmericanColumn | lib/pricing_models.py:303-319 | column i of the option tree has i + 1 values |
| Binomial.BinomialModel.EarlyExercises | lib/pricing_models.py:308-318 | the early-exercise count from column i on fits in the nodes of columns i..n-1, so the total is at most n(n+1)/2 |
| Binomial.BinomialModel.AmericanNodeDominates | lib/pricing_models.py:319 | every American node is at least its exercise value and, before expiry, its continuation value |
| Binomial.BinomialModel.ExpiryColumnsAgree | lib/pricing_models.py:286-307 | both inductions start from the same payoffs at expiry |
| Binomial.BinomialModel.EuropeanNonNegative | lib/pricing_models.py:283-294 | with 0 <= p <= 1 and a non-negative discount every European node is non-negative |
| Binomial.BinomialModel.AmericanDominatesEuropean | lib/pricing_models.py:296-320 | with 0 <= p <= 1 and a non-negative discount every American node is at least the European one |
| Binomial.BinomialModel.EuropeanPrice | lib/pricing_models.py:283-294 | the rollback loop returns the root of the European induction |
| Binomial.BinomialModel.BuildStockTree | lib/pricing_models.py:298-302 | the filled stock tree holds StockAt(j, i) at every node with j <= i |
| Binomial.BinomialModel.FillStockColumn | lib/pricing_models.py:300-302 | one column is filled from the one before; every other column is unchanged |
| Binomial.BinomialModel.AmericanColumnStep | lib/pricing_models.py:319 | column i is the element-wise maximum of continuation and exercise |
| Binomial.BinomialModel.WriteColumnMax | lib/pricing_models.py:319 | rows 0..i of column i become the element-wise maximum; every other cell is unchanged |
| Binomial.BinomialModel.FillColumn | lib/pricing_models.py:309-319 | one backward step writes column i of AmericanColumn, adds the column's early-exercise count, and changes no other cell of the option tree |
| Binomial.BinomialModel.ExercisesOf | lib/pricing_models.py:315-317 | the exercise vector read off the stock tree is the exercise column |
| Binomial.BinomialModel.FillExpiry | lib/pricing_models.py:304-307 | the expiry column of the option tree holds the payoffs; the other columns are unchanged |
| Binomial.BinomialModel.BackStep | lib/pricing_models.py:309-319 | one pass of the backward loop extends the filled columns from i.. to i - 1.., leaves the cells below the diagonal unchanged, and keeps the count equal to EarlyExercises |
| Binomial.BinomialModel.FillBackwards | lib/pricing_models.py:309-319 | every column i holds AmericanColumn(i) in rows 0..i, the cells below the diagonal are unchanged, and the early-exercise count is EarlyExercises from column 0 |
| Binomial.BinomialModel.AmericanPrice | lib/pricing_models.py:296-320 | the root of the option tree and the early-exercise count, at most n(n+1)/2 |
| Binomial.BinomialModel.GetResults | lib/pricing_models.py:380-395 | both prices; premium = American - European; both non-negative when 0 <= p <= 1 and the discount is non-negative; the node count is EarlyExercises from column 0, at most n(n+1)/2 |
| Formatters.FormatCurrency | public/js/utils.js:6-9 | "N/A" for a missing value, else the prefix followed by `toFixed(decimals)` |
| Formatters.FormatPercent | public/js/utils.js:11-14 | "N/A" exactly for a missing value, else `toFixed` of 100 times the value, then '%' |
| Formatters.FormatNumber | public/js/utils.js:16-19 | "N/A" exactly for a missing value, else `toFixed(decimals)` |
| Formatters.FormatVolume | public/js/utils.js:21-28 | the B, M and K tiers at 1e9, 1e6 and 1e3 with 2, 2 and 1 decimals, else the locale string |
| Formatters.VolumeSuffixNamesTier | public/js/utils.js:21-28 | the last character is B, M or K exactly in that tier |
| Formatters.FormatMarketCap | public/js/utils.js:30-37 | always '$', then the T, B and M tiers at 1e12, 1e9 and 1e6, else the locale string |
| Formatters.MarketCapSuffixNamesTier | public/js/utils.js:30-37 | the last character is T, B or M exactly in that tier |
| Formatters.Suffixed | public/js/utils.js:24-26 | the scaled amount's `toFixed`, followed by the suffix |
| Formatters.ToFixed | public/js/utils.js:8 | a '-' exactly for a negative value, then digits, then exactly d decimals |
| Formatters.ToFixedRoundTrip | public/js/utils.js:8 | the text reads back as the value rounded to d decimals |
| Formatters.ToFixedClose | public/js/utils.js:8 | the rendered value is within half a unit of the d-th decimal |
| Formatters.LocaleString | public/js/utils.js:27 | the en-US rendering uses digits, ',', '.' and '-' only |
| Formatters.LocaleStringUnsuffixed | public/js/utils.js:27 | a locale string never ends in a magnitude suffix, so the tiers are distinguishable |
| Formatters.GroupThousands | public/js/utils.js:27 | groups of three digits joined by ',' |
| Formatters.TrimZeros | public/js/utils.js:27 | a prefix of the fraction with no trailing zero |
| Formatters.FixedDigits | public/js/utils.js:8 | digits, then exactly d decimals after a '.' |
| Formatters.FixedDigitsValue | public/js/utils.js:8 | the unsigned text reads back as its number of units of 10^-d |
| Formatters.SignedFixedValue | public/js/utils.js:8 | the signed text reads back with its sign |
| Formatters.PaddedDigits | public/js/utils.js:8 | zero-padded digits still denote n |
| Formatters.PriceCellAsWritten | public/js/app.js:93 | as written, a price cell is '4' followed by two decimals |
| Formatters.PriceCellAsWrittenShowsFour | public/js/app.js:93 | a price of 1.5 is shown as "41.50" |
| Formatters.PriceCell | public/js/app.js:93 | the intended cell: '$' followed by four decimals |
| ApiClient.OrUndefined | public/js/api.js:32 | `v \|\| undefined` sends exactly what v would, and turns every falsy value into undefined |
| ApiClient.SetEntry | public/js/api.js:11 | `searchParams.set`: the name has exactly the new value; other names keep theirs; a new name is appended |
| ApiClient.SearchParams.constructor | public/js/api.js:9 | a new URL has no search parameters |
| ApiClient.SearchParams.Set | public/js/api.js:11 | the entries become SetEntry of the old ones |
| ApiClient.AddParams | public/js/api.js:10-12 | the forEach loop leaves ApplyAll of the parameters |
| ApiClient.ApplyAllValues | public/js/api.js:10-12 | after the loop a name has the last sent value given for it, or keeps its values when none was sent |
| ApiClient.LastSent | public/js/api.js:11 | a sent value is never empty |
| ApiClient.SentValue | public/js/api.js:11 | a pair puts a value on the URL exactly when it is not null, undefined or '' |
| ApiClient.LastSentOnce | public/js/api.js:10-12 | a name given once is sent with that pair's value |
| ApiClient.LastSentNever | public/js/api.js:10-12 | a name never given is not sent |
| ApiClient.ServerArgs | public/js/api.js:14 | a handler sees a name exactly when it has a value on the URL, and then its first value |
| ApiClient.QueryCarriesSentValues | public/js/api.js:10-14 | a handler sees exactly the last sent value of each name |
| ApiClient.QueryOfOnce | public/js/api.js:10-14 | a name given once reaches the handler with its sent value, or not at all |
| ApiClient.QueryOfNever | public/js/api.js:10-14 | a name never given does not reach the handler |
| ApiClient.Settle | public/js/api.js:17-21 | resolves with the body iff the status is OK; otherwise rejects with the body's error text, or the status line when there is none; the message is never empty |
| ApiClient.StatusLineNamesStatus | public/js/api.js:18 | without an error text the message names the status in decimal |
| ApiClient.GetMarketData | public/js/api.js:24-26 | /market_data with the ticker; "1y" only when the period is undefined, else the period as sent |
| ApiClient.DefaultPeriodIsOneYear | public/js/api.js:24-26 | whatever unsent period the caller passes, the handler uses one year |
| ApiClient.PriceOption | public/js/api.js:28-35 | /price_option with ticker, option type, strike and days, each as sent |
| ApiClient.BlankStrikeIsNotSent | public/js/api.js:32 | an empty or null strike does not reach the handler |
| ApiClient.GetOptionsChain | public/js/api.js:37-39 | /options_chain with ticker and expiry as sent, never only_expiries |
| ApiClient.ChainRequestAsksForChain | public/js/api.js:37-39 | a chain request never asks for the expiry list alone; without an expiry the server picks |
| ApiClient.GetExpiries | public/js/api.js:41-43 | /options_chain with only_expiries "true" and no expiry |
| ApiClient.ExpiriesRequestAsksForList | public/js/api.js:41-43 | the handler reads only_expiries as true |
| ApiClient.GetExchangeRate | public/js/api.js:45-47 | /exchange_rate with source and target as sent |
| SubmitGuards.PricingSubmit | public/js/app.js:26-41 | a request iff the normalised ticker and the days are non-empty; an empty strike becomes null |
| SubmitGuards.DashboardSubmit | public/js/app.js:159-171 | a request iff the normalised ticker is non-empty |
| SubmitGuards.PricingRequestCarriesFields | public/js/app.js:31-41 | the handler receives the normalised ticker and the days; the strike iff the field is non-empty |
| SubmitGuards.NoMissingParameter | public/js/app.js:36 | with ticker and days present, none of the three pricing handlers reports one missing |
| SubmitGuards.PricingRequestIsComplete | public/js/app.js:26-41 | a request the pricing form sends never gets a missing-parameter answer |
| SubmitGuards.DashboardRequestIsComplete | public/js/app.js:159-171 | the dashboard request carries the normalised ticker and the chosen period, and is never the missing-ticker 400 |
| ChainLookup.Listing | public/js/app.js:279-285 | one option per expiry in order, value and text the expiry, marked iff it is the selected one |
| ChainLookup.MarkedListing | public/js/app.js:283 | in a listing only the requested expiry can be marked |
| ChainLookup.SelectedOfListing | public/js/app.js:263 | the select's value after a listing is the requested expiry if listed, else the first, else empty |
| ChainLookup.OptionsFor | public/js/app.js:240-250 | the expiries, or the single "No options available" placeholder when there are none |
| ChainLookup.SelectedAfterLookup | public/js/app.js:240-250 | after a lookup the select shows the first expiry, or the placeholder's empty value |
| ChainLookup.SubmitOptions | public/js/app.js:276-286 | the answer's expiries with the server's choice marked; an answer without the field leaves the select empty |
| ChainLookup.LookupShowsServerChoice | public/js/app.js:237-250 | the lookup's select shows the server's chosen expiry, or is blank |
| ChainLookup.SubmitShowsServerChoice | public/js/app.js:269-286 | after a submit the select shows the server's chosen expiry |
| ChainLookup.ChainSubmit | public/js/app.js:262-269 | no request iff the normalised ticker is empty; otherwise the chain for the select's value |
| ChainLookup.PlaceholderSendsNoExpiry | public/js/app.js:249-269 | submitting while the placeholder shows sends no expiry, so the server picks the first |
| ChainLookup.LookupFor | public/js/app.js:235-238 | a timer that fires sends at most one lookup, none iff the trimmed field is empty, for the normalised ticker |
| ChainLookup.RunAppend | public/js/app.js:232-255 | running two event sequences one after the other is running their concatenation |
| ChainLookup.QuietSendsNothing | public/js/app.js:232-234 | while no timer is due no lookup is sent |
| ChainLookup.BurstSendsOneLookup | public/js/app.js:232-238 | a burst of keystrokes less than 600 ms apart sends exactly one lookup, for the value typed last, once 600 ms have passed |
| ChainLookup.FiresOnce | public/js/app.js:234-254 | once the timer fired, the clock alone changes nothing |
| ChainLookup.LastAnswerWins | public/js/app.js:237-253 | the select shows the last answer to arrive, whichever lookup it answers; failed lookups change nothing |
| ChainLookup.ExpirySelect.constructor | public/js/app.js:239 | the select starts with no options |
| ChainLookup.ExpirySelect.Clear | public/js/app.js:240 | clearing removes every option |
| ChainLookup.ExpirySelect.Append | public/js/app.js:246 | an appended option goes last |
| ChainLookup.ExpirySelect.Fill | public/js/app.js:279-285 | the forEach leaves the listing |
| ChainLookup.ChainPanel.constructor | public/js/app.js:230-231 | an empty field, no pending timer, no lookups and an empty select |
| ChainLookup.ChainPanel.OnInput | public/js/app.js:232-234 | a keystroke is one Step of the state machine: the timer is replaced |
| ChainLookup.ChainPanel.OnClock | public/js/app.js:234-238 | a clock tick is one Step: a due timer fires and sends the lookup |
| ChainLookup.ChainPanel.OnAnswer | public/js/app.js:237-253 | an answer is one Step: success refills the select, an error is swallowed |
| ChainLookup.ChainPanel.Submit | public/js/app.js:262-269 | the request sent is ChainSubmit of the field and the select |
| ChainLookup.ChainPanel.OnChain | public/js/app.js:276-286 | the select becomes SubmitOptions; the field, the timer and the lookups are unchanged |
| TableSort.AfterClick | public/js/app.js:454-456 | the clicked header becomes descending iff it was ascending, else ascending; every other header is unmarked |
| TableSort.ClicksAlternate | public/js/app.js:454-456 | clicks on one header alternate the direction, starting from ascending |
| TableSort.ClickHeader | public/js/app.js:454-456 | the marks become AfterClick, and the direction returned is descending iff the header was ascending |
| TableSort.RemoveSymbols | public/js/app.js:459-460 | no '$', ',' or '%' remains; text without them is unchanged |
| TableSort.LeadingDigits | public/js/app.js:461-462 | the length of the longest run of digits at the front |
| TableSort.PrefixValue | public/js/app.js:461-462 | the number at the head of an unsigned key is non-negative |
| TableSort.ParseFloat | public/js/app.js:461-462 | a key starting with anything but space, digit, sign or '.' is NaN |
| TableSort.ParseFloatOfWhole | public/js/app.js:461 | a whole number followed by a non-digit reads as that number |
| TableSort.SuffixIsIgnored | public/js/app.js:461 | "1.5K" reads as 1.5: a magnitude suffix is ignored |
| TableSort.PlainVolumeReads | public/js/app.js:461 | "900" reads as 900, so "1.5K" sorts below it |
| TableSort.Compare | public/js/app.js:458-467 | two numeric keys compare by value, reversed for descending; otherwise by collation, reversed for descending |
| TableSort.CompareAntisymmetric | public/js/app.js:458-467 | with an antisymmetric collation the comparator never orders a pair both ways |
| TableSort.RowComparatorAntisymmetric | public/js/app.js:458-467 | the same for the comparator on table rows |
| TableSort.Swap | public/js/app.js:458 | two neighbouring rows trade places in the array; the multiset of rows is unchanged |
| TableSort.InsertRow | public/js/app.js:458 | one insertion step keeps a permutation and extends the in-order prefix by one |
| TableSort.SortRows | public/js/app.js:458-467 | the sort leaves a permutation; under an antisymmetric comparator each row is placed no later than the next |
| TableSort.StepwiseMonotone | public/js/app.js:463-464 | numbers that never decrease step by step never decrease at all |
| TableSort.NumericPair | public/js/app.js:463-464 | two numeric keys the comparator puts in order are in numeric order |
| TableSort.AdjacentOrderSorts | public/js/app.js:463-464 | adjacent order under a key-respecting comparator orders the whole sequence |
| TableSort.NumericColumnSorted | public/js/app.js:463-464 | in a numeric column an ascending sort leaves the numbers non-decreasing, a descending one non-increasing |
| TableSort.TableBody.constructor | public/js/app.js:449-450 | the body holds the given rows |
| TableSort.TableBody.AppendChild | public/js/app.js:469 | `appendChild` moves the row to the end |
| TableSort.Reappend | public/js/app.js:469 | the rows end up last, in order, after the children not among them |
| TableSort.ReappendPermutation | public/js/app.js:469 | re-appending a permutation of the body's rows leaves exactly that order |
| TableSort.PermutationDistinct | public/js/app.js:450-469 | a permutation of distinct rows is distinct |
| TableSort.OnHeaderClick | public/js/app.js:445-470 | the marks flip; the body holds a permutation of its rows, in order when the collation is antisymmetric |
| Charts.Dates | public/js/charts.js:71 | one label per record, its date, in order |
| Charts.Closes | public/js/charts.js:72 | one value per record, its close, in order |
| Charts.Volumes | public/js/charts.js:127 | one value per record, its volume, in order |
| Charts.PriceChart | public/js/charts.js:68-121 | as many labels as values as records |
| Charts.VolumeColours | public/js/charts.js:128-131 | the first bar is gray; a later bar is green iff its close did not fall, red iff it fell |
| Charts.Translucent | public/js/charts.js:140 | each colour with the alpha suffix |
| Charts.VolumeChart | public/js/charts.js:123-175 | one bar, value and border colour per record |
| Charts.RisingSeriesIsGreen | public/js/charts.js:128-140 | over a non-falling stretch every bar after the first is green |
| Charts.HistoryChartFollowsBars | public/js/charts.js:71 | the price chart of a market-data answer has one label per provider bar, its date, in order |
| Charts.ComparisonValues | public/js/charts.js:192-201 | exactly eight values, in the order of the model labels |
| Charts.ComparisonShowsBinomialPair | public/js/charts.js:181-201 | "Binomial (EU)" and "Binomial (US)" show the tree's two prices, whose gap is the reported premium |
| Charts.ComparisonChart | public/js/charts.js:177-258 | the eight model labels and one dataset holding the comparison values |
| Charts.Magnitudes | public/js/charts.js:275 | the four absolute values, never negative |
| Charts.MagnitudesIgnoreSign | public/js/charts.js:275 | negated Greeks plot the same |
| Charts.GreeksChart | public/js/charts.js:260-316 | labels Delta, Gamma, Theta and Vega; the Black-Scholes magnitudes; the same again when the binomial Greeks are missing |
| Charts.ChartRegistry.constructor | public/js/charts.js:6 | no instances and nothing destroyed |
| Charts.ChartRegistry.Destroy | public/js/charts.js:61-66 | the id is removed; its chart, if any, is destroyed; otherwise nothing changes |
| Charts.ChartRegistry.Replace | public/js/charts.js:69-74 | the id maps to the new chart after its old one, if any, is destroyed |
| Charts.ChartRegistry.CreatePriceChart | public/js/charts.js:68-121 | the canvas holds the price chart; the displaced chart is destroyed |
| Charts.ChartRegistry.CreateVolumeChart | public/js/charts.js:123-175 | the canvas holds the volume chart; the displaced chart is destroyed |
| Charts.ChartRegistry.CreateModelComparisonChart | public/js/charts.js:177-258 | the canvas holds the comparison chart; the displaced chart is destroyed |
| Charts.ChartRegistry.CreateGreeksChart | public/js/charts.js:260-316 | the canvas holds the radar; the displaced chart is destroyed |
| Charts.Displaced | public/js/charts.js:61-66 | at most one chart, none iff the canvas is free |
| Charts.ReplaceAll | public/js/charts.js:6 | the registry's canvases are the initial ones plus every canvas drawn on |
| Charts.LastCreationIsLive | public/js/charts.js:69-74 | the last chart created on a canvas is the live one |
| Charts.OneDestroyPerCreation | public/js/charts.js:61-74 | destroyed charts never outnumber creations, and live plus destroyed charts account for every chart once |
| Charts.CreateAll | public/js/charts.js:61-74 | driving the registry through creations matches the value model step by step |

## Left out

- PriceOptionEndpoint.Handle: the model answers the status and body the handler decides. `CORS_HEADERS` is not defined in api/price_option.py, so `do_OPTIONS` and `_send_response` raise NameError after writing the status line, and the 500 path raises again.
- Handlers.RunModels: the Black-Scholes, Monte Carlo and binomial prices are an abstract `PricingEngine`, because the closed forms, the random paths and exp/sqrt are transcendental floating-point code. Only the two divisions that raise are modelled: by a zero strike and by the bump of a zero spot.
- Binomial.BinomialModel.constructor: u, p and the one-step discount come from exp and sqrt, so they are parameters.
- Binomial.BinomialModel.GetResults: the bump-and-reprice Greeks are not modelled. The one way they raise, a zero spot's zero bump, is modelled in Handlers.RunModels.
- MonteCarlo.MonteCarloModel.GetResults: the geometric Asian estimator, the standard errors and the path generation are not modelled, because they need log, exp and sqrt or random numbers. The paths and the discount factor are inputs.
- MarketData.VolatilityOf: the annualised standard deviation of log returns comes with the provider. Only its failure condition is modelled.
- OptionsChainEndpoint.NeverServerError: one request sees one `Provider` snapshot. In api/options_chain.py:55-78 and lib/market_data_fetcher.py:13-24, `validate_ticker` and `spot_price` are separate yfinance calls, and a later call failing after an earlier one succeeded gives a 500, which is not modelled.
- Handlers.ValidatedChainResponse: "never 500" holds for the same single snapshot, not across yfinance calls that can fail independently.
- Handlers.MarketDataFailsOnlyOnVolatility: holds for the same single snapshot, not across separate yfinance calls.
- Floating point: all arithmetic is over exact reals. Binary representation effects of `round`, `toFixed` and division are not modelled.
- Text.Upper, Text.Lower: these cover ASCII letters only. Unicode case mapping is not modelled.
- Text.ParseDecimal: this reads plain decimal notation only. Python's `float()` also reads exponents, "inf", "nan" and underscores. JavaScript's `parseFloat` (TableSort.ParseFloat) also reads exponents and "Infinity".
- Text.Repr: control characters other than tab, line feed and carriage return, and non-printable Unicode characters, which `repr` writes as `\x`, `\u` or `\U` escapes, are kept as they are.
- Http.PositiveDays: `int()` also reads digit groups joined by single underscores ("1_0") and non-ASCII decimal digits. The model reads ASCII digits only, so such a day count is a 400 here where the handlers accept it.
- Text.Strip: the whitespace is the six ASCII characters Python and JavaScript both remove. Python's `str.strip()` and `int()` also remove U+001C to U+001F and Unicode spaces, and JavaScript's `trim()` removes U+00A0, U+FEFF and Unicode spaces. A field padded with those is modelled as unstripped.
- Http.Params: a repeated query parameter is modelled by its first value only.
- Formatters.LocaleString: `toLocaleString` is modelled for the en-US locale at its default three fraction digits.
- ApiClient: a numeric argument reaches the URL as its text. `fetch`, `await` and JSON parsing are not modelled: an answer is a status and a body.
- ApiClient.GetExchangeRate: the client never calls it. No client code rescales prices by a rate.
- ChainLookup: timers are discrete events (a keystroke, the clock reaching an instant, an answer arriving). Real concurrency and the DOM are not modelled. The chain tables drawn by `renderChain`, the loading state and the error banner are not modelled.
- TableSort.SortRows: `Array.prototype.sort` is modelled as an insertion sort. The permutation holds for every sort. The adjacent-order clause is proved for this insertion sort under an antisymmetric comparator. The browser's sort is bound to it only for a consistent (transitive) comparator: for any other, ECMA-262 leaves the order implementation-defined, and a comparator mixing numeric and collated keys need not be transitive.
- TableSort.ClickHeader: a header's classes are modelled as one mark, ascending, descending or none.
- Binomial.BinomialModel.FillColumn: the temporary continuation and exercise vectors are sequences. Only the option tree's column write works in place on the array.
- Charts: Chart.js itself and all styling options (fonts, grids, tooltips, the line tension) are not modelled. A chart is its kind, labels and datasets. The tooltip formatter at public/js/charts.js:236 repeats the prefix mix-up listed under Findings.
- The rendering of results (`renderPricingResults` apart from the price cells, `renderDashboard`, `renderChain`), navigation, the markets explorer (public/js/markets.js) and the static file routes are not modelled, because they only build DOM.
- The health and index routes (api/index.py, `/api` in server.py and api/main.py) are not modelled, because they return constant documents.
- yfinance, pandas, Flask and the HTTP server classes are not modelled. They are replaced by the `Provider` and `HistoryFeed` inputs and by request values.

## Findings

| source | as written | input that shows it | evidently intended | confidence | as-written member | corrected member |
|---|---|---|---|---|---|---|
| public/js/app.js:93 | `Utils.formatCurrency(price, 4)` passes 4 as the prefix argument, so the decimals stay at the default of 2 (the same call shape appears at public/js/app.js:104, 320-322 and public/js/charts.js:236) | a price of 1.5 is shown as "41.50" | a dollar price with four decimals, "$1.5000" | high; not executed | Formatters.PriceCellAsWritten | Formatters.PriceCell |
