/**
 * Decisions the pricing and market-data handlers share (server.py,
 * api/main.py, api/price_option.py, api/market_data.py): reading the market
 * inputs of a ticker, classifying moneyness, comparing the Black-Scholes
 * price with the other models, and answering a market-data request once its
 * parameters are read.
 *
 * The three pricing models are transcendental; a `PricingEngine` gives the
 * three European prices the handlers compare for any inputs. Their two
 * raising cases are modelled: Black-Scholes divides S by a zero strike
 * (lib/pricing_models.py:36), and the binomial Greeks divide by twice a
 * bump of one percent of a zero spot (lib/pricing_models.py:328-335).
 */
module Handlers {
  import opened Common
  import opened Text
  import opened Numeric
  import opened FxQuotes
  import opened MarketData
  import opened Payoffs
  import opened Http
  import opened Yahoo

  // ---- market inputs ----

  /** Spot, risk-free rate, volatility and dividend yield, in the order the handlers read them. */
  datatype MarketInputs = MarketInputs(spot: real, rate: real, volatility: real, dividendYield: real)

  /**
   * `S = fetcher.spot_price; r = fetcher.get_risk_free_rate();
   * sigma = fetcher.historical_volatility; q = fetcher.dividend_yield`:
   * the spot price raises first, then the volatility; the rate and the yield
   * never raise.
   */
  function MarketInputsOf(p: Provider, ticker: string): (r: Result<MarketInputs>)
    ensures r.Ok? <==> SpotPriceOf(p, ticker).Ok? && VolatilityOf(p, ticker).Ok?
    ensures SpotPriceOf(p, ticker).Raised? ==> r == Raised(SpotPriceOf(p, ticker).message)
    ensures SpotPriceOf(p, ticker).Ok? && VolatilityOf(p, ticker).Raised? ==> r == Raised(VolatilityOf(p, ticker).message)
    ensures r.Ok? ==> r.value == MarketInputs(SpotPriceOf(p, ticker).value, RiskFreeRate(p),
      VolatilityOf(p, ticker).value, DividendYieldOf(InfoOf(p, ticker)))
  {
    match SpotPriceOf(p, ticker)
    case Raised(m) => Raised(m)
    case Ok(spot) =>
      var rate := RiskFreeRate(p);
      match VolatilityOf(p, ticker)
      case Raised(m) => Raised(m)
      case Ok(vol) => Ok(MarketInputs(spot, rate, vol, DividendYieldOf(InfoOf(p, ticker))))
  }

  /** `days_to_expiry / 365`. */
  function Years(days: int): real {
    days as real / 365.0
  }

  // ---- pricing models ----

  /** What every model constructor receives, and the option type string passed to `get_results`. */
  datatype PricingInputs = PricingInputs(S: real, K: real, T: real, r: real, sigma: real, q: real, optionType: string)

  /** The European prices the handlers read back: Black-Scholes, the binomial tree and the Monte Carlo estimate. */
  datatype ModelPrices = ModelPrices(blackScholes: real, binomialEuropean: real, monteCarloEuropean: real)

  type PricingEngine = PricingInputs -> ModelPrices

  /**
   * Running the three models: Black-Scholes' `S / K` raises for a zero
   * strike, and the binomial delta's division by `2 * dS` with
   * `dS = S * 0.01` raises for a zero spot; otherwise the engine's prices.
   */
  function RunModels(engine: PricingEngine, inputs: PricingInputs): (r: Result<ModelPrices>)
    ensures inputs.K == 0.0 || inputs.S == 0.0 <==> r == Raised(ZeroDivisionMessage)
    ensures inputs.K != 0.0 && inputs.S != 0.0 ==> r == Ok(engine(inputs))
  {
    if inputs.K == 0.0 || inputs.S == 0.0 then Raised(ZeroDivisionMessage) else Ok(engine(inputs))
  }

  // ---- moneyness ----

  datatype Moneyness = ITM | ATM | OTM

  /**
   * server.py's classifier of S/K, nested conditional expressions: a call
   * is ITM above 1.02 and OTM below 0.98, a put the other way round, and
   * anything in [0.98, 1.02] is ATM.
   */
  function Classify(ratio: real, isCall: bool): (m: Moneyness)
    ensures isCall ==> (m == ITM <==> ratio > 1.02) && (m == OTM <==> ratio < 0.98)
    ensures !isCall ==> (m == ITM <==> ratio < 0.98) && (m == OTM <==> ratio > 1.02)
    ensures m == ATM <==> 0.98 <= ratio <= 1.02
  {
    if isCall then (if ratio > 1.02 then ITM else if ratio < 0.98 then OTM else ATM)
    else (if ratio < 0.98 then ITM else if ratio > 1.02 then OTM else ATM)
  }

  /** api/price_option.py's classifier: ATM unless one of two guarded assignments fires. */
  function ClassifyStepwise(ratio: real, isCall: bool): (m: Moneyness)
    ensures m != ATM ==> ratio > 1.02 || ratio < 0.98
  {
    var status := ATM;
    if isCall then
      (if ratio > 1.02 then ITM else if ratio < 0.98 then OTM else status)
    else
      (if ratio < 0.98 then ITM else if ratio > 1.02 then OTM else status)
  }

  /** The two copies of the classifier agree on every ratio and option type. */
  lemma ClassifiersAgree(ratio: real, isCall: bool)
    ensures ClassifyStepwise(ratio, isCall) == Classify(ratio, isCall)
  {
  }

  /** A call in the money is a put out of the money at the same ratio, and the reverse. */
  lemma CallPutMirror(ratio: real)
    ensures Classify(ratio, true) == ITM <==> Classify(ratio, false) == OTM
    ensures Classify(ratio, true) == OTM <==> Classify(ratio, false) == ITM
    ensures Classify(ratio, true) == ATM <==> Classify(ratio, false) == ATM
  {
  }

  // ---- convergence ----

  /** One entry of the "convergence" block. */
  datatype Convergence = Convergence(diff: real, pct: real)

  /**
   * `diff = round(abs(bs - other), 6)` and
   * `pct = round(abs(bs - other) / bs * 100, 4) if bs != 0 else 0`:
   * the difference is never negative, the percentage is 0 for a zero
   * Black-Scholes price and never negative for a positive one, and equal
   * prices give a zero difference.
   */
  function Compare(bs: real, other: real): (c: Convergence)
    ensures c.diff >= 0.0
    ensures -0.5 <= Scale(c.diff, 6) - Scale(Abs(bs - other), 6) <= 0.5
    ensures bs == 0.0 ==> c.pct == 0.0
    ensures bs > 0.0 ==> c.pct >= 0.0
    ensures bs == other ==> c.diff == 0.0
  {
    var gap := Abs(bs - other);
    RoundToNonNegative(gap, 6);
    RoundToClose(gap, 6);
    if bs != 0.0 then
      if bs > 0.0 then
        assert gap / bs * 100.0 >= 0.0;
        RoundToNonNegative(gap / bs * 100.0, 4);
        Convergence(RoundTo(gap, 6), RoundTo(gap / bs * 100.0, 4))
      else
        Convergence(RoundTo(gap, 6), RoundTo(gap / bs * 100.0, 4))
    else Convergence(RoundTo(gap, 6), 0.0)
  }

  /** The two comparisons of a priced option, Black-Scholes against the binomial tree and against Monte Carlo. */
  datatype ConvergenceReport = ConvergenceReport(bsVsBinomial: Convergence, bsVsMonteCarlo: Convergence)

  function ConvergenceOf(prices: ModelPrices): ConvergenceReport {
    ConvergenceReport(Compare(prices.blackScholes, prices.binomialEuropean),
      Compare(prices.blackScholes, prices.monteCarloEuropean))
  }

  // ---- market data ----

  /** The market-data answer: the stock summary, its bars and the period asked for, or an error. */
  datatype MarketDataBody =
    | MarketDataResult(stockInfo: StockInfo, historicalData: seq<PriceRecord>, period: string)
    | MarketDataError(error: string)

  /**
   * The market-data decision once `ticker` and `period` are read (server.py,
   * api/main.py and api/market_data.py agree on it): a missing ticker is
   * 400; the ticker is trimmed and upper-cased and an invalid one is 404;
   * a raising stock summary or history is 500; otherwise 200 echoing the
   * period.
   */
  function MarketDataResponse(ticker: Option<string>, period: string, p: Provider): (r: Response<MarketDataBody>)
    ensures Absent(ticker) ==> r == Response(400, MarketDataError(MissingTickerMessage))
    ensures !Absent(ticker) && !ValidTicker(p, NormalizeTicker(ticker.value)) ==>
      r == Response(404, MarketDataError(InvalidTickerMessage(NormalizeTicker(ticker.value))))
    ensures r.status == 200 <==>
      && !Absent(ticker) && ValidTicker(p, NormalizeTicker(ticker.value))
      && StockInfoOf(p, NormalizeTicker(ticker.value)).Ok?
      && HistoricalDataOf(p, NormalizeTicker(ticker.value), period).Ok?
    ensures r.status == 200 ==>
      && r.body.MarketDataResult?
      && r.body.period == period
      && r.body.stockInfo == StockInfoOf(p, NormalizeTicker(ticker.value)).value
      && Ok(r.body.historicalData) == HistoricalDataOf(p, NormalizeTicker(ticker.value), period)
    ensures r.status in {200, 400, 404, 500}
  {
    if Absent(ticker) then Response(400, MarketDataError(MissingTickerMessage))
    else
      var t := NormalizeTicker(ticker.value);
      if !ValidTicker(p, t) then Response(404, MarketDataError(InvalidTickerMessage(t)))
      else
        match StockInfoOf(p, t)
        case Raised(m) => Response(500, MarketDataError(m))
        case Ok(info) =>
          match HistoricalDataOf(p, t, period)
          case Raised(m) => Response(500, MarketDataError(m))
          case Ok(history) => Response(200, MarketDataResult(info, history, period))
  }

  /**
   * A validated ticker has a readable five-day history, so a history
   * request for the same period never raises and a 500 can only come from
   * the one-year volatility.
   */
  lemma MarketDataFailsOnlyOnVolatility(ticker: string, p: Provider)
    requires !Absent(Some(ticker)) && ValidTicker(p, NormalizeTicker(ticker))
    requires MarketDataResponse(Some(ticker), "5d", p).status == 500
    ensures VolatilityOf(p, NormalizeTicker(ticker)).Raised?
  {
  }

  /**
   * The market-data route of the two Flask apps (server.py and api/main.py
   * are the same here): `ticker` from `request.args`, `period` defaulting to
   * "1y".
   */
  function MarketDataRoute(args: map<string, string>, p: Provider): (r: Response<MarketDataBody>)
    ensures "ticker" !in args || args["ticker"] == "" ==> r.status == 400
    ensures r.status == 200 ==> r.body.MarketDataResult? && r.body.period == Param(args, "period", "1y")
    ensures "period" !in args && r.status == 200 ==> r.body.MarketDataResult? && r.body.period == "1y"
  {
    MarketDataResponse(Lookup(args, "ticker"), Param(args, "period", "1y"), p)
  }

  // ---- strike ----

  /**
   * The two Flask apps' strike: `float(strike_str)` when the parameter is
   * given and non-empty, else the spot price; text `float` cannot read
   * raises ValueError.
   */
  function FlaskStrike(strike: Option<string>, spot: real): (r: Result<real>)
    ensures Absent(strike) ==> r == Ok(spot)
    ensures !Absent(strike) ==> (r.Ok? <==> ParseDecimal(strike.value).Some?)
    ensures !Absent(strike) && r.Ok? ==> r.value == ParseDecimal(strike.value).value
    ensures r.Raised? ==> !Absent(strike) && r.message == FloatErrorMessage(strike.value)
  {
    if Absent(strike) then Ok(spot)
    else
      match ParseDecimal(strike.value)
      case Some(k) => Ok(k)
      case None => Raised(FloatErrorMessage(strike.value))
  }

  // ---- options chain ----

  /** `params.get("only_expiries", "false").lower() == "true"`. */
  predicate OnlyExpiries(params: map<string, string>) {
    Lower(Param(params, "only_expiries", "false")) == "true"
  }

  /** Without the parameter the full chain is answered. */
  lemma FullChainByDefault(params: map<string, string>)
    requires "only_expiries" !in params
    ensures !OnlyExpiries(params)
  {
    assert Lower("false")[0] == 'f';
  }

  /** The options-chain answer: only the expiry list, the chain with its ticker and rounded spot, or an error. */
  datatype ChainBody =
    | ExpiryList(expiries: seq<string>)
    | Chain(chain: ChainResult, ticker: string, spotPrice: real)
    | ChainError(error: string)

  /**
   * The options-chain answer for a normalised ticker: the expiry list alone
   * when asked for, else the chain (which never raises) with the spot price
   * rounded to cents; reading the spot raises, and the answer is 500, exactly
   * when the ticker has no five-day history.
   */
  function ChainAnswer(p: Provider, ticker: string, expiry: Option<string>, onlyExpiries: bool): (r: Response<ChainBody>)
    ensures onlyExpiries ==> r == Response(200, ExpiryList(ExpiriesOf(p, ticker)))
    ensures !onlyExpiries ==> (r.status == 200 <==> ValidTicker(p, ticker))
    ensures !onlyExpiries && ValidTicker(p, ticker) ==>
      r.body == Chain(ChainOf(p, ticker, expiry), ticker, RoundTo(LastClose(p.history(ticker, "5d").bars), 2))
    ensures !onlyExpiries && !ValidTicker(p, ticker) ==>
      r == Response(500, ChainError(SpotPriceOf(p, ticker).message))
  {
    if onlyExpiries then Response(200, ExpiryList(ExpiriesOf(p, ticker)))
    else
      var chain := ChainOf(p, ticker, expiry);
      match SpotPriceOf(p, ticker)
      case Raised(m) => Response(500, ChainError(m))
      case Ok(spot) => Response(200, Chain(chain, ticker, RoundTo(spot, 2)))
  }

  /**
   * The options-chain route that validates its ticker (server.py and
   * api/options_chain.py): 400 without a ticker, 404 for an invalid one,
   * otherwise the chain answer, which then never fails.
   */
  function ValidatedChainResponse(p: Provider, ticker: Option<string>, expiry: Option<string>, onlyExpiries: bool)
    : (r: Response<ChainBody>)
    ensures Absent(ticker) ==> r == Response(400, ChainError(MissingTickerMessage))
    ensures !Absent(ticker) && !ValidTicker(p, NormalizeTicker(ticker.value)) ==>
      r == Response(404, ChainError(InvalidTickerMessage(NormalizeTicker(ticker.value))))
    ensures r.status != 500
    ensures r.status == 200 ==> !Absent(ticker) && r == ChainAnswer(p, NormalizeTicker(ticker.value), expiry, onlyExpiries)
  {
    if Absent(ticker) then Response(400, ChainError(MissingTickerMessage))
    else
      var t := NormalizeTicker(ticker.value);
      if !ValidTicker(p, t) then Response(404, ChainError(InvalidTickerMessage(t)))
      else ChainAnswer(p, t, expiry, onlyExpiries)
  }
}
