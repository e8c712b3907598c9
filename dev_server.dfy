/**
 * The API routes of the local Flask development server (server.py): the
 * pricing route with its validation order, moneyness and convergence
 * block, the options-chain route, and the exchange-rate route with four
 * majors. The market-data route is `Handlers.MarketDataRoute`. Static file
 * serving and the index listing are left out.
 */
module DevServer {
  import opened Common
  import opened Text
  import opened Numeric
  import opened Yahoo
  import opened FxQuotes
  import opened MarketData
  import opened MonteCarlo
  import opened Http
  import opened Handlers

  // ---- /api/price_option ----

  /** `request.args.get("option_type", "call").strip().lower()`. */
  function OptionType(args: map<string, string>): string {
    Lower(Strip(Param(args, "option_type", "call")))
  }

  /** The normalised ticker of a request that has one. */
  function TickerOf(args: map<string, string>): string {
    if "ticker" in args then NormalizeTicker(args["ticker"]) else ""
  }

  /**
   * The four checks made before the market is consulted, in the route's
   * order; the message of the first that fails, or None when all pass.
   */
  function Rejection(args: map<string, string>): (r: Option<string>)
    ensures Absent(Lookup(args, "ticker")) ==> r == Some(MissingTickerMessage)
    ensures !Absent(Lookup(args, "ticker")) && Absent(Lookup(args, "days_to_expiry")) ==> r == Some(MissingDaysMessage)
    ensures (&& !Absent(Lookup(args, "ticker")) && !Absent(Lookup(args, "days_to_expiry"))
             && OptionType(args) != "call" && OptionType(args) != "put") ==> r == Some(OptionTypeMessage)
    ensures r.None? <==>
      && !Absent(Lookup(args, "ticker")) && !Absent(Lookup(args, "days_to_expiry"))
      && (OptionType(args) == "call" || OptionType(args) == "put")
      && PositiveDays(args["days_to_expiry"]).Some?
    ensures r.Some? ==> r.value in {MissingTickerMessage, MissingDaysMessage, OptionTypeMessage, DaysMessage}
  {
    if Absent(Lookup(args, "ticker")) then Some(MissingTickerMessage)
    else if Absent(Lookup(args, "days_to_expiry")) then Some(MissingDaysMessage)
    else if OptionType(args) != "call" && OptionType(args) != "put" then Some(OptionTypeMessage)
    else if PositiveDays(args["days_to_expiry"]).None? then Some(DaysMessage)
    else None
  }

  /** The "market_data" block of a priced option. */
  datatype Summary = Summary(
    ticker: string, name: Json, spot: real, strike: real, days: int, years: real,
    rate: real, volatility: real, dividendYield: real, optionType: string,
    moneyness: Moneyness, moneynessRatio: real)

  /** The pricing answer: the summary, the three models' European prices, the Monte Carlo step count and the convergence block. */
  datatype PriceBody =
    | Priced(summary: Summary, prices: ModelPrices, monteCarloSteps: int, convergence: ConvergenceReport)
    | PriceError(error: string)

  /** The answer once every check passed: the market inputs and a non-zero strike are known. */
  function PricedBody(ticker: string, name: Json, m: MarketInputs, K: real, days: int, optionType: string,
                      engine: PricingEngine): (body: PriceBody)
    requires K != 0.0
    ensures body.Priced?
    ensures body.summary.moneyness == Classify(m.spot / K, optionType == "call")
    ensures body.summary.spot == RoundTo(m.spot, 4) && body.summary.strike == RoundTo(K, 4)
    ensures body.summary.days == days && body.summary.optionType == Upper(optionType)
    ensures body.prices == engine(PricingInputs(m.spot, K, Years(days), m.rate, m.volatility, m.dividendYield, optionType))
    ensures MinSteps <= body.monteCarloSteps <= TradingDays
    ensures body.monteCarloSteps == StepCount(Years(days))
  {
    var T := Years(days);
    var ratio := m.spot / K;
    var summary := Summary(ticker, name, RoundTo(m.spot, 4), RoundTo(K, 4), days, RoundTo(T, 6),
      RoundTo(m.rate, 6), RoundTo(m.volatility, 6), RoundTo(m.dividendYield, 6), Upper(optionType),
      Classify(ratio, optionType == "call"), RoundTo(ratio, 4));
    var prices := engine(PricingInputs(m.spot, K, T, m.rate, m.volatility, m.dividendYield, optionType));
    Priced(summary, prices, StepCount(T), ConvergenceOf(prices))
  }

  /**
   * `price_option()`: the four 400 checks, then 404 for an invalid ticker;
   * inside the try block a raising fetch, an unreadable strike, the
   * moneyness division by a zero strike and a raising model run (a zero
   * spot) each become a 500 carrying the exception's message.
   */
  function PriceOptionRoute(args: map<string, string>, p: Provider, engine: PricingEngine): (r: Response<PriceBody>)
    ensures r.status in {200, 400, 404, 500}
    ensures r.status == 400 <==> Rejection(args).Some?
    ensures r.status == 400 ==> r.body == PriceError(Rejection(args).value)
    ensures Rejection(args).None? && !ValidTicker(p, TickerOf(args)) ==>
      r == Response(404, PriceError(InvalidTickerMessage(TickerOf(args))))
    ensures Rejection(args).None? && ValidTicker(p, TickerOf(args)) && MarketInputsOf(p, TickerOf(args)).Raised? ==>
      r == Response(500, PriceError(MarketInputsOf(p, TickerOf(args)).message))
    ensures r.status == 200 <==>
      && Rejection(args).None? && ValidTicker(p, TickerOf(args)) && MarketInputsOf(p, TickerOf(args)).Ok?
      && FlaskStrike(Lookup(args, "strike"), MarketInputsOf(p, TickerOf(args)).value.spot).Ok?
      && FlaskStrike(Lookup(args, "strike"), MarketInputsOf(p, TickerOf(args)).value.spot).value != 0.0
      && MarketInputsOf(p, TickerOf(args)).value.spot != 0.0
    ensures r.status == 200 ==>
      var m := MarketInputsOf(p, TickerOf(args)).value;
      var K := FlaskStrike(Lookup(args, "strike"), m.spot).value;
      && r.body.Priced?
      && r.body == PricedBody(TickerOf(args), DisplayName(InfoOf(p, TickerOf(args)), TickerOf(args)), m, K,
           PositiveDays(args["days_to_expiry"]).value, OptionType(args), engine)
  {
    match Rejection(args)
    case Some(message) => Response(400, PriceError(message))
    case None =>
      var t := TickerOf(args);
      var days := PositiveDays(args["days_to_expiry"]).value;
      if !ValidTicker(p, t) then Response(404, PriceError(InvalidTickerMessage(t)))
      else
        match MarketInputsOf(p, t)
        case Raised(e) => Response(500, PriceError(e))
        case Ok(m) =>
          match FlaskStrike(Lookup(args, "strike"), m.spot)
          case Raised(e) => Response(500, PriceError(e))
          case Ok(K) =>
            if K == 0.0 then Response(500, PriceError(ZeroDivisionMessage))
            else
              match RunModels(engine, PricingInputs(m.spot, K, Years(days), m.rate, m.volatility, m.dividendYield, OptionType(args)))
              case Raised(e) => Response(500, PriceError(e))
              case Ok(_) => Response(200, PricedBody(t, DisplayName(InfoOf(p, t), t), m, K, days, OptionType(args), engine))
  }

  /** Without a strike the option is priced at the money: the strike is the spot and the moneyness is ATM. */
  lemma DefaultStrikeIsAtTheMoney(args: map<string, string>, p: Provider, engine: PricingEngine)
    requires PriceOptionRoute(args, p, engine).status == 200
    requires Absent(Lookup(args, "strike"))
    ensures PriceOptionRoute(args, p, engine).body.summary.moneyness == ATM
    ensures PriceOptionRoute(args, p, engine).body.summary.strike == PriceOptionRoute(args, p, engine).body.summary.spot
  {
    var t := TickerOf(args);
    var m := MarketInputsOf(p, t).value;
    var K := FlaskStrike(Lookup(args, "strike"), m.spot).value;
    assert K == m.spot && K != 0.0;
    var body := PricedBody(t, DisplayName(InfoOf(p, t), t), m, K,
      PositiveDays(args["days_to_expiry"]).value, OptionType(args), engine);
    assert PriceOptionRoute(args, p, engine).body == body;
    RatioToSelf(K);
  }

  /**
   * A ticker whose last close is zero cannot be priced at the money: the
   * default strike is that zero spot, and the moneyness division raises.
   */
  lemma ZeroSpotDefaultStrikeFails(args: map<string, string>, p: Provider, engine: PricingEngine)
    requires Rejection(args).None? && ValidTicker(p, TickerOf(args))
    requires MarketInputsOf(p, TickerOf(args)).Ok? && MarketInputsOf(p, TickerOf(args)).value.spot == 0.0
    requires Absent(Lookup(args, "strike"))
    ensures PriceOptionRoute(args, p, engine) == Response(500, PriceError(ZeroDivisionMessage))
  {
  }

  /**
   * A ticker whose last close is zero cannot be priced with any readable
   * strike either: the moneyness division raises for a zero strike, and
   * the binomial Greeks divide by a zero bump for a non-zero one.
   */
  lemma ZeroSpotIsServerError(args: map<string, string>, p: Provider, engine: PricingEngine)
    requires Rejection(args).None? && ValidTicker(p, TickerOf(args))
    requires MarketInputsOf(p, TickerOf(args)).Ok? && MarketInputsOf(p, TickerOf(args)).value.spot == 0.0
    requires FlaskStrike(Lookup(args, "strike"), 0.0).Ok?
    ensures PriceOptionRoute(args, p, engine) == Response(500, PriceError(ZeroDivisionMessage))
  {
  }

  /** A non-empty strike `float` cannot read is a server error here, not a client error. */
  lemma UnreadableStrikeIsServerError(args: map<string, string>, p: Provider, engine: PricingEngine)
    requires Rejection(args).None? && ValidTicker(p, TickerOf(args)) && MarketInputsOf(p, TickerOf(args)).Ok?
    requires "strike" in args && args["strike"] != "" && ParseDecimal(args["strike"]).None?
    ensures PriceOptionRoute(args, p, engine) == Response(500, PriceError(FloatErrorMessage(args["strike"])))
  {
    var m := MarketInputsOf(p, TickerOf(args)).value;
    assert FlaskStrike(Lookup(args, "strike"), m.spot) == Raised(FloatErrorMessage(args["strike"]));
  }

  // ---- /api/options_chain ----

  /** `options_chain()`: the validating chain route over `request.args`. */
  function OptionsChainRoute(args: map<string, string>, p: Provider): (r: Response<ChainBody>)
    ensures r.status in {200, 400, 404}
    ensures r.status == 200 ==> ValidTicker(p, TickerOf(args))
    ensures r.status == 200 && OnlyExpiries(args) ==> r.body == ExpiryList(ExpiriesOf(p, TickerOf(args)))
    ensures r.status == 200 && !OnlyExpiries(args) ==>
      r.body == Chain(ChainOf(p, TickerOf(args), Lookup(args, "expiry")), TickerOf(args),
        RoundTo(SpotPriceOf(p, TickerOf(args)).value, 2))
  {
    ValidatedChainResponse(p, Lookup(args, "ticker"), Lookup(args, "expiry"), OnlyExpiries(args))
  }

  // ---- /api/exchange_rate ----

  /** Codes quoted as dollars per unit in this copy of `get_usd_rate`. */
  const Majors := ["EUR", "GBP", "AUD", "NZD"]

  const NotDeterminedMessage := "Could not determine exchange rate"

  /**
   * `exchange_rate()`: both codes default to "USD" and are upper-cased;
   * equal codes are worth 1.0 without any lookup; otherwise the cross rate
   * through the dollar, every answer stamped "latest".
   */
  function ExchangeRateRoute(args: map<string, string>, feed: HistoryFeed): (r: Response<RateBody>)
    ensures r.status in {200, 404, 500}
    ensures r.status == 200 ==> r.body.Quote? && r.body.timestamp == Some("latest")
    ensures Upper(Param(args, "source", "USD")) == Upper(Param(args, "target", "USD")) ==>
      r.status == 200 && r.body.rate == 1.0
    ensures Upper(Param(args, "source", "USD")) != Upper(Param(args, "target", "USD")) ==>
      r == CrossResponse(feed, Majors, Upper(Param(args, "source", "USD")), Upper(Param(args, "target", "USD")), NotDeterminedMessage)
  {
    var source := Upper(Param(args, "source", "USD"));
    var target := Upper(Param(args, "target", "USD"));
    if source == target then Response(200, Quote(source, target, 1.0, Some("latest")))
    else CrossResponse(feed, Majors, source, target, NotDeterminedMessage)
  }

  /** The Australian dollar's quote is used as it is: "AUD=X" is read as dollars per Australian dollar. */
  lemma AudIsMajor(feed: HistoryFeed)
    requires feed(QuoteSymbol("AUD"), OneDay).Rows? && feed(QuoteSymbol("AUD"), OneDay).bars != []
    ensures UsdValue(feed, Majors, "AUD") == Ok(Some(LastClose(feed(QuoteSymbol("AUD"), OneDay).bars)))
  {
  }
}
