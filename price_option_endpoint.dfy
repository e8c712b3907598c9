/**
 * The serverless pricing endpoint (api/price_option.py), a request-handler
 * class whose GET reads the query of its path. Its validation order and its
 * strike rule differ from the Flask copies: the option type is checked
 * before the day count, and a given strike must be a positive number or
 * the answer is 400, decided only after the market data was fetched.
 */
module PriceOptionEndpoint {
  import opened Common
  import opened Text
  import opened Numeric
  import opened FxQuotes
  import opened MarketData
  import opened MonteCarlo
  import opened Http
  import opened Handlers

  const StrikeMessage := "strike must be a positive number"

  /** The option type after `.strip().lower()`. */
  function OptionType(params: map<string, string>): string {
    Lower(Strip(Param(params, "option_type", "call")))
  }

  /** The normalised ticker of a request that has one. */
  function TickerOf(params: map<string, string>): string {
    if "ticker" in params then NormalizeTicker(params["ticker"]) else ""
  }

  /** The three checks made before the market is consulted, in this handler's order. */
  function Rejection(params: map<string, string>): (r: Option<string>)
    ensures Absent(Lookup(params, "ticker")) || Absent(Lookup(params, "days_to_expiry")) ==> r == Some(MissingBothMessage)
    ensures (&& !Absent(Lookup(params, "ticker")) && !Absent(Lookup(params, "days_to_expiry"))
             && OptionType(params) != "call" && OptionType(params) != "put") ==> r == Some(OptionTypeMessage)
    ensures r.None? <==>
      && !Absent(Lookup(params, "ticker")) && !Absent(Lookup(params, "days_to_expiry"))
      && (OptionType(params) == "call" || OptionType(params) == "put")
      && PositiveDays(params["days_to_expiry"]).Some?
    ensures r.Some? ==> r.value in {MissingBothMessage, OptionTypeMessage, DaysMessage}
  {
    if Absent(Lookup(params, "ticker")) || Absent(Lookup(params, "days_to_expiry")) then Some(MissingBothMessage)
    else if OptionType(params) != "call" && OptionType(params) != "put" then Some(OptionTypeMessage)
    else if PositiveDays(params["days_to_expiry"]).None? then Some(DaysMessage)
    else None
  }

  /**
   * The strike: `strike_str is not None` decides, so only a parameter the
   * query parser kept counts; it must read as a number above zero, else
   * the 400 message. Without one the strike is the spot.
   */
  function Strike(strike: Option<string>, spot: real): (r: Result<real>)
    ensures strike.None? ==> r == Ok(spot)
    ensures strike.Some? ==>
      (r.Ok? <==> ParseDecimal(strike.value).Some? && ParseDecimal(strike.value).value > 0.0)
    ensures strike.Some? && r.Ok? ==> r.value == ParseDecimal(strike.value).value && r.value > 0.0
    ensures r.Raised? ==> r.message == StrikeMessage
  {
    match strike
    case None => Ok(spot)
    case Some(s) =>
      match ParseDecimal(s)
      case Some(k) => if k <= 0.0 then Raised(StrikeMessage) else Ok(k)
      case None => Raised(StrikeMessage)
  }

  /** The "market_data" block: the server.py fields plus the stock's currency. */
  datatype Summary = Summary(
    ticker: string, name: Json, spot: real, strike: real, days: int, years: real,
    rate: real, volatility: real, dividendYield: real, optionType: string,
    moneyness: Moneyness, moneynessRatio: real, currency: Json)

  datatype PriceBody =
    | Priced(summary: Summary, prices: ModelPrices, monteCarloSteps: int, convergence: ConvergenceReport)
    | PriceError(error: string)

  /** The answer once every check passed. */
  function PricedBody(ticker: string, info: Info, m: MarketInputs, K: real, days: int, optionType: string,
                      engine: PricingEngine): (body: PriceBody)
    requires K != 0.0
    ensures body.Priced?
    ensures body.summary.moneyness == ClassifyStepwise(m.spot / K, optionType == "call")
    ensures body.summary.spot == RoundTo(m.spot, 4) && body.summary.strike == RoundTo(K, 4)
    ensures body.summary.currency == Get(info, "currency", JStr("USD"))
    ensures body.prices == engine(PricingInputs(m.spot, K, Years(days), m.rate, m.volatility, m.dividendYield, optionType))
    ensures MinSteps <= body.monteCarloSteps <= TradingDays
  {
    var T := Years(days);
    var ratio := m.spot / K;
    var summary := Summary(ticker, DisplayName(info, ticker), RoundTo(m.spot, 4), RoundTo(K, 4), days,
      RoundTo(T, 6), RoundTo(m.rate, 6), RoundTo(m.volatility, 6), RoundTo(m.dividendYield, 6),
      Upper(optionType), ClassifyStepwise(ratio, optionType == "call"), RoundTo(ratio, 4),
      Get(info, "currency", JStr("USD")));
    var prices := engine(PricingInputs(m.spot, K, T, m.rate, m.volatility, m.dividendYield, optionType));
    Priced(summary, prices, StepCount(T), ConvergenceOf(prices))
  }

  /**
   * `_handle_request()` over the query fields of the path: 400s, 404, the
   * fetch (500 when it raises), then the strike's 400, the moneyness
   * division, which raises (500) only for a default strike equal to a zero
   * spot, and the model run, which raises (500) for a zero spot.
   */
  function HandleGet(query: map<string, string>, p: Provider, engine: PricingEngine): (r: Response<PriceBody>)
    ensures r.status in {200, 400, 404, 500}
    ensures Rejection(Params(Url(query))).Some? ==> r == Response(400, PriceError(Rejection(Params(Url(query))).value))
    ensures Rejection(Params(Url(query))).None? && !ValidTicker(p, TickerOf(Params(Url(query)))) ==>
      r == Response(404, PriceError(InvalidTickerMessage(TickerOf(Params(Url(query))))))
    ensures (&& Rejection(Params(Url(query))).None? && ValidTicker(p, TickerOf(Params(Url(query))))
             && MarketInputsOf(p, TickerOf(Params(Url(query)))).Raised?) ==>
      r == Response(500, PriceError(MarketInputsOf(p, TickerOf(Params(Url(query)))).message))
    ensures r.status == 200 <==>
      var params := Params(Url(query));
      && Rejection(params).None? && ValidTicker(p, TickerOf(params)) && MarketInputsOf(p, TickerOf(params)).Ok?
      && Strike(Lookup(params, "strike"), MarketInputsOf(p, TickerOf(params)).value.spot).Ok?
      && Strike(Lookup(params, "strike"), MarketInputsOf(p, TickerOf(params)).value.spot).value != 0.0
      && MarketInputsOf(p, TickerOf(params)).value.spot != 0.0
    ensures r.status == 200 ==>
      var params := Params(Url(query));
      var t := TickerOf(params);
      var m := MarketInputsOf(p, t).value;
      r.body == PricedBody(t, InfoOf(p, t), m, Strike(Lookup(params, "strike"), m.spot).value,
        PositiveDays(params["days_to_expiry"]).value, OptionType(params), engine)
  {
    var params := Params(Url(query));
    match Rejection(params)
    case Some(message) => Response(400, PriceError(message))
    case None =>
      var t := TickerOf(params);
      var days := PositiveDays(params["days_to_expiry"]).value;
      if !ValidTicker(p, t) then Response(404, PriceError(InvalidTickerMessage(t)))
      else
        match MarketInputsOf(p, t)
        case Raised(e) => Response(500, PriceError(e))
        case Ok(m) =>
          match Strike(Lookup(params, "strike"), m.spot)
          case Raised(e) => Response(400, PriceError(e))
          case Ok(K) =>
            if K == 0.0 then Response(500, PriceError(ZeroDivisionMessage))
            else
              match RunModels(engine, PricingInputs(m.spot, K, Years(days), m.rate, m.volatility, m.dividendYield, OptionType(params)))
              case Raised(e) => Response(500, PriceError(e))
              case Ok(_) => Response(200, PricedBody(t, InfoOf(p, t), m, K, days, OptionType(params), engine))
  }

  /** The explanation `send_error(501, ...)` gives for a method with no `do_` handler. */
  function UnsupportedMessage(verb: string): string {
    "Unsupported method ('" + verb + "')"
  }

  /**
   * `do_OPTIONS` answers 200 with no body; `do_GET` handles the query; any
   * other method has no `do_` handler, so `BaseHTTPRequestHandler` answers
   * 501 with its error page (no body for HEAD).
   */
  function Handle(verb: string, query: map<string, string>, p: Provider, engine: PricingEngine)
    : (r: Response<Answer<PriceBody>>)
    ensures verb == "OPTIONS" ==> r == Response(200, EmptyBody)
    ensures verb == "GET" ==> r == Response(HandleGet(query, p, engine).status, Document(HandleGet(query, p, engine).body))
    ensures r.status == 501 <==> verb != "GET" && verb != "OPTIONS"
    ensures r.status == 501 ==> r.body == if verb == "HEAD" then EmptyBody else ErrorPage(UnsupportedMessage(verb))
  {
    if verb == "OPTIONS" then Response(200, EmptyBody)
    else if verb == "GET" then
      var answer := HandleGet(query, p, engine);
      Response(answer.status, Document(answer.body))
    else if verb == "HEAD" then Response(501, EmptyBody)
    else Response(501, ErrorPage(UnsupportedMessage(verb)))
  }

  /**
   * A strike that is not a positive number is a client error, but only
   * once the fetch succeeded: a raising fetch is reported first.
   */
  lemma BadStrikeIsClientError(query: map<string, string>, p: Provider, engine: PricingEngine)
    requires Rejection(Params(Url(query))).None? && ValidTicker(p, TickerOf(Params(Url(query))))
    requires "strike" in query && query["strike"] != ""
    requires ParseDecimal(query["strike"]).None? || ParseDecimal(query["strike"]).value <= 0.0
    ensures MarketInputsOf(p, TickerOf(Params(Url(query)))).Ok? ==>
      HandleGet(query, p, engine) == Response(400, PriceError(StrikeMessage))
    ensures MarketInputsOf(p, TickerOf(Params(Url(query)))).Raised? ==> HandleGet(query, p, engine).status == 500
  {
    var params := Params(Url(query));
    assert Lookup(params, "strike") == Some(query["strike"]);
  }

  /** A blank strike is dropped by the query parser, so the option is priced at the money. */
  lemma BlankStrikeIsAtTheMoney(query: map<string, string>, p: Provider, engine: PricingEngine)
    requires "strike" !in query || query["strike"] == ""
    requires HandleGet(query, p, engine).status == 200
    ensures HandleGet(query, p, engine).body.summary.moneyness == ATM
    ensures HandleGet(query, p, engine).body.summary.strike == HandleGet(query, p, engine).body.summary.spot
  {
    var params := Params(Url(query));
    assert Lookup(params, "strike").None?;
    var m := MarketInputsOf(p, TickerOf(params)).value;
    assert Strike(Lookup(params, "strike"), m.spot).value == m.spot;
    RatioToSelf(m.spot);
  }
}
