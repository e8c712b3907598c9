/**
 * The single-function Flask deployment (api/main.py). It shares the
 * market-data route with server.py (`Handlers.MarketDataRoute`) and differs
 * from it elsewhere: one combined 400 for the two required parameters, an
 * option type that is only lower-cased and never checked, no moneyness or
 * convergence block, no ticker validation on the options chain, two majors
 * instead of four, and no timestamp on the identity exchange rate.
 */
module FlaskApi {
  import opened Common
  import opened Text
  import opened Numeric
  import opened Yahoo
  import opened FxQuotes
  import opened MarketData
  import opened Payoffs
  import opened MonteCarlo
  import opened Http
  import opened Handlers
  import DevServer

  // ---- /api/price_option ----

  /** `request.args.get("option_type", "call").lower()`: not stripped, not checked. */
  function OptionType(args: map<string, string>): string {
    Lower(Param(args, "option_type", "call"))
  }

  /** The normalised ticker of a request that has one. */
  function TickerOf(args: map<string, string>): string {
    if "ticker" in args then NormalizeTicker(args["ticker"]) else ""
  }

  /** The two checks made before the market is consulted: one message for either missing parameter, then the day count. */
  function Rejection(args: map<string, string>): (r: Option<string>)
    ensures Absent(Lookup(args, "ticker")) || Absent(Lookup(args, "days_to_expiry")) ==> r == Some(MissingBothMessage)
    ensures r.None? <==>
      && !Absent(Lookup(args, "ticker")) && !Absent(Lookup(args, "days_to_expiry"))
      && PositiveDays(args["days_to_expiry"]).Some?
    ensures r.Some? ==> r.value in {MissingBothMessage, DaysMessage}
  {
    if Absent(Lookup(args, "ticker")) || Absent(Lookup(args, "days_to_expiry")) then Some(MissingBothMessage)
    else if PositiveDays(args["days_to_expiry"]).None? then Some(DaysMessage)
    else None
  }

  /** The "market_data" block of this copy: no rates, no moneyness, but the stock's currency. */
  datatype Summary = Summary(ticker: string, name: Json, spot: real, strike: real, days: int, optionType: string, currency: Json)

  /** The pricing answer: the summary, the three models' European prices and the Monte Carlo step count. */
  datatype PriceBody =
    | Priced(summary: Summary, prices: ModelPrices, monteCarloSteps: int)
    | PriceError(error: string)

  /**
   * `price_option()`: the two 400 checks, 404 for an invalid ticker, and
   * inside the try block a raising fetch, an unreadable strike and a
   * raising model run (a zero strike or a zero spot) each become a 500.
   */
  function PriceOptionRoute(args: map<string, string>, p: Provider, engine: PricingEngine): (r: Response<PriceBody>)
    ensures r.status in {200, 400, 404, 500}
    ensures r.status == 400 <==> Rejection(args).Some?
    ensures r.status == 400 ==> r.body == PriceError(Rejection(args).value)
    ensures Rejection(args).None? && !ValidTicker(p, TickerOf(args)) ==>
      r == Response(404, PriceError(InvalidTickerMessage(TickerOf(args))))
    ensures r.status == 200 <==>
      && Rejection(args).None? && ValidTicker(p, TickerOf(args)) && MarketInputsOf(p, TickerOf(args)).Ok?
      && FlaskStrike(Lookup(args, "strike"), MarketInputsOf(p, TickerOf(args)).value.spot).Ok?
      && FlaskStrike(Lookup(args, "strike"), MarketInputsOf(p, TickerOf(args)).value.spot).value != 0.0
      && MarketInputsOf(p, TickerOf(args)).value.spot != 0.0
    ensures r.status == 200 ==>
      var m := MarketInputsOf(p, TickerOf(args)).value;
      var K := FlaskStrike(Lookup(args, "strike"), m.spot).value;
      var days := PositiveDays(args["days_to_expiry"]).value;
      && r.body.Priced?
      && r.body.prices == engine(PricingInputs(m.spot, K, Years(days), m.rate, m.volatility, m.dividendYield, OptionType(args)))
      && r.body.summary.spot == RoundTo(m.spot, 4) && r.body.summary.strike == RoundTo(K, 4)
      && r.body.summary.optionType == Upper(OptionType(args))
      && r.body.summary.currency == Get(InfoOf(p, TickerOf(args)), "currency", JStr("USD"))
      && MinSteps <= r.body.monteCarloSteps <= TradingDays
  {
    match Rejection(args)
    case Some(message) => Response(400, PriceError(message))
    case None =>
      var t := TickerOf(args);
      var days := PositiveDays(args["days_to_expiry"]).value;
      if !ValidTicker(p, t) then Response(404, PriceError(InvalidTickerMessage(t)))
      else
        match MarketInputsOf(p, t)
        case Raised(e) => Response(500, PriceError(e))
        case Ok(m) =>
          match FlaskStrike(Lookup(args, "strike"), m.spot)
          case Raised(e) => Response(500, PriceError(e))
          case Ok(K) =>
            var T := Years(days);
            match RunModels(engine, PricingInputs(m.spot, K, T, m.rate, m.volatility, m.dividendYield, OptionType(args)))
            case Raised(e) => Response(500, PriceError(e))
            case Ok(prices) =>
              var info := InfoOf(p, t);
              var summary := Summary(t, DisplayName(info, t), RoundTo(m.spot, 4), RoundTo(K, 4), days,
                Upper(OptionType(args)), Get(info, "currency", JStr("USD")));
              Response(200, Priced(summary, prices, StepCount(T)))
  }

  /**
   * The option type is never checked here: any text the fetch and the
   * models accept is priced, and everything but "call" in any letter case
   * is priced as a put: a padded " call", which server.py strips and prices
   * as a call, is priced here as a put.
   */
  lemma UncheckedOptionTypePricesAPut(args: map<string, string>, p: Provider, engine: PricingEngine)
    requires Rejection(args).None? && ValidTicker(p, TickerOf(args)) && MarketInputsOf(p, TickerOf(args)).Ok?
    requires "strike" !in args && MarketInputsOf(p, TickerOf(args)).value.spot != 0.0
    requires "option_type" in args && args["option_type"] == " call"
    ensures PriceOptionRoute(args, p, engine).status == 200
    ensures KindOf(OptionType(args)) == Put
    ensures DevServer.OptionType(args) == "call"
  {
    PaddedCall();
    assert Lookup(args, "strike").None?;
  }

  lemma PaddedCall()
    ensures Lower(Strip(" call")) == "call"
    ensures Lower(" call") != "call"
  {
    StripPaddedCall();
    LowerCall();
    LowerPaddedCall();
  }

  lemma LowerCall()
    ensures Lower("call") == "call"
  {
    var l := Lower("call");
    assert l[0] == 'c' && l[1] == 'a' && l[2] == 'l' && l[3] == 'l';
  }

  lemma LowerPaddedCall()
    ensures Lower(" call") != "call"
  {
    assert Lower(" call")[0] == ' ';
  }

  lemma StripPaddedCall()
    ensures Strip(" call") == "call"
  {
    var padded, word := " call", "call";
    assert padded[1..] == word;
    assert IsSpace(padded[0]) && !IsSpace(word[0]) && !IsSpace(word[3]);
    assert TrimStart(padded) == TrimStart(word);
    assert TrimStart(word) == word;
    assert TrimEnd(word) == word;
  }

  // ---- /api/options_chain ----

  /**
   * `options_chain()`: 400 without a ticker; the ticker is normalised but
   * not validated, so an unknown one is not a 404.
   */
  function OptionsChainRoute(args: map<string, string>, p: Provider): (r: Response<ChainBody>)
    ensures Absent(Lookup(args, "ticker")) ==> r == Response(400, ChainError(MissingTickerMessage))
    ensures !Absent(Lookup(args, "ticker")) ==>
      r == ChainAnswer(p, TickerOf(args), Lookup(args, "expiry"), OnlyExpiries(args))
    ensures r.status in {200, 400, 500}
  {
    var ticker := Lookup(args, "ticker");
    if Absent(ticker) then Response(400, ChainError(MissingTickerMessage))
    else ChainAnswer(p, NormalizeTicker(ticker.value), Lookup(args, "expiry"), OnlyExpiries(args))
  }

  /**
   * Without validation an unknown ticker's full chain is a 500 (its spot
   * price raises) where server.py answers 404; its expiry list is a 200.
   */
  lemma UnknownTickerChain(args: map<string, string>, p: Provider)
    requires !Absent(Lookup(args, "ticker")) && !ValidTicker(p, TickerOf(args))
    ensures !OnlyExpiries(args) ==> OptionsChainRoute(args, p).status == 500
    ensures OnlyExpiries(args) ==> OptionsChainRoute(args, p) == Response(200, ExpiryList(ExpiriesOf(p, TickerOf(args))))
    ensures DevServer.OptionsChainRoute(args, p).status == 404
  {
  }

  // ---- /api/exchange_rate ----

  /** Codes quoted as dollars per unit in this copy of `get_usd_rate`. */
  const Majors := ["EUR", "GBP"]

  function NotDeterminedMessage(source: string, target: string): string {
    "Could not determine rate for " + source + "/" + target
  }

  /**
   * `exchange_rate()`: equal codes answer 1.0 with no timestamp, before the
   * try block; otherwise the cross rate, 404 naming both codes.
   */
  function ExchangeRateRoute(args: map<string, string>, feed: HistoryFeed): (r: Response<RateBody>)
    ensures r.status in {200, 404, 500}
    ensures Upper(Param(args, "source", "USD")) == Upper(Param(args, "target", "USD")) ==>
      r == Response(200, Quote(Upper(Param(args, "source", "USD")), Upper(Param(args, "source", "USD")), 1.0, None))
    ensures Upper(Param(args, "source", "USD")) != Upper(Param(args, "target", "USD")) ==>
      var source := Upper(Param(args, "source", "USD"));
      var target := Upper(Param(args, "target", "USD"));
      r == CrossResponse(feed, Majors, source, target, NotDeterminedMessage(source, target))
  {
    var source := Upper(Param(args, "source", "USD"));
    var target := Upper(Param(args, "target", "USD"));
    if source == target then Response(200, Quote(source, target, 1.0, None))
    else CrossResponse(feed, Majors, source, target, NotDeterminedMessage(source, target))
  }

  /**
   * The two Flask copies read "AUD=X" in opposite directions: server.py
   * treats the Australian dollar as a major, this copy inverts its close, so
   * for a non-zero close their dollar values are reciprocal.
   */
  lemma AudReadReciprocally(feed: HistoryFeed)
    requires feed(QuoteSymbol("AUD"), OneDay).Rows? && feed(QuoteSymbol("AUD"), OneDay).bars != []
    requires LastClose(feed(QuoteSymbol("AUD"), OneDay).bars) != 0.0
    ensures UsdValue(feed, DevServer.Majors, "AUD").Ok? && UsdValue(feed, DevServer.Majors, "AUD").value.Some?
    ensures UsdValue(feed, Majors, "AUD").Ok? && UsdValue(feed, Majors, "AUD").value.Some?
    ensures UsdValue(feed, DevServer.Majors, "AUD").value.value * UsdValue(feed, Majors, "AUD").value.value == 1.0
  {
    assert "AUD" !in Majors;
    assert "AUD" in DevServer.Majors;
  }
}
