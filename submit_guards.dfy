/**
 * The submit handlers of the pricing form and the historical dashboard
 * (public/js/app.js): the ticker field is trimmed and upper-cased, an empty
 * strike field becomes null, and nothing is sent without a ticker (or, for
 * pricing, without a day count). What reaches the handlers then never
 * trips their missing-parameter checks.
 */
module SubmitGuards {
  import opened Common
  import opened Text
  import opened MarketData
  import opened Http
  import opened Handlers
  import opened ApiClient
  import FlaskApi
  import DevServer
  import PriceOptionEndpoint

  /** The pricing form's submit: the request it sends, if any. */
  function PricingSubmit(tickerField: string, optionType: string, strikeField: string, days: string): (c: Option<Call>)
    ensures c.Some? <==> Upper(Strip(tickerField)) != "" && days != ""
    ensures c.Some? ==> c.value == PriceOption(Given(Upper(Strip(tickerField))), Given(optionType),
      if strikeField == "" then Null else Given(strikeField), Given(days))
  {
    var ticker := Upper(Strip(tickerField));
    var strike := if strikeField == "" then Null else Given(strikeField);
    if ticker == "" || days == "" then None
    else Some(PriceOption(Given(ticker), Given(optionType), strike, Given(days)))
  }

  /** The dashboard's submit: the request it sends, if any. */
  function DashboardSubmit(tickerField: string, period: string): (c: Option<Call>)
    ensures c.Some? <==> Upper(Strip(tickerField)) != ""
    ensures c.Some? ==> c.value == GetMarketData(Given(Upper(Strip(tickerField))), Given(period))
  {
    var ticker := Upper(Strip(tickerField));
    if ticker == "" then None else Some(GetMarketData(Given(ticker), Given(period)))
  }

  /**
   * A pricing request the form sends carries the normalised ticker and the
   * day count; an empty strike field is not sent at all.
   */
  lemma PricingRequestCarriesFields(tickerField: string, optionType: string, strikeField: string, days: string)
    requires PricingSubmit(tickerField, optionType, strikeField, days).Some?
    ensures var args := QueryOf(PricingSubmit(tickerField, optionType, strikeField, days).value.params);
      && Lookup(args, "ticker") == Some(Upper(Strip(tickerField)))
      && Lookup(args, "days_to_expiry") == Some(days)
      && (strikeField == "" <==> "strike" !in args)
  {
  }

  /** With a ticker and a day count present, none of the three pricing handlers reports one missing. */
  lemma NoMissingParameter(args: map<string, string>)
    requires "ticker" in args && args["ticker"] != ""
    requires "days_to_expiry" in args && args["days_to_expiry"] != ""
    ensures FlaskApi.Rejection(args) != Some(MissingBothMessage)
    ensures DevServer.Rejection(args) != Some(MissingTickerMessage)
    ensures DevServer.Rejection(args) != Some(MissingDaysMessage)
    ensures PriceOptionEndpoint.Rejection(Params(Url(args))) != Some(MissingBothMessage)
  {
    var params := Params(Url(args));
    assert Lookup(params, "ticker") == Some(args["ticker"]);
    assert Lookup(params, "days_to_expiry") == Some(args["days_to_expiry"]);
  }

  /** So a request the pricing form sends never comes back with a missing-parameter answer. */
  lemma PricingRequestIsComplete(tickerField: string, optionType: string, strikeField: string, days: string)
    requires PricingSubmit(tickerField, optionType, strikeField, days).Some?
    ensures var args := QueryOf(PricingSubmit(tickerField, optionType, strikeField, days).value.params);
      && FlaskApi.Rejection(args) != Some(MissingBothMessage)
      && DevServer.Rejection(args) !in {Some(MissingTickerMessage), Some(MissingDaysMessage)}
      && PriceOptionEndpoint.Rejection(Params(Url(args))) != Some(MissingBothMessage)
  {
    PricingRequestCarriesFields(tickerField, optionType, strikeField, days);
    NoMissingParameter(QueryOf(PricingSubmit(tickerField, optionType, strikeField, days).value.params));
  }

  /**
   * A dashboard request carries the normalised ticker, which the handler
   * leaves as it is, and the period chosen (one year when none is); the
   * answer is never the missing-ticker 400.
   */
  lemma DashboardRequestIsComplete(tickerField: string, period: string, p: Provider)
    requires DashboardSubmit(tickerField, period).Some?
    ensures var args := QueryOf(DashboardSubmit(tickerField, period).value.params);
      && Lookup(args, "ticker") == Some(Upper(Strip(tickerField)))
      && NormalizeTicker(args["ticker"]) == Upper(Strip(tickerField))
      && Param(args, "period", "1y") == (if period == "" then "1y" else period)
      && MarketDataRoute(args, p).status != 400
  {
    NormalizeTickerIdempotent(tickerField);
  }
}
