/**
 * The serverless market-data endpoint (api/market_data.py): the OPTIONS
 * pre-flight, the query read from the URL, `request.args` or nothing, and
 * then the same decision as the Flask routes.
 */
module MarketDataEndpoint {
  import opened Common
  import opened MarketData
  import opened Http
  import opened Handlers

  /** `handler(request)`. */
  function Handle(req: Request, p: Provider): (r: Response<Answer<MarketDataBody>>)
    ensures IsPreflight(req) ==> r == Response(200, EmptyBody)
    ensures !IsPreflight(req) ==>
      var answer := MarketDataResponse(Lookup(Params(req.query), "ticker"), Param(Params(req.query), "period", "1y"), p);
      r == Response(answer.status, Document(answer.body))
  {
    if IsPreflight(req) then Response(200, EmptyBody)
    else
      var params := Params(req.query);
      var answer := MarketDataResponse(Lookup(params, "ticker"), Param(params, "period", "1y"), p);
      Response(answer.status, Document(answer.body))
  }

  /** Given Flask-style arguments, the endpoint answers exactly as the Flask routes do. */
  lemma AgreesWithFlaskRoute(verb: Option<string>, args: map<string, string>, p: Provider)
    requires verb != Some("OPTIONS")
    ensures Handle(Request(verb, Args(args)), p).status == MarketDataRoute(args, p).status
    ensures Handle(Request(verb, Args(args)), p).body == Document(MarketDataRoute(args, p).body)
  {
  }

  /**
   * A blank ticker in the URL is dropped by the query parser, so it is
   * reported missing just like an absent one.
   */
  lemma BlankTickerInUrlIsMissing(fields: map<string, string>, p: Provider)
    requires "ticker" in fields && fields["ticker"] == ""
    ensures Handle(Request(None, Url(fields)), p) == Response(400, Document(MarketDataError(MissingTickerMessage)))
  {
    assert "ticker" !in Params(Url(fields));
  }
}
