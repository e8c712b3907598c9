/**
 * The serverless options-chain endpoint (api/options_chain.py): the OPTIONS
 * pre-flight, then the validating chain decision over the query.
 */
module OptionsChainEndpoint {
  import opened Common
  import opened Numeric
  import opened MarketData
  import opened Http
  import opened Handlers

  /** `handler(request)`. */
  function Handle(req: Request, p: Provider): (r: Response<Answer<ChainBody>>)
    ensures IsPreflight(req) ==> r == Response(200, EmptyBody)
    ensures !IsPreflight(req) ==>
      var params := Params(req.query);
      var answer := ValidatedChainResponse(p, Lookup(params, "ticker"), Lookup(params, "expiry"), OnlyExpiries(params));
      r == Response(answer.status, Document(answer.body))
  {
    if IsPreflight(req) then Response(200, EmptyBody)
    else
      var params := Params(req.query);
      var answer := ValidatedChainResponse(p, Lookup(params, "ticker"), Lookup(params, "expiry"), OnlyExpiries(params));
      Response(answer.status, Document(answer.body))
  }

  /** Once the ticker is validated nothing can raise: the endpoint never answers 500. */
  lemma NeverServerError(req: Request, p: Provider)
    ensures Handle(req, p).status in {200, 400, 404}
  {
  }

  /**
   * A validated ticker's chain is answered with the chain for the requested
   * expiry (or the first listed), the ticker, and the spot rounded to cents.
   */
  lemma ChainForValidTicker(req: Request, p: Provider)
    requires !IsPreflight(req)
    requires "ticker" in Params(req.query) && Params(req.query)["ticker"] != "" && !OnlyExpiries(Params(req.query))
    requires ValidTicker(p, NormalizeTicker(Params(req.query)["ticker"]))
    ensures var t := NormalizeTicker(Params(req.query)["ticker"]);
      Handle(req, p) == Response(200, Document(Chain(ChainOf(p, t, Lookup(Params(req.query), "expiry")), t,
        RoundTo(SpotPriceOf(p, t).value, 2))))
  {
  }
}
