/**
 * The serverless exchange-rate endpoint (api/exchange_rate.py): OPTIONS
 * pre-flight, defaulting and upper-casing of the two currency codes, the
 * identity shortcut, a USD-source branch that reads a direct quote without
 * inverting it, and a cross-rate branch through the US dollar.
 */
module ExchangeRateEndpoint {
  import opened Common
  import opened Text
  import opened Yahoo
  import opened FxQuotes
  import opened Http

  /** Codes quoted as dollars per unit in this copy of `get_usd_rate`. */
  const Majors := ["EUR", "GBP"]

  const OnlyUsdMessage := "Currently only supports conversion to/from USD."
  const NotDeterminedMessage := "Could not determine exchange rate."

  /** The source currency code after defaulting to "USD" and upper-casing. */
  function Source(req: Request): string {
    Upper(Param(Params(req.query), "source", "USD"))
  }

  /** The target code after defaulting to "USD" and upper-casing. */
  function Target(req: Request): string {
    Upper(Param(Params(req.query), "target", "USD"))
  }

  /**
   * The second symbol tried when the direct "<SOURCE><TARGET>=X" history is
   * empty: "<TARGET>=X" for a dollar source, "<SOURCE>=X" for a dollar
   * target, and no symbol (the 400 answer) when neither side is the dollar.
   */
  function FallbackPair(source: string, target: string): (r: Option<string>)
    ensures r.None? <==> source != "USD" && target != "USD"
    ensures source == "USD" ==> r == Some(QuoteSymbol(target))
    ensures source != "USD" && target == "USD" ==> r == Some(QuoteSymbol(source))
  {
    if source == "USD" then Some(QuoteSymbol(target))
    else if target == "USD" then Some(QuoteSymbol(source))
    else None
  }

  function NotFoundMessage(source: string, target: string, pair: string): string {
    "Could not find exchange rate for " + source + "/" + target + " (tried " + pair + ")"
  }

  /** The end of the USD-source branch: 404 naming the pair last tried, or its last close as the rate. */
  function SettleQuote(source: string, target: string, pair: string, bars: seq<Bar>): Response<RateBody> {
    if bars == [] then Response(404, Failure(NotFoundMessage(source, target, pair)))
    else Response(200, Quote(source, target, LastClose(bars), Some("latest")))
  }

  /**
   * The USD-source branch, with `pair` and `hist` reassigned as in
   * api/exchange_rate.py:57-84: first "<SOURCE><TARGET>=X", then, if that history is empty, the
   * fallback symbol. The close is used without inversion. Written for any
   * source so that the dead 400 alternative is visible; the handler only
   * enters it with source "USD".
   */
  function UsdSourceResponse(feed: HistoryFeed, source: string, target: string): (r: Response<RateBody>)
    ensures r.status == 400 <==>
      source != "USD" && target != "USD" && feed(source + target + "=X", OneDay) == Rows([])
  {
    var pair := source + target + "=X";
    match feed(pair, OneDay)
    case Failed(m) => Response(500, Failure(m))
    case Rows(bars) =>
      if bars != [] then SettleQuote(source, target, pair, bars)
      else
        match FallbackPair(source, target)
        case None => Response(400, Failure(OnlyUsdMessage))
        case Some(pair2) =>
          match feed(pair2, OneDay)
          case Failed(m) => Response(500, Failure(m))
          case Rows(bars2) => SettleQuote(source, target, pair2, bars2)
  }

  /** `handler(request)`; every exception inside the try block becomes a 500 carrying its message. */
  function Handle(req: Request, feed: HistoryFeed): Response<RateBody> {
    if IsPreflight(req) then Response(200, NoContent)
    else
      var source, target := Source(req), Target(req);
      if source == target then Response(200, Quote(source, target, 1.0, Some("latest")))
      else if source == "USD" then UsdSourceResponse(feed, source, target)
      else CrossResponse(feed, Majors, source, target, NotDeterminedMessage)
  }

  /** OPTIONS is answered 200 with an empty body, whatever the parameters. */
  lemma OptionsPreflight(req: Request, feed: HistoryFeed)
    requires IsPreflight(req)
    ensures Handle(req, feed) == Response(200, NoContent)
  {
  }

  /** Equal codes (after defaulting and upper-casing) give exactly 1.0, and the answer does not depend on the feed. */
  lemma EqualCurrencies(req: Request, f1: HistoryFeed, f2: HistoryFeed)
    requires !IsPreflight(req) && Source(req) == Target(req)
    ensures Handle(req, f1) == Handle(req, f2)
    ensures Handle(req, f1) == Response(200, Quote(Source(req), Target(req), 1.0, Some("latest")))
  {
  }

  /** With no parameters at all, both codes default to "USD" and the rate is 1.0. */
  lemma DefaultsToDollar(feed: HistoryFeed)
    ensures Handle(Request(Some("GET"), Url(map[])), feed) == Response(200, Quote("USD", "USD", 1.0, Some("latest")))
  {
    assert Upper("USD") == "USD";
  }

  /** A dollar source reads the last close of "USD<TARGET>=X" as the rate, without inverting it. */
  lemma UsdSourceDirectQuote(req: Request, feed: HistoryFeed)
    requires !IsPreflight(req) && Source(req) == "USD" && Target(req) != "USD"
    requires feed("USD" + Target(req) + "=X", OneDay).Rows?
    requires feed("USD" + Target(req) + "=X", OneDay).bars != []
    ensures Handle(req, feed) == Response(200,
      Quote("USD", Target(req), LastClose(feed("USD" + Target(req) + "=X", OneDay).bars), Some("latest")))
  {
  }

  /** When the direct history is empty, the last close of "<TARGET>=X" is the rate, again not inverted. */
  lemma UsdSourceFallbackQuote(req: Request, feed: HistoryFeed)
    requires !IsPreflight(req) && Source(req) == "USD" && Target(req) != "USD"
    requires feed("USD" + Target(req) + "=X", OneDay) == Rows([])
    requires feed(QuoteSymbol(Target(req)), OneDay).Rows?
    requires feed(QuoteSymbol(Target(req)), OneDay).bars != []
    ensures Handle(req, feed) == Response(200,
      Quote("USD", Target(req), LastClose(feed(QuoteSymbol(Target(req)), OneDay).bars), Some("latest")))
  {
  }

  /** When both dollar-source histories are empty the answer is 404 naming "<TARGET>=X", the last pair tried. */
  lemma UsdSourceNotFound(req: Request, feed: HistoryFeed)
    requires !IsPreflight(req) && Source(req) == "USD" && Target(req) != "USD"
    requires feed("USD" + Target(req) + "=X", OneDay) == Rows([])
    requires feed(QuoteSymbol(Target(req)), OneDay) == Rows([])
    ensures Handle(req, feed) ==
      Response(404, Failure(NotFoundMessage("USD", Target(req), QuoteSymbol(Target(req)))))
  {
  }

  /**
   * The 400 "only supports conversion to/from USD" answer is unreachable: the
   * branch that holds it is entered only with source "USD", where the
   * fallback symbol always exists.
   */
  lemma NeverAnswers400(req: Request, feed: HistoryFeed)
    ensures Handle(req, feed).status != 400
  {
  }

  /**
   * A non-dollar source goes through the dollar: the rate is usd(source) /
   * usd(target) with EUR and GBP as majors, a missing value is a 404, and a
   * zero usd(target) or a raising lookup is a 500.
   */
  lemma NonUsdSourceCrossRate(req: Request, feed: HistoryFeed)
    requires !IsPreflight(req) && Source(req) != Target(req) && Source(req) != "USD"
    ensures var r := Handle(req, feed);
      var vs, vt := UsdValue(feed, Majors, Source(req)), UsdValue(feed, Majors, Target(req));
      && (r.status == 200 <==> vs.Ok? && vs.value.Some? && vt.Ok? && vt.value.Some? && vt.value.value != 0.0)
      && (r.status == 200 ==> r.body.Quote? && r.body.rate * vt.value.value == vs.value.value)
      && (r.status == 404 <==> vs.Ok? && vt.Ok? && (vs.value.None? || vt.value.None?))
      && (r.status == 404 ==> r.body == Failure(NotDeterminedMessage))
  {
  }
}
