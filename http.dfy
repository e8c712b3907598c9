/**
 * Request handling shared by the API handlers: the query parameters a
 * serverless handler reads (api/exchange_rate.py, api/options_chain.py,
 * api/market_data.py), Flask's `request.args` (server.py, api/main.py),
 * and the ticker normalisation and messages every handler repeats.
 */
module Http {
  import opened Common
  import opened Text

  /**
   * Where a serverless handler finds its query: `request.url`, split by
   * `parse_qs` (here the first value of each field, blank ones included),
   * `request.args`, or neither.
   */
  datatype Query = Url(fields: map<string, string>) | Args(args: map<string, string>) | NoQuery

  /** A serverless request: its HTTP method when it has the attribute, and its query. */
  datatype Request = Request(verb: Option<string>, query: Query)

  /**
   * A serverless answer's body: empty (the pre-flight answer), a JSON
   * document, or the HTML error page `BaseHTTPRequestHandler.send_error`
   * writes around its explanation.
   */
  datatype Answer<B> = EmptyBody | Document(body: B) | ErrorPage(explain: string)

  /** `hasattr(request, "method") and request.method == "OPTIONS"`. */
  predicate IsPreflight(req: Request) {
    req.verb == Some("OPTIONS")
  }

  /**
   * The parameters a serverless handler sees: `parse_qs` drops a field whose
   * value is blank, `request.args` is taken as it is, and no query gives {}.
   */
  function Params(q: Query): (params: map<string, string>)
    ensures q.Url? ==> forall k :: k in params <==> k in q.fields && q.fields[k] != ""
    ensures q.Url? ==> forall k :: k in params ==> params[k] == q.fields[k]
    ensures q.Args? ==> params == q.args
    ensures q.NoQuery? ==> params == map[]
  {
    match q
    case Url(fields) => map k | k in fields && fields[k] != "" :: fields[k]
    case Args(args) => args
    case NoQuery => map[]
  }

  /** `params.get(key, [default])[0]` and Flask's `request.args.get(key, default)`. */
  function Param(params: map<string, string>, key: string, default: string): (v: string)
    ensures key in params ==> v == params[key]
    ensures key !in params ==> v == default
  {
    if key in params then params[key] else default
  }

  /** `params.get(key, [None])[0]` and Flask's `request.args.get(key)`. */
  function Lookup(params: map<string, string>, key: string): (v: Option<string>)
    ensures v.Some? <==> key in params
    ensures v.Some? ==> v.value == params[key]
  {
    if key in params then Some(params[key]) else None
  }

  /** Python's `not v` for a parameter: absent or empty. */
  predicate Absent(v: Option<string>) {
    v.None? || v.value == ""
  }

  /** `ticker.strip().upper()`. */
  function NormalizeTicker(t: string): string {
    Upper(Strip(t))
  }

  /** Normalising a ticker twice changes nothing. */
  lemma NormalizeTickerIdempotent(t: string)
    ensures NormalizeTicker(NormalizeTicker(t)) == NormalizeTicker(t)
  {
    UpperStripCommute(Strip(t));
    StripIdempotent(t);
    UpperIdempotent(Strip(Strip(t)));
  }

  const MissingTickerMessage := "Missing required parameter: ticker"
  const MissingDaysMessage := "Missing required parameter: days_to_expiry"
  const MissingBothMessage := "Missing required parameters: ticker and days_to_expiry"
  const OptionTypeMessage := "option_type must be 'call' or 'put'"
  const DaysMessage := "days_to_expiry must be a positive integer"

  function InvalidTickerMessage(ticker: string): string {
    "Invalid or unsupported ticker: " + ticker
  }

  /** What `str(e)` gives for the ValueError of `float(s)` on a string Python cannot read. */
  function FloatErrorMessage(s: string): string {
    "could not convert string to float: " + Repr(s)
  }

  /**
   * `int(days)` followed by the `<= 0` check: the number of days when the
   * text is an integer above zero.
   */
  function PositiveDays(days: string): (r: Option<int>)
    ensures r.Some? <==> ParseInt(days).Some? && ParseInt(days).value > 0
    ensures r.Some? ==> r.value == ParseInt(days).value && r.value >= 1
  {
    match ParseInt(days)
    case Some(n) => if n <= 0 then None else Some(n)
    case None => None
  }

  /** Every positive day count written in decimal is accepted as that count. */
  lemma PositiveDaysOfShown(n: int)
    requires n > 0
    ensures PositiveDays(ShowInt(n)) == Some(n)
  {
    ParseShowInt(n);
  }
}
