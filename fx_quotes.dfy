/**
 * Exchange-rate derivation shared by the three exchange-rate endpoints
 * (server.py, api/main.py, api/exchange_rate.py). Each copy asks the feed for
 * the one-day history of "<CODE>=X" and turns its last close into the number
 * of US dollars one unit of the currency is worth; the copies differ only in
 * which codes they treat as "majors" (quoted as USD per unit) and in their
 * 404 message, so both are parameters here.
 */
module FxQuotes {
  import opened Common
  import opened Yahoo

  /** The JSON bodies an exchange-rate endpoint answers with. */
  datatype RateBody =
    | NoContent
    | Quote(source: string, target: string, rate: real, timestamp: Option<string>)
    | Failure(message: string)

  /** What `str(e)` gives for Python's ZeroDivisionError on a float division. */
  const ZeroDivisionMessage := "float division by zero"

  /** What `str(e)` gives for Python's ZeroDivisionError when both operands are ints. */
  const IntZeroDivisionMessage := "division by zero"

  /** The history period every exchange-rate lookup asks for. */
  const OneDay := "1d"

  /** Yahoo's symbol for a currency against the dollar, "<CODE>=X". */
  function QuoteSymbol(currency: string): string {
    currency + "=X"
  }

  /**
   * `get_usd_rate(currency)`: the US-dollar value of one unit of `currency`.
   * USD is worth 1.0 without any lookup. Otherwise the last one-day close of
   * "<CODE>=X" is used as it is for a major and inverted for any other code
   * (a zero close gives 0); an empty history gives None; an exception raised
   * by the lookup propagates.
   */
  function UsdValue(feed: HistoryFeed, majors: seq<string>, currency: string): (r: Result<Option<real>>)
    ensures currency == "USD" ==> r == Ok(Some(1.0))
    ensures currency != "USD" && feed(QuoteSymbol(currency), OneDay).Failed? ==>
      r == Raised(feed(QuoteSymbol(currency), OneDay).message)
    ensures currency != "USD" && feed(QuoteSymbol(currency), OneDay).Rows? ==>
      var bars := feed(QuoteSymbol(currency), OneDay).bars;
      && (bars == [] <==> r == Ok(None))
      && (bars != [] && currency in majors ==> r == Ok(Some(LastClose(bars))))
      && (bars != [] && currency !in majors && LastClose(bars) == 0.0 ==> r == Ok(Some(0.0)))
      && (bars != [] && currency !in majors && LastClose(bars) != 0.0 ==>
            r.Ok? && r.value.Some? && r.value.value * LastClose(bars) == 1.0)
  {
    if currency == "USD" then Ok(Some(1.0))
    else
      match feed(QuoteSymbol(currency), OneDay)
      case Failed(m) => Raised(m)
      case Rows(bars) =>
        if bars == [] then Ok(None)
        else
          var val := LastClose(bars);
          if currency in majors then Ok(Some(val))
          else if val == 0.0 then Ok(Some(0.0))
          else Ok(Some(1.0 / val))
  }

  /**
   * `get_usd_rate` answers the int `0`, not a float, for a non-major whose
   * last close is zero (`if val == 0: return 0`).
   */
  predicate IsIntZero(feed: HistoryFeed, majors: seq<string>, currency: string) {
    && currency != "USD" && currency !in majors
    && feed(QuoteSymbol(currency), OneDay).Rows?
    && feed(QuoteSymbol(currency), OneDay).bars != []
    && LastClose(feed(QuoteSymbol(currency), OneDay).bars) == 0.0
  }

  /** The int answer is the zero value. */
  lemma IntZeroIsZero(feed: HistoryFeed, majors: seq<string>, currency: string)
    requires IsIntZero(feed, majors, currency)
    ensures UsdValue(feed, majors, currency) == Ok(Some(0.0))
  {
  }

  /** The value of the dollar never depends on the feed: no lookup is made for it. */
  lemma UsdNeedsNoLookup(f1: HistoryFeed, f2: HistoryFeed, majors: seq<string>)
    ensures UsdValue(f1, majors, "USD") == UsdValue(f2, majors, "USD") == Ok(Some(1.0))
  {
  }

  /**
   * `rate_s / rate_t`; a zero divisor raises ZeroDivisionError, whose text
   * is "division by zero" when both operands are ints and "float division
   * by zero" otherwise.
   */
  function CrossRate(rateS: real, rateT: real, bothInts: bool): (r: Result<real>)
    ensures rateT == 0.0 <==> r.Raised?
    ensures r.Raised? ==> r.message == if bothInts then IntZeroDivisionMessage else ZeroDivisionMessage
    ensures r.Ok? ==> r.value * rateT == rateS
  {
    if rateT == 0.0 then Raised(if bothInts then IntZeroDivisionMessage else ZeroDivisionMessage)
    else Ok(rateS / rateT)
  }

  /** Converting one way and back multiplies to one: the rates of s→t and t→s are reciprocal. */
  lemma CrossRateReciprocal(a: real, b: real)
    requires a != 0.0 && b != 0.0
    ensures CrossRate(a, b, false).Ok? && CrossRate(b, a, false).Ok?
    ensures CrossRate(a, b, false).value * CrossRate(b, a, false).value == 1.0
  {
    assert CrossRate(a, b, false).value == a / b;
    assert CrossRate(b, a, false).value == b / a;
    assert (a / b) * (b / a) == 1.0;
  }

  /**
   * The cross-rate tail of every copy of the endpoint, for source != target:
   * both USD values are looked up (source first); an exception in either
   * becomes a 500 with its message; a missing value for either becomes a 404
   * with `notFound`; otherwise the rate is rate_s / rate_t, stamped "latest",
   * and a zero rate_t raises, which becomes a 500 (with the int message
   * when both values are the int 0).
   */
  function CrossResponse(feed: HistoryFeed, majors: seq<string>, source: string, target: string, notFound: string)
    : (r: Response<RateBody>)
    ensures r.status in {200, 404, 500}
    ensures r.status == 200 <==>
      (&& UsdValue(feed, majors, source).Ok? && UsdValue(feed, majors, source).value.Some?
       && UsdValue(feed, majors, target).Ok? && UsdValue(feed, majors, target).value.Some?
       && UsdValue(feed, majors, target).value.value != 0.0)
    ensures r.status == 200 ==>
      r.body.Quote? && r.body.source == source && r.body.target == target
      && r.body.timestamp == Some("latest")
      && r.body.rate * UsdValue(feed, majors, target).value.value == UsdValue(feed, majors, source).value.value
    ensures r.status == 404 <==>
      (&& UsdValue(feed, majors, source).Ok? && UsdValue(feed, majors, target).Ok?
       && (UsdValue(feed, majors, source).value.None? || UsdValue(feed, majors, target).value.None?))
    ensures r.status == 404 ==> r.body == Failure(notFound)
    ensures && UsdValue(feed, majors, source).Ok? && UsdValue(feed, majors, source).value.Some?
            && UsdValue(feed, majors, target).Ok? && UsdValue(feed, majors, target).value == Some(0.0) ==>
      r == Response(500, Failure(
        if IsIntZero(feed, majors, source) && IsIntZero(feed, majors, target) then IntZeroDivisionMessage
        else ZeroDivisionMessage))
  {
    match UsdValue(feed, majors, source)
    case Raised(m) => Response(500, Failure(m))
    case Ok(rateS) =>
      match UsdValue(feed, majors, target)
      case Raised(m) => Response(500, Failure(m))
      case Ok(rateT) =>
        if rateS.None? || rateT.None? then Response(404, Failure(notFound))
        else
          var bothInts := IsIntZero(feed, majors, source) && IsIntZero(feed, majors, target);
          match CrossRate(rateS.value, rateT.value, bothInts)
          case Raised(m) => Response(500, Failure(m))
          case Ok(rate) => Response(200, Quote(source, target, rate, Some("latest")))
  }

  /**
   * Two non-major codes whose last closes are both zero divide the int 0
   * by the int 0: the 500 carries Python's int message.
   */
  lemma ZeroNonMajorsDivideInts(feed: HistoryFeed, majors: seq<string>, source: string, target: string, notFound: string)
    requires IsIntZero(feed, majors, source) && IsIntZero(feed, majors, target)
    ensures CrossResponse(feed, majors, source, target, notFound) == Response(500, Failure(IntZeroDivisionMessage))
  {
    IntZeroIsZero(feed, majors, source);
    IntZeroIsZero(feed, majors, target);
  }
}
