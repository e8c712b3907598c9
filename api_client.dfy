/**
 * The browser client's request layer (public/js/api.js). `_fetch` copies
 * the given parameters onto the search parameters of the request URL,
 * skipping null, undefined and empty values, and settles with the parsed
 * body of an OK answer or with an error whose message is the body's
 * `error`, else a status line. The wrappers name the endpoint and the
 * parameters. What the server reads back from the URL (Flask's
 * `request.args.get`, or `parse_qs(...)[0]`) is the first value of each
 * name, so the model ends in the map the handlers are given.
 */
module ApiClient {
  import opened Common
  import opened Text
  import opened Http
  import opened Handlers

  /** A parameter value: `undefined`, `null`, or text (a number reaches `set` as its text). */
  datatype Arg = Undefined | Null | Given(text: string)

  /** `v != null && v !== ''`: the value is put on the URL. */
  predicate Sent(a: Arg) {
    a.Given? && a.text != ""
  }

  /** `v || undefined` for a text-or-nullish value: everything falsy becomes `undefined`. */
  function OrUndefined(a: Arg): (r: Arg)
    ensures Sent(r) <==> Sent(a)
    ensures Sent(a) ==> r == a
    ensures !Sent(a) ==> r == Undefined
  {
    if Sent(a) then a else Undefined
  }

  // ---- URLSearchParams ----

  /** A name-value pair of a URL's search parameters. */
  type Entry = (string, string)

  /** The values listed under `name`, in order. */
  function Values(es: seq<Entry>, name: string): seq<string> {
    if es == [] then []
    else Values(es[..|es| - 1], name) + (if es[|es| - 1].0 == name then [es[|es| - 1].1] else [])
  }

  lemma {:induction false} ValuesPrepend(e: Entry, es: seq<Entry>, name: string)
    ensures Values([e] + es, name) == (if e.0 == name then [e.1] else []) + Values(es, name)
  {
    if es != [] {
      assert ([e] + es)[..|[e] + es| - 1] == [e] + es[..|es| - 1];
      ValuesPrepend(e, es[..|es| - 1], name);
    } else {
      assert ([e] + es)[..0] == [];
    }
  }

  /** The pairs not named `name`. */
  function Drop(es: seq<Entry>, name: string): (r: seq<Entry>)
    ensures Values(r, name) == []
    ensures forall other :: other != name ==> Values(r, other) == Values(es, other)
  {
    if es == [] then []
    else
      var rest := Drop(es[1..], name);
      ValuesPrepend(es[0], es[1..], name);
      assert es == [es[0]] + es[1..];
      forall other | other != name
        ensures Values(if es[0].0 == name then rest else [es[0]] + rest, other) == Values(es, other)
      {
        ValuesPrepend(es[0], es[1..], other);
        ValuesPrepend(es[0], rest, other);
      }
      if es[0].0 == name then rest else ValuesPrepend(es[0], rest, name); [es[0]] + rest
  }

  /** The first pair named `name` takes the new value and the later ones go. */
  function ReplaceFirst(es: seq<Entry>, name: string, value: string): (r: seq<Entry>)
    requires Values(es, name) != []
    ensures Values(r, name) == [value]
    ensures forall other :: other != name ==> Values(r, other) == Values(es, other)
  {
    assert es != [];
    assert es == [es[0]] + es[1..];
    ValuesPrepend(es[0], es[1..], name);
    if es[0].0 == name then
      var rest := Drop(es[1..], name);
      ValuesPrepend((name, value), rest, name);
      forall other | other != name
        ensures Values([(name, value)] + rest, other) == Values(es, other)
      {
        ValuesPrepend((name, value), rest, other);
        ValuesPrepend(es[0], es[1..], other);
      }
      [(name, value)] + rest
    else
      var rest := ReplaceFirst(es[1..], name, value);
      ValuesPrepend(es[0], rest, name);
      forall other | other != name
        ensures Values([es[0]] + rest, other) == Values(es, other)
      {
        ValuesPrepend(es[0], rest, other);
        ValuesPrepend(es[0], es[1..], other);
      }
      [es[0]] + rest
  }

  /**
   * `searchParams.set(name, value)`: afterwards `name` has exactly the one
   * value given, at the place of its first pair or appended when it had
   * none, and every other name keeps its values.
   */
  function SetEntry(es: seq<Entry>, name: string, value: string): (r: seq<Entry>)
    ensures Values(r, name) == [value]
    ensures forall other :: other != name ==> Values(r, other) == Values(es, other)
    ensures Values(es, name) == [] ==> r == es + [(name, value)]
  {
    if Values(es, name) == [] then
      var r := es + [(name, value)];
      assert r[..|r| - 1] == es;
      r
    else ReplaceFirst(es, name, value)
  }

  /** The search parameters of the request URL, which `_fetch` fills. */
  class SearchParams {
    var entries: seq<Entry>

    constructor ()
      ensures entries == []
    {
      entries := [];
    }

    method Set(name: string, value: string)
      modifies this
      ensures entries == SetEntry(old(entries), name, value)
    {
      entries := SetEntry(entries, name, value);
    }
  }

  // ---- _fetch ----

  /** One `forEach` step: the pair is set when its value is sent. */
  function Apply(es: seq<Entry>, p: (string, Arg)): seq<Entry> {
    if Sent(p.1) then SetEntry(es, p.0, p.1.text) else es
  }

  /** The `forEach` over `Object.entries(params)`, in order. */
  function ApplyAll(es: seq<Entry>, params: seq<(string, Arg)>): seq<Entry> {
    if params == [] then es else Apply(ApplyAll(es, params[..|params| - 1]), params[|params| - 1])
  }

  /** `Object.entries(params).forEach(([k, v]) => { if (v != null && v !== '') url.searchParams.set(k, v); })`. */
  method AddParams(url: SearchParams, params: seq<(string, Arg)>)
    modifies url
    ensures url.entries == ApplyAll(old(url.entries), params)
  {
    for i := 0 to |params|
      invariant url.entries == ApplyAll(old(url.entries), params[..i])
    {
      assert params[..i + 1][..i] == params[..i];
      var (name, value) := params[i];
      if Sent(value) {
        url.Set(name, value.text);
      }
    }
    assert params[..|params|] == params;
  }

  /** The last sent value given for `name`, if any. */
  function LastSent(params: seq<(string, Arg)>, name: string): (r: Option<string>)
    ensures r.Some? ==> r.value != ""
  {
    if params == [] then None
    else
      var p := params[|params| - 1];
      if p.0 == name && Sent(p.1) then Some(p.1.text) else LastSent(params[..|params| - 1], name)
  }

  /**
   * After the loop a name has one value, the last sent one given for it, or
   * keeps what it had when none was sent: null, undefined and '' never
   * reach the URL.
   */
  lemma {:induction false} ApplyAllValues(es: seq<Entry>, params: seq<(string, Arg)>, name: string)
    ensures LastSent(params, name).Some? ==> Values(ApplyAll(es, params), name) == [LastSent(params, name).value]
    ensures LastSent(params, name).None? ==> Values(ApplyAll(es, params), name) == Values(es, name)
  {
    if params != [] {
      ApplyAllValues(es, params[..|params| - 1], name);
    }
  }

  /** The value a single pair puts on the URL. */
  function SentValue(a: Arg): (r: Option<string>)
    ensures r.Some? <==> Sent(a)
  {
    if Sent(a) then Some(a.text) else None
  }

  /** A name given once is sent with that pair's value. */
  lemma {:induction false} LastSentOnce(params: seq<(string, Arg)>, name: string, i: nat)
    requires i < |params| && params[i].0 == name
    requires forall j :: 0 <= j < |params| && j != i ==> params[j].0 != name
    ensures LastSent(params, name) == SentValue(params[i].1)
  {
    if i < |params| - 1 {
      LastSentOnce(params[..|params| - 1], name, i);
    }
    else if |params| > 1 {
      LastSentNever(params[..|params| - 1], name);
    }
  }

  /** A name never given is not sent. */
  lemma {:induction false} LastSentNever(params: seq<(string, Arg)>, name: string)
    requires forall j :: 0 <= j < |params| ==> params[j].0 != name
    ensures LastSent(params, name) == None
  {
    if params != [] {
      LastSentNever(params[..|params| - 1], name);
    }
  }

  /**
   * What a handler reads from the URL: the first value of each name, as
   * both `request.args.get(name)` and `parse_qs(query)[name][0]` give it.
   */
  function ServerArgs(es: seq<Entry>): (args: map<string, string>)
    ensures forall name :: name in args <==> Values(es, name) != []
    ensures forall name :: name in args ==> args[name] == Values(es, name)[0]
  {
    if es == [] then map[]
    else
      var front := ServerArgs(es[..|es| - 1]);
      var e := es[|es| - 1];
      if e.0 in front then front else front[e.0 := e.1]
  }

  /** The arguments the handler of a request built from these parameters sees. */
  function QueryOf(params: seq<(string, Arg)>): map<string, string> {
    ServerArgs(ApplyAll([], params))
  }

  /** A handler sees a name exactly when a non-empty value was sent for it, and then the last one sent. */
  lemma {:induction false} QueryCarriesSentValues(params: seq<(string, Arg)>, name: string)
    ensures Lookup(QueryOf(params), name) == LastSent(params, name)
  {
    ApplyAllValues([], params, name);
    assert Values([], name) == [];
  }

  /** How `_fetch` settles: the parsed body, or an `Error` with its message. */
  datatype Outcome<T> = Resolved(data: T) | Rejected(message: string)

  /** `Request failed with status ${response.status}`. */
  function FailureMessage(status: nat): string {
    "Request failed with status " + ShowNat(status)
  }

  /** `response.ok`: a 2xx status. */
  predicate IsOk(status: nat) {
    200 <= status <= 299
  }

  /**
   * After the body is parsed: an OK answer resolves with it; any other
   * throws `Error(data.error || ...)`, so the message is the body's error
   * text when it is non-empty and the status line otherwise.
   */
  function Settle<T>(status: nat, error: Arg, data: T): (r: Outcome<T>)
    ensures r.Resolved? <==> IsOk(status)
    ensures r.Resolved? ==> r.data == data
    ensures r.Rejected? && Sent(error) ==> r.message == error.text
    ensures r.Rejected? && !Sent(error) ==> r.message == FailureMessage(status)
    ensures r.Rejected? ==> |r.message| > 0
  {
    if IsOk(status) then Resolved(data)
    else if Sent(error) then Rejected(error.text)
    else Rejected(FailureMessage(status))
  }

  /** A failed request whose body names no error still reports its status, in decimal. */
  lemma {:induction false} StatusLineNamesStatus(status: nat)
    requires !IsOk(status)
    ensures Settle(status, Undefined, 0).Rejected?
    ensures var m := Settle(status, Undefined, 0).message;
      m[..27] == "Request failed with status " && AllDigits(m[27..]) && DigitsValue(m[27..]) == status
  {
    var m := FailureMessage(status);
    assert m[27..] == ShowNat(status);
    ShowNatDigits(status);
  }

  /** A name given once reaches the handler with that pair's sent value, or not at all. */
  lemma QueryOfOnce(params: seq<(string, Arg)>, name: string, i: nat)
    requires i < |params| && params[i].0 == name
    requires forall j :: 0 <= j < |params| && j != i ==> params[j].0 != name
    ensures Lookup(QueryOf(params), name) == SentValue(params[i].1)
  {
    QueryCarriesSentValues(params, name);
    LastSentOnce(params, name, i);
  }

  /** A name never given does not reach the handler. */
  lemma QueryOfNever(params: seq<(string, Arg)>, name: string)
    requires forall j :: 0 <= j < |params| ==> params[j].0 != name
    ensures name !in QueryOf(params)
  {
    QueryCarriesSentValues(params, name);
    LastSentNever(params, name);
  }

  // ---- the endpoint wrappers ----

  /** A request: the endpoint under `/api` and the parameters, in the order written. */
  datatype Call = Call(endpoint: string, params: seq<(string, Arg)>)

  /** `getMarketData(ticker, period = '1y')`: the default applies only when `period` is undefined. */
  function GetMarketData(ticker: Arg, period: Arg): (c: Call)
    ensures c.endpoint == "/market_data"
    ensures Lookup(QueryOf(c.params), "ticker") == SentValue(ticker)
    ensures period.Undefined? ==> Lookup(QueryOf(c.params), "period") == Some("1y")
    ensures !period.Undefined? ==> Lookup(QueryOf(c.params), "period") == SentValue(period)
  {
    var c := Call("/market_data", [("ticker", ticker), ("period", if period.Undefined? then Given("1y") else period)]);
    QueryOfOnce(c.params, "ticker", 0);
    QueryOfOnce(c.params, "period", 1);
    c
  }

  /** Whatever period the caller leaves out, undefined, null or empty, the handler uses one year. */
  lemma DefaultPeriodIsOneYear(ticker: Arg, period: Arg)
    requires !Sent(period)
    ensures Param(QueryOf(GetMarketData(ticker, period).params), "period", "1y") == "1y"
  {
  }

  /** `priceOption(ticker, optionType, strike, daysToExpiry)`: a falsy strike is left off. */
  function PriceOption(ticker: Arg, optionType: Arg, strike: Arg, days: Arg): (c: Call)
    ensures c.endpoint == "/price_option"
    ensures Lookup(QueryOf(c.params), "ticker") == SentValue(ticker)
    ensures Lookup(QueryOf(c.params), "option_type") == SentValue(optionType)
    ensures Lookup(QueryOf(c.params), "strike") == SentValue(strike)
    ensures Lookup(QueryOf(c.params), "days_to_expiry") == SentValue(days)
  {
    var c := Call("/price_option", [("ticker", ticker), ("option_type", optionType), ("strike", OrUndefined(strike)),
      ("days_to_expiry", days)]);
    QueryOfOnce(c.params, "ticker", 0);
    QueryOfOnce(c.params, "option_type", 1);
    QueryOfOnce(c.params, "strike", 2);
    QueryOfOnce(c.params, "days_to_expiry", 3);
    c
  }

  /** `getOptionsChain(ticker, expiry)`: a falsy expiry is left off. */
  function GetOptionsChain(ticker: Arg, expiry: Arg): (c: Call)
    ensures c.endpoint == "/options_chain"
    ensures Lookup(QueryOf(c.params), "ticker") == SentValue(ticker)
    ensures Lookup(QueryOf(c.params), "expiry") == SentValue(expiry)
    ensures "only_expiries" !in QueryOf(c.params)
  {
    var c := Call("/options_chain", [("ticker", ticker), ("expiry", OrUndefined(expiry))]);
    QueryOfOnce(c.params, "ticker", 0);
    QueryOfOnce(c.params, "expiry", 1);
    QueryOfNever(c.params, "only_expiries");
    c
  }

  /** `getExpiries(ticker)`: the chain endpoint with `only_expiries` 'true'. */
  function GetExpiries(ticker: Arg): (c: Call)
    ensures c.endpoint == "/options_chain"
    ensures Lookup(QueryOf(c.params), "ticker") == SentValue(ticker)
    ensures Lookup(QueryOf(c.params), "only_expiries") == Some("true")
    ensures "expiry" !in QueryOf(c.params)
  {
    var c := Call("/options_chain", [("ticker", ticker), ("only_expiries", Given("true"))]);
    QueryOfOnce(c.params, "ticker", 0);
    QueryOfOnce(c.params, "only_expiries", 1);
    QueryOfNever(c.params, "expiry");
    c
  }

  /** `getExchangeRate(source, target)`. */
  function GetExchangeRate(source: Arg, target: Arg): (c: Call)
    ensures c.endpoint == "/exchange_rate"
    ensures Lookup(QueryOf(c.params), "source") == SentValue(source)
    ensures Lookup(QueryOf(c.params), "target") == SentValue(target)
  {
    var c := Call("/exchange_rate", [("source", source), ("target", target)]);
    QueryOfOnce(c.params, "source", 0);
    QueryOfOnce(c.params, "target", 1);
    c
  }

  // ---- what the handlers make of these requests ----

  /** The expiry request is answered with the expiry list only. */
  lemma ExpiriesRequestAsksForList(ticker: Arg)
    ensures OnlyExpiries(QueryOf(GetExpiries(ticker).params))
  {
    var l := Lower("true");
    assert l[0] == 't' && l[1] == 'r' && l[2] == 'u' && l[3] == 'e';
    assert l == "true";
  }

  /** A chain request never asks for the expiry list alone, and without an expiry the server picks the first. */
  lemma ChainRequestAsksForChain(ticker: Arg, expiry: Arg)
    ensures !OnlyExpiries(QueryOf(GetOptionsChain(ticker, expiry).params))
    ensures !Sent(expiry) ==> "expiry" !in QueryOf(GetOptionsChain(ticker, expiry).params)
  {
    FullChainByDefault(QueryOf(GetOptionsChain(ticker, expiry).params));
  }

  /** An empty or null strike is not sent, so the handler prices at the spot. */
  lemma BlankStrikeIsNotSent(ticker: Arg, optionType: Arg, strike: Arg, days: Arg)
    requires !Sent(strike)
    ensures "strike" !in QueryOf(PriceOption(ticker, optionType, strike, days).params)
  {
  }
}
