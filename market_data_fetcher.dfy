/**
 * `MarketDataFetcher` (lib/market_data_fetcher.py): lazily cached spot
 * price, volatility, dividend yield and info dict for one ticker, the
 * risk-free rate, the stock summary, the historical bars, and the
 * option-chain tables turned into records.
 *
 * yfinance is a `Provider` value: what the service answers at the moment of
 * a call. A cached property reads the provider only while its cache is
 * empty, so a later read returns the first value even if the provider has
 * changed since.
 */
module MarketData {
  import opened Common
  import opened Text
  import opened Numeric
  import opened Yahoo

  /** A value of yfinance's `info` dict, which comes from a JSON document (so it is never NaN). */
  datatype Json = JNull | JNum(x: real) | JStr(s: string) | JBool(b: bool) | JOther

  type Info = map<string, Json>

  /** A cell of a pandas option-chain table. */
  datatype Cell = CNull | CNum(x: real) | CNaN | CInf | CStr(s: string) | CBool(b: bool)

  /** One row of an option-chain table, by column name. */
  type ChainRow = map<string, Cell>

  /** `stock.option_chain(expiry)`: the calls and puts tables; None stands for a table that is None. */
  datatype ChainTables = ChainTables(calls: Option<seq<ChainRow>>, puts: Option<seq<ChainRow>>)

  /** yfinance as the fetcher sees it at the moment of a call. */
  datatype Provider = Provider(
    history: HistoryFeed,
    info: string -> Result<Info>,
    options: string -> Result<seq<string>>,
    optionChain: (string, string) -> Result<ChainTables>,
    /** `std` of the daily log returns times sqrt(252): transcendental, so supplied with the provider. */
    annualisedVolatility: seq<Bar> -> real)

  /** The symbol of the 13-week Treasury bill index. */
  const TreasuryBill := "^IRX"
  const FallbackRiskFreeRate := 0.05

  /** `validate_ticker(ticker)[0]`: the five-day history can be read and is not empty. */
  predicate ValidTicker(p: Provider, ticker: string) {
    p.history(ticker, "5d").Rows? && p.history(ticker, "5d").bars != []
  }

  // ---- what each property computes when its cache is empty ----

  /** `_get_info()` on an empty cache: the info dict, or {} when reading it raises. */
  function InfoOf(p: Provider, ticker: string): Info {
    match p.info(ticker)
    case Ok(info) => info
    case Raised(_) => map[]
  }

  /** `spot_price` on an empty cache: the last five-day close; an empty history raises. */
  function SpotPriceOf(p: Provider, ticker: string): (r: Result<real>)
    ensures r.Ok? <==> ValidTicker(p, ticker)
    ensures r.Ok? ==> r.value == LastClose(p.history(ticker, "5d").bars)
  {
    match p.history(ticker, "5d")
    case Failed(m) => Raised(m)
    case Rows(bars) =>
      if bars == [] then Raised("No price data available for " + ticker) else Ok(LastClose(bars))
  }

  /** `historical_volatility` on an empty cache: needs at least ten one-year bars, else raises. */
  function VolatilityOf(p: Provider, ticker: string): (r: Result<real>)
    ensures r.Ok? <==> p.history(ticker, "1y").Rows? && |p.history(ticker, "1y").bars| >= 10
  {
    match p.history(ticker, "1y")
    case Failed(m) => Raised(m)
    case Rows(bars) =>
      if bars == [] || |bars| < 10 then Raised("Insufficient historical data for " + ticker)
      else Ok(p.annualisedVolatility(bars))
  }

  /** Python truthiness of an info value. */
  predicate Falsy(v: Json) {
    v == JNull || v == JNum(0.0) || v == JStr("") || v == JBool(false)
  }

  /** `float(v)`; None where Python raises. */
  function JsonFloat(v: Json): Option<real> {
    match v
    case JNum(x) => Some(x)
    case JStr(s) => ParseDecimal(s)
    case JBool(b) => Some(if b then 1.0 else 0.0)
    case _ => None
  }

  /**
   * `dividend_yield` on an empty cache: `float(info.get("dividendYield", 0) or 0)`,
   * and 0.0 when that raises.
   */
  function DividendYieldOf(info: Info): (r: real)
    ensures "dividendYield" !in info || Falsy(info["dividendYield"]) ==> r == 0.0
    ensures "dividendYield" in info && info["dividendYield"].JNum? ==> r == info["dividendYield"].x
  {
    var v := if "dividendYield" in info then info["dividendYield"] else JNum(0.0);
    var w := if Falsy(v) then JNum(0.0) else v;
    match JsonFloat(w)
    case Some(x) => x
    case None => 0.0
  }

  /** `get_risk_free_rate()`: the last ^IRX close over 100, else the 0.05 fallback. */
  function RiskFreeRate(p: Provider): (r: real)
    ensures p.history(TreasuryBill, "5d").Rows? && p.history(TreasuryBill, "5d").bars != [] ==>
      r * 100.0 == LastClose(p.history(TreasuryBill, "5d").bars)
    ensures !(p.history(TreasuryBill, "5d").Rows? && p.history(TreasuryBill, "5d").bars != []) ==>
      r == FallbackRiskFreeRate
  {
    match p.history(TreasuryBill, "5d")
    case Rows(bars) => if bars != [] then LastClose(bars) / 100.0 else FallbackRiskFreeRate
    case Failed(_) => FallbackRiskFreeRate
  }

  /** `info.get(key, fallback)`. */
  function Get(info: Info, key: string, fallback: Json): Json {
    if key in info then info[key] else fallback
  }

  /** The summary `get_stock_info()` returns. */
  datatype StockInfo = StockInfo(
    ticker: string, name: Json, exchange: Json, currency: Json, sector: Json, industry: Json,
    marketCap: Json, spotPrice: real, historicalVolatility: real, dividendYield: real, riskFreeRate: real)

  /** The stock's display name: longName, else shortName, else the ticker. */
  function DisplayName(info: Info, ticker: string): (r: Json)
    ensures "longName" in info ==> r == info["longName"]
    ensures "longName" !in info && "shortName" in info ==> r == info["shortName"]
    ensures "longName" !in info && "shortName" !in info ==> r == JStr(ticker)
  {
    Get(info, "longName", Get(info, "shortName", JStr(ticker)))
  }

  /**
   * `get_stock_info()` with every cache empty: the spot price and then the
   * volatility may raise; the text fields default to "N/A", the currency to
   * "USD" and the market cap to None.
   */
  function StockInfoOf(p: Provider, ticker: string): (r: Result<StockInfo>)
    ensures r.Ok? <==> SpotPriceOf(p, ticker).Ok? && VolatilityOf(p, ticker).Ok?
    ensures r.Ok? ==>
      && r.value.currency == Get(InfoOf(p, ticker), "currency", JStr("USD"))
      && r.value.exchange == Get(InfoOf(p, ticker), "exchange", JStr("N/A"))
      && r.value.name == DisplayName(InfoOf(p, ticker), ticker)
      && r.value.spotPrice == SpotPriceOf(p, ticker).value
  {
    var info := InfoOf(p, ticker);
    Summarise(ticker, info, SpotPriceOf(p, ticker), VolatilityOf(p, ticker), DividendYieldOf(info), RiskFreeRate(p))
  }

  /**
   * The dict `get_stock_info` builds from the info and the four property
   * reads, in its order: the spot raises first, then the volatility.
   */
  function Summarise(ticker: string, info: Info, spot: Result<real>, vol: Result<real>, q: real, rate: real)
    : (r: Result<StockInfo>)
    ensures r.Ok? <==> spot.Ok? && vol.Ok?
    ensures spot.Raised? ==> r == Raised(spot.message)
    ensures spot.Ok? && vol.Raised? ==> r == Raised(vol.message)
    ensures r.Ok? ==>
      && r.value.ticker == ticker && r.value.name == DisplayName(info, ticker)
      && r.value.exchange == Get(info, "exchange", JStr("N/A")) && r.value.currency == Get(info, "currency", JStr("USD"))
      && r.value.spotPrice == spot.value && r.value.historicalVolatility == vol.value
      && r.value.dividendYield == q && r.value.riskFreeRate == rate
  {
    match spot
    case Raised(m) => Raised(m)
    case Ok(s) =>
      match vol
      case Raised(m) => Raised(m)
      case Ok(v) =>
        Ok(StockInfo(ticker, DisplayName(info, ticker), Get(info, "exchange", JStr("N/A")),
          Get(info, "currency", JStr("USD")), Get(info, "sector", JStr("N/A")),
          Get(info, "industry", JStr("N/A")), Get(info, "marketCap", JNull),
          s, v, q, rate))
  }

  // ---- historical bars ----

  /** One entry of `get_historical_data()`: prices rounded to cents, volume truncated to an integer. */
  datatype PriceRecord = PriceRecord(date: string, open: real, high: real, low: real, close: real, volume: int)

  function ToPriceRecord(b: Bar): PriceRecord {
    PriceRecord(b.date, RoundTo(b.open, 2), RoundTo(b.high, 2), RoundTo(b.low, 2), RoundTo(b.close, 2), Trunc(b.volume))
  }

  // ---- option chains ----

  /** `_safe_float(val, decimals)`: None for None, NaN, infinities and what `float()` rejects. */
  function SafeFloat(c: Cell, decimals: Option<nat>): (r: Option<real>)
    ensures c == CNull || c == CNaN || c == CInf ==> r == None
    ensures c.CNum? && decimals == None ==> r == Some(c.x)
    ensures c.CNum? && decimals.Some? ==> r == Some(RoundTo(c.x, decimals.value))
    ensures c.CStr? ==> (r.Some? <==> ParseDecimal(c.s).Some?)
  {
    var f: Option<real> :=
      match c
      case CNum(x) => Some(x)
      case CStr(s) => ParseDecimal(s)
      case CBool(b) => Some(if b then 1.0 else 0.0)
      case _ => None;
    match f
    case None => None
    case Some(x) => if decimals.Some? then Some(RoundTo(x, decimals.value)) else Some(x)
  }

  /** `row.get(key)`: None for a missing column. */
  function Column(row: ChainRow, key: string): Cell {
    if key in row then row[key] else CNull
  }

  /**
   * The volume/openInterest entry: `int(v) if pd.notna(v) else 0`. A
   * missing, None or NaN cell gives 0; `int()` of an infinity or of a
   * non-numeric string raises.
   */
  function CountOf(c: Cell): (r: Result<int>)
    ensures c == CNull || c == CNaN ==> r == Ok(0)
    ensures c.CNum? ==> r == Ok(Trunc(c.x))
    ensures r.Raised? <==> c.CInf? || (c.CStr? && ParseInt(c.s).None?)
    ensures c.CStr? && ParseInt(c.s).None? ==> r.message == IntErrorMessage(c.s) && Repr(c.s)[0] in {'\'', '"'}
  {
    match c
    case CNull => Ok(0)
    case CNaN => Ok(0)
    case CNum(x) => Ok(Trunc(x))
    case CInf => Raised("cannot convert float infinity to integer")
    case CBool(b) => Ok(if b then 1 else 0)
    case CStr(s) =>
      match ParseInt(s)
      case Some(n) => Ok(n)
      case None => Raised(IntErrorMessage(s))
  }

  /** Python truthiness of a cell: `bool(v)` (NaN is truthy). */
  function Truthy(c: Cell): bool {
    match c
    case CNull => false
    case CNum(x) => x != 0.0
    case CNaN => true
    case CInf => true
    case CStr(s) => s != ""
    case CBool(b) => b
  }

  /** One contract of an option chain as the API returns it. */
  datatype ContractRecord = ContractRecord(
    strike: Option<real>, lastPrice: Option<real>, bid: Option<real>, ask: Option<real>,
    volume: int, openInterest: int, impliedVolatility: Option<real>, inTheMoney: bool)

  /** The record for one row; raises where a count column does. */
  function ToContract(row: ChainRow): (r: Result<ContractRecord>)
    ensures r.Ok? <==> CountOf(Column(row, "volume")).Ok? && CountOf(Column(row, "openInterest")).Ok?
    ensures r.Ok? ==> r.value.inTheMoney == Truthy(Column(row, "inTheMoney"))
  {
    match CountOf(Column(row, "volume"))
    case Raised(m) => Raised(m)
    case Ok(vol) =>
      match CountOf(Column(row, "openInterest"))
      case Raised(m) => Raised(m)
      case Ok(oi) =>
        Ok(ContractRecord(
          SafeFloat(Column(row, "strike"), Some(2)), SafeFloat(Column(row, "lastPrice"), Some(4)),
          SafeFloat(Column(row, "bid"), Some(4)), SafeFloat(Column(row, "ask"), Some(4)),
          vol, oi, SafeFloat(Column(row, "impliedVolatility"), Some(4)),
          Truthy(Column(row, "inTheMoney"))))
  }

  /** Every row of the table converts without raising. */
  predicate AllConvert(rows: seq<ChainRow>) {
    forall i :: 0 <= i < |rows| ==> ToContract(rows[i]).Ok?
  }

  /**
   * The records of a table, row by row in order; the first row that
   * raises decides the error.
   */
  function ContractsOf(rows: seq<ChainRow>): (r: Result<seq<ContractRecord>>)
    ensures r.Ok? <==> AllConvert(rows)
    ensures r.Ok? ==> |r.value| == |rows| && forall i :: 0 <= i < |rows| ==> Ok(r.value[i]) == ToContract(rows[i])
    ensures r.Raised? ==> exists i :: 0 <= i < |rows| && ToContract(rows[i]) == Raised(r.message)
  {
    if rows == [] then Ok([])
    else
      match ToContract(rows[0])
      case Raised(m) => Raised(m)
      case Ok(c) =>
        var rest := ContractsOf(rows[1..]);
        assert forall i :: 1 <= i < |rows| ==> rows[1..][i - 1] == rows[i];
        match rest
        case Raised(m) => Raised(m)
        case Ok(cs) => Ok([c] + cs)
  }

  /** The records converted so far, in front of the outcome for the remaining rows. */
  function Prepend(done: seq<ContractRecord>, rest: Result<seq<ContractRecord>>): (r: Result<seq<ContractRecord>>)
    ensures done == [] ==> r == rest
  {
    match rest
    case Ok(more) => assert [] + more == more; Ok(done + more)
    case Raised(m) => Raised(m)
  }

  /** One row further into the table: its record goes in front, or its error is the outcome. */
  lemma ContractsOfStep(rows: seq<ChainRow>, i: nat, done: seq<ContractRecord>)
    requires i < |rows|
    ensures ToContract(rows[i]).Raised? ==>
      Prepend(done, ContractsOf(rows[i..])) == Raised(ToContract(rows[i]).message)
    ensures ToContract(rows[i]).Ok? ==>
      Prepend(done, ContractsOf(rows[i..])) == Prepend(done + [ToContract(rows[i]).value], ContractsOf(rows[i + 1..]))
  {
    assert rows[i..][1..] == rows[i + 1..];
    assert rows[i..][0] == rows[i];
    match ContractsOf(rows[i + 1..])
    case Ok(more) =>
      if ToContract(rows[i]).Ok? {
        var c := ToContract(rows[i]).value;
        assert done + ([c] + more) == (done + [c]) + more;
      }
    case Raised(_) =>
  }

  /** `_chain_to_records(df)`: [] for a missing table, otherwise the records of its rows. */
  function TableRecords(table: Option<seq<ChainRow>>): Result<seq<ContractRecord>> {
    match table
    case None => Ok([])
    case Some(rows) => ContractsOf(rows)
  }

  /** `get_options_chain()`'s answer; `selectedExpiry` is absent when there are no expiries or on error. */
  datatype ChainResult = ChainResult(
    expiries: seq<string>, selectedExpiry: Option<string>,
    calls: seq<ContractRecord>, puts: seq<ContractRecord>, error: Option<string>)

  /** `get_options_expiries()`: the listed expiries, or [] when reading them raises. */
  function ExpiriesOf(p: Provider, ticker: string): seq<string> {
    match p.options(ticker)
    case Ok(e) => e
    case Raised(_) => []
  }

  /** The expiry the chain is read for: the requested one if listed, else the first listed. */
  function SelectExpiry(expiries: seq<string>, requested: Option<string>): (e: string)
    requires expiries != []
    ensures e in expiries
    ensures requested.Some? && requested.value in expiries ==> e == requested.value
    ensures (requested.None? || requested.value !in expiries) ==> e == expiries[0]
  {
    if requested.None? || requested.value !in expiries then expiries[0] else requested.value
  }

  /** `get_historical_data(period)`: a raising lookup raises; otherwise one record per bar, in order. */
  function HistoricalDataOf(p: Provider, ticker: string, period: string): (r: Result<seq<PriceRecord>>)
    ensures p.history(ticker, period).Failed? ==> r == Raised(p.history(ticker, period).message)
    ensures p.history(ticker, period) == Rows([]) ==> r == Ok([])
    ensures p.history(ticker, period).Rows? ==>
      var bars := p.history(ticker, period).bars;
      && r.Ok? && |r.value| == |bars|
      && forall i :: 0 <= i < |bars| ==> r.value[i].date == bars[i].date && r.value[i].volume == Trunc(bars[i].volume)
  {
    match p.history(ticker, period)
    case Failed(m) => Raised(m)
    case Rows(bars) => Ok(seq(|bars|, i requires 0 <= i < |bars| => ToPriceRecord(bars[i])))
  }

  /**
   * `get_options_chain(expiry)`: no expiries gives empty tables and no
   * selected expiry; otherwise the requested expiry if listed, else the
   * first; any exception gives empty lists and the error message.
   */
  function ChainOf(p: Provider, ticker: string, expiry: Option<string>): (r: ChainResult)
    ensures ExpiriesOf(p, ticker) == [] ==> r == ChainResult([], None, [], [], None)
    ensures r.selectedExpiry.Some? ==>
      && r.error.None? && r.expiries == ExpiriesOf(p, ticker)
      && r.selectedExpiry.value == SelectExpiry(ExpiriesOf(p, ticker), expiry)
      && r.selectedExpiry.value in r.expiries
    ensures r.error.Some? ==> r.expiries == [] && r.calls == [] && r.puts == [] && r.selectedExpiry.None?
    ensures ExpiriesOf(p, ticker) != [] && p.optionChain(ticker, SelectExpiry(ExpiriesOf(p, ticker), expiry)).Raised? ==>
      r.error == Some(p.optionChain(ticker, SelectExpiry(ExpiriesOf(p, ticker), expiry)).message)
    ensures ExpiriesOf(p, ticker) != [] ==> (r.selectedExpiry.Some? <==> r.error.None?)
  {
    var expiries := ExpiriesOf(p, ticker);
    if expiries == [] then ChainResult([], None, [], [], None)
    else
      var selected := SelectExpiry(expiries, expiry);
      match p.optionChain(ticker, selected)
      case Raised(m) => ChainResult([], None, [], [], Some(m))
      case Ok(chain) =>
        match TableRecords(chain.calls)
        case Raised(m) => ChainResult([], None, [], [], Some(m))
        case Ok(calls) =>
          match TableRecords(chain.puts)
          case Raised(m) => ChainResult([], None, [], [], Some(m))
          case Ok(puts) => ChainResult(expiries, Some(selected), calls, puts, None)
  }

  class MarketDataFetcher {
    const ticker: string
    var spotCache: Option<real>
    var volatilityCache: Option<real>
    var dividendCache: Option<real>
    var infoCache: Option<Info>

    constructor (ticker: string)
      ensures this.ticker == ticker
      ensures spotCache == None && volatilityCache == None && dividendCache == None && infoCache == None
    {
      this.ticker := ticker;
      spotCache, volatilityCache, dividendCache, infoCache := None, None, None, None;
    }

    /** `_get_info()`: read once, then served from the cache. */
    method GetInfo(p: Provider) returns (info: Info)
      modifies this`infoCache
      ensures old(infoCache).Some? ==> info == old(infoCache).value
      ensures old(infoCache).None? ==> info == InfoOf(p, ticker)
      ensures infoCache == Some(info)
    {
      if infoCache.None? {
        infoCache := Some(InfoOf(p, ticker));
      }
      info := infoCache.value;
    }

    /** `spot_price`: the cached value, or the last five-day close, cached only when it was read without raising. */
    method SpotPrice(p: Provider) returns (r: Result<real>)
      modifies this`spotCache
      ensures old(spotCache).Some? ==> r == Ok(old(spotCache).value) && spotCache == old(spotCache)
      ensures old(spotCache).None? ==> r == SpotPriceOf(p, ticker)
      ensures old(spotCache).None? ==> spotCache == if r.Ok? then Some(r.value) else None
    {
      if spotCache.Some? {
        return Ok(spotCache.value);
      }
      r := SpotPriceOf(p, ticker);
      if r.Ok? {
        spotCache := Some(r.value);
      }
    }

    /** `historical_volatility`: as `spot_price`, over the one-year history. */
    method HistoricalVolatility(p: Provider) returns (r: Result<real>)
      modifies this`volatilityCache
      ensures old(volatilityCache).Some? ==> r == Ok(old(volatilityCache).value) && volatilityCache == old(volatilityCache)
      ensures old(volatilityCache).None? ==> r == VolatilityOf(p, ticker)
      ensures old(volatilityCache).None? ==> volatilityCache == if r.Ok? then Some(r.value) else None
    {
      if volatilityCache.Some? {
        return Ok(volatilityCache.value);
      }
      r := VolatilityOf(p, ticker);
      if r.Ok? {
        volatilityCache := Some(r.value);
      }
    }

    /** `dividend_yield`: never raises, so the first read always fills the cache. */
    method DividendYield(p: Provider) returns (q: real)
      modifies this`dividendCache, this`infoCache
      ensures old(dividendCache).Some? ==> q == old(dividendCache).value && unchanged(this)
      ensures old(dividendCache).None? && old(infoCache).Some? ==> q == DividendYieldOf(old(infoCache).value)
      ensures old(dividendCache).None? && old(infoCache).None? ==> q == DividendYieldOf(InfoOf(p, ticker))
      ensures dividendCache == Some(q)
      ensures infoCache == if old(dividendCache).Some? || old(infoCache).Some? then old(infoCache) else Some(InfoOf(p, ticker))
    {
      if dividendCache.Some? {
        return dividendCache.value;
      }
      var info := GetInfo(p);
      q := DividendYieldOf(info);
      dividendCache := Some(q);
    }

    /** What `_get_info()` answers in this state: the cached info, or a fresh read. */
    function CachedInfo(p: Provider): Info
      reads this
    {
      if infoCache.Some? then infoCache.value else InfoOf(p, ticker)
    }

    /** What `spot_price` answers in this state. */
    function CachedSpot(p: Provider): Result<real>
      reads this
    {
      if spotCache.Some? then Ok(spotCache.value) else SpotPriceOf(p, ticker)
    }

    /** What `historical_volatility` answers in this state. */
    function CachedVolatility(p: Provider): Result<real>
      reads this
    {
      if volatilityCache.Some? then Ok(volatilityCache.value) else VolatilityOf(p, ticker)
    }

    /** What `dividend_yield` answers in this state. */
    function CachedDividend(p: Provider): real
      reads this
    {
      if dividendCache.Some? then dividendCache.value else DividendYieldOf(CachedInfo(p))
    }

    /**
     * `get_stock_info()`: the summary, built from whatever each cached
     * property answers in the state it is called in. The info is always
     * cached afterwards; the spot and volatility are cached when read
     * without raising; a raising spot stops before the volatility is read,
     * and only a complete summary reads (and caches) the dividend yield.
     */
    method GetStockInfo(p: Provider) returns (r: Result<StockInfo>)
      modifies this`spotCache, this`volatilityCache, this`dividendCache, this`infoCache
      ensures r == old(Summarise(ticker, CachedInfo(p), CachedSpot(p), CachedVolatility(p), CachedDividend(p), RiskFreeRate(p)))
      ensures infoCache == Some(old(CachedInfo(p)))
      ensures spotCache == if old(CachedSpot(p)).Ok? then Some(old(CachedSpot(p)).value) else None
      ensures old(CachedSpot(p)).Raised? ==> volatilityCache == old(volatilityCache)
      ensures old(CachedSpot(p)).Ok? ==>
        volatilityCache == if old(CachedVolatility(p)).Ok? then Some(old(CachedVolatility(p)).value) else None
      ensures dividendCache == if r.Ok? then Some(old(CachedDividend(p))) else old(dividendCache)
      ensures (old(spotCache) == None && old(volatilityCache) == None && old(dividendCache) == None
        && old(infoCache) == None) ==> r == StockInfoOf(p, ticker)
    {
      var info := GetInfo(p);
      var spot := SpotPrice(p);
      if spot.Raised? {
        return Raised(spot.message);
      }
      var vol := HistoricalVolatility(p);
      if vol.Raised? {
        return Raised(vol.message);
      }
      var q := DividendYield(p);
      r := Ok(StockInfo(ticker, DisplayName(info, ticker), Get(info, "exchange", JStr("N/A")),
        Get(info, "currency", JStr("USD")), Get(info, "sector", JStr("N/A")),
        Get(info, "industry", JStr("N/A")), Get(info, "marketCap", JNull),
        spot.value, vol.value, q, RiskFreeRate(p)));
    }

    /** `get_historical_data(period)`: the records are appended one bar at a time. */
    method GetHistoricalData(p: Provider, period: string) returns (r: Result<seq<PriceRecord>>)
      ensures r == HistoricalDataOf(p, ticker, period)
    {
      var h := p.history(ticker, period);
      if h.Failed? {
        return Raised(h.message);
      }
      var bars := h.bars;
      if bars == [] {
        return Ok([]);
      }
      var records: seq<PriceRecord> := [];
      var i := 0;
      while i < |bars|
        invariant 0 <= i <= |bars|
        invariant |records| == i
        invariant forall k :: 0 <= k < i ==> records[k] == ToPriceRecord(bars[k])
      {
        records := records + [ToPriceRecord(bars[i])];
        i := i + 1;
      }
      assert records == seq(|bars|, k requires 0 <= k < |bars| => ToPriceRecord(bars[k]));
      r := Ok(records);
    }

    /** `_chain_to_records(df)`: the records are appended row by row; a raising row ends the loop. */
    method ChainToRecords(table: Option<seq<ChainRow>>) returns (r: Result<seq<ContractRecord>>)
      ensures r == TableRecords(table)
    {
      if table.None? || table.value == [] {
        return Ok([]);
      }
      var rows := table.value;
      var records: seq<ContractRecord> := [];
      var i := 0;
      assert rows[0..] == rows;
      while i < |rows|
        invariant 0 <= i <= |rows|
        invariant ContractsOf(rows) == Prepend(records, ContractsOf(rows[i..]))
      {
        ContractsOfStep(rows, i, records);
        var rec := ToContract(rows[i]);
        if rec.Raised? {
          return Raised(rec.message);
        }
        records := records + [rec.value];
        i := i + 1;
      }
      assert rows[i..] == [];
      assert records + [] == records;
      r := Ok(records);
    }

    /** `get_options_chain(expiry)`. */
    method GetOptionsChain(p: Provider, expiry: Option<string>) returns (r: ChainResult)
      ensures r == ChainOf(p, ticker, expiry)
    {
      var expiries := ExpiriesOf(p, ticker);
      if expiries == [] {
        return ChainResult([], None, [], [], None);
      }
      var selected := SelectExpiry(expiries, expiry);
      var chain := p.optionChain(ticker, selected);
      if chain.Raised? {
        return ChainResult([], None, [], [], Some(chain.message));
      }
      var calls := ChainToRecords(chain.value.calls);
      if calls.Raised? {
        return ChainResult([], None, [], [], Some(calls.message));
      }
      var puts := ChainToRecords(chain.value.puts);
      if puts.Raised? {
        return ChainResult([], None, [], [], Some(puts.message));
      }
      r := ChainResult(expiries, Some(selected), calls.value, puts.value, None);
    }
  }
}
