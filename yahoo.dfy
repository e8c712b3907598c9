/**
 * The market-data service as the Python side sees it through yfinance:
 * `yf.Ticker(symbol).history(period=...)` yields a table of daily bars, which
 * may be empty, or raises. The service itself is not modelled; a
 * `HistoryFeed` is any function from (symbol, period) to such an answer.
 */
module Yahoo {

  /** One row of a price history. */
  datatype Bar = Bar(date: string, open: real, high: real, low: real, close: real, volume: real)

  /** The answer to a history request: the rows, possibly none, or the message of the exception raised. */
  datatype History = Rows(bars: seq<Bar>) | Failed(message: string)

  /** `yf.Ticker(symbol).history(period=period)`. */
  type HistoryFeed = (string, string) -> History

  /** `float(hist["Close"].iloc[-1])`: the close of the most recent bar. */
  function LastClose(bars: seq<Bar>): real
    requires |bars| > 0
  {
    bars[|bars| - 1].close
  }
}
