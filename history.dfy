/**
 * The per-symbol candle history (`historicalData`) and its one update,
 * the object built with spread syntax in `updateChartData` (src/App.js:29-40).
 */
module History {
  import opened Candles

  /** Symbol identifier to that symbol's candles, oldest first. */
  type Store = map<string, seq<Candle>>

  /** `store[symbol] || []`: the symbol's candles, or none when it is unseen. */
  function SeriesOf(store: Store, symbol: string): seq<Candle> {
    if symbol in store then store[symbol] else []
  }

  /**
   * The store after one candle is added for `symbol`: that symbol's sequence
   * gains the candle at its end (an unseen symbol starts with it alone), no
   * other key appears and every other symbol keeps its sequence.
   */
  function Appended(store: Store, symbol: string, candle: Candle): (r: Store)
    ensures r.Keys == store.Keys + {symbol}
    ensures symbol in store ==> r[symbol] == store[symbol] + [candle]
    ensures symbol !in store ==> r[symbol] == [candle]
    ensures forall s :: s in store && s != symbol ==> r[s] == store[s]
  {
    var currentData := SeriesOf(store, symbol);
    store[symbol := currentData + [candle]]
  }

  /** Seen through `SeriesOf`, an append touches exactly one symbol's sequence. */
  lemma AppendedSeries(store: Store, symbol: string, candle: Candle, s: string)
    ensures SeriesOf(Appended(store, symbol, candle), s)
         == if s == symbol then SeriesOf(store, s) + [candle] else SeriesOf(store, s)
  {
  }
}
