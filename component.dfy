/**
 * The `App` component (src/App.js:21-78) as an object: its four state
 * variables and the persisted `historicalData` storage slot are fields, and
 * each handler is a method that updates them in one atomic step.
 */
module Component {
  import opened Wrappers
  import opened Candles
  import opened History
  import opened Projection
  import opened Session

  class App {
    /** In-memory history: symbol to candles, oldest first. */
    var historicalData: Store
    /** The `historicalData` key of browser storage; `None` when never written. */
    var persisted: Option<Store>
    /** The series on display. */
    var chartData: seq<Candle>
    var selectedSymbol: string
    var selectedInterval: string

    /** The object's state as a value, for the specifications in `Session`. */
    function State(): Snapshot
      reads this
    {
      Snapshot(historicalData, persisted, chartData, selectedSymbol, selectedInterval)
    }

    /** Mounting: empty history and display, ETH at one minute; storage as an earlier session left it. */
    constructor (stored: Option<Store>)
      ensures historicalData == map[] && chartData == []
      ensures persisted == stored
      ensures selectedSymbol == InitialSymbol && selectedInterval == InitialInterval
      ensures State() == Initial(stored)
    {
      historicalData := map[];
      persisted := stored;
      chartData := [];
      selectedSymbol := InitialSymbol;
      selectedInterval := InitialInterval;
    }

    /**
     * `updateChartData`: append `newData` to `symbol`'s history, write the
     * whole new history through to storage, and append it to the display
     * whatever the symbol.
     */
    method Append(symbol: string, newData: Candle)
      modifies this
      ensures historicalData == Appended(old(historicalData), symbol, newData)
      ensures persisted == Some(historicalData)
      ensures chartData == old(chartData) + [newData]
      ensures selectedSymbol == old(selectedSymbol) && selectedInterval == old(selectedInterval)
      ensures State() == AppendStep(old(State()), symbol, newData)
    {
      var currentData := if symbol in historicalData then historicalData[symbol] else [];
      var updatedData := currentData + [newData];
      persisted := Some(historicalData[symbol := updatedData]);
      historicalData := historicalData[symbol := updatedData];
      chartData := chartData + [newData];
    }

    /**
     * `ws.onmessage`: a closed kline becomes a candle appended for the
     * selected symbol; an open one changes nothing.
     */
    method Receive(msg: StreamMessage, parseFloat: string -> Price)
      modifies this
      ensures !msg.k.x ==> State() == old(State())
      ensures msg.k.x ==> State() == AppendStep(old(State()), old(selectedSymbol), Admit(msg, parseFloat).value)
      ensures State() == ReceiveStep(old(State()), msg, parseFloat)
    {
      var candle := Admit(msg, parseFloat);
      if candle.Some? {
        Append(selectedSymbol, candle.value);
      }
    }

    /**
     * `handleSymbolChange`: select `newSymbol` and display what storage holds
     * for it, or nothing. Reading storage that was never written throws.
     */
    method ChangeSymbol(newSymbol: string)
      requires persisted.Some?
      modifies this
      ensures selectedSymbol == newSymbol
      ensures newSymbol in old(persisted).value ==> chartData == old(persisted).value[newSymbol]
      ensures newSymbol !in old(persisted).value ==> chartData == []
      ensures historicalData == old(historicalData) && persisted == old(persisted)
      ensures selectedInterval == old(selectedInterval)
      ensures State() == SymbolStep(old(State()), newSymbol)
    {
      selectedSymbol := newSymbol;
      var storedData := persisted.value;
      chartData := SeriesOf(storedData, newSymbol);
    }

    /** `handleIntervalChange`: only the selected interval changes. */
    method ChangeInterval(newInterval: string)
      modifies this
      ensures selectedInterval == newInterval
      ensures historicalData == old(historicalData) && persisted == old(persisted)
      ensures chartData == old(chartData) && selectedSymbol == old(selectedSymbol)
      ensures State() == IntervalStep(old(State()), newInterval)
    {
      selectedInterval := newInterval;
    }
  }

  /**
   * A short session against the object: a closed kline after an open one
   * stores exactly one candle, and switching away and back shows it again.
   */
  method ClosedKlineScenario(parseFloat: string -> Price)
  {
    var app := new App(None);
    var open := StreamMessage(Kline(1000, "100", "110", "95", "105", false));
    var closed := StreamMessage(Kline(1000, "100", "110", "95", "106", true));
    app.Receive(open, parseFloat);
    assert app.historicalData == map[] && app.persisted == None;
    app.Receive(closed, parseFloat);
    var candle := Candle(1000, parseFloat("100"), parseFloat("110"), parseFloat("95"), parseFloat("106"));
    assert app.historicalData == map[InitialSymbol := [candle]];
    assert app.persisted == Some(map[InitialSymbol := [candle]]);
    app.ChangeSymbol("bnbusdt");
    assert app.chartData == [];
    app.ChangeInterval("5m");
    app.ChangeSymbol(InitialSymbol);
    assert app.chartData == [candle];
    assert Project(app.chartData).labels == [1000];
  }
}
