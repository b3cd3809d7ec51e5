/**
 * The component's state as a value, and what each handler does to it
 * (src/App.js:21-78). Each handler is one atomic step; React's scheduling
 * of state setters is not modelled. These functions specify the methods of
 * `Component.App` and let properties of whole sessions be stated.
 */
module Session {
  import opened Wrappers
  import opened Candles
  import opened History

  /** The four pieces of component state and the persisted `historicalData` slot. */
  datatype Snapshot = Snapshot(
    historicalData: Store,
    persisted: Option<Store>,
    chartData: seq<Candle>,
    selectedSymbol: string,
    selectedInterval: string)

  /** The symbol selected at start (`symbols.ETH`, src/App.js:10, 22). */
  const InitialSymbol: string := "ethusdt"

  /** The interval selected at start (src/App.js:23). */
  const InitialInterval: string := "1m"

  /** State when the component mounts, over whatever a previous session left in storage. */
  function Initial(stored: Option<Store>): Snapshot {
    Snapshot(map[], stored, [], InitialSymbol, InitialInterval)
  }

  /** `updateChartData(symbol, candle)` (src/App.js:27-44). */
  function AppendStep(st: Snapshot, symbol: string, candle: Candle): Snapshot {
    var updated := Appended(st.historicalData, symbol, candle);
    st.(historicalData := updated, persisted := Some(updated), chartData := st.chartData + [candle])
  }

  /** `ws.onmessage` for a decoded message (src/App.js:49-62). */
  function ReceiveStep(st: Snapshot, msg: StreamMessage, parseFloat: string -> Price): Snapshot {
    match Admit(msg, parseFloat)
    case Some(candle) => AppendStep(st, st.selectedSymbol, candle)
    case None => st
  }

  /**
   * `handleSymbolChange` (src/App.js:69-74). The new symbol is selected first;
   * when storage was never written, reading it then throws and the display is
   * left as it was, while the component keeps running with the new selection.
   */
  function SymbolStep(st: Snapshot, newSymbol: string): (r: Snapshot)
    ensures r.selectedSymbol == newSymbol
    ensures st.persisted.Some? ==> r.chartData == SeriesOf(st.persisted.value, newSymbol)
    ensures st.persisted.None? ==> r.chartData == st.chartData
    ensures r.historicalData == st.historicalData && r.persisted == st.persisted
    ensures r.selectedInterval == st.selectedInterval
  {
    var selected := st.(selectedSymbol := newSymbol);
    match st.persisted
    case Some(storedData) => selected.(chartData := SeriesOf(storedData, newSymbol))
    case None => selected
  }

  /** `handleIntervalChange` (src/App.js:76-78). */
  function IntervalStep(st: Snapshot, newInterval: string): Snapshot {
    st.(selectedInterval := newInterval)
  }

  /** One event delivered to the component. */
  datatype Action =
    | Message(msg: StreamMessage)
    | SelectSymbol(symbol: string)
    | SelectInterval(interval: string)

  /**
   * The state after a sequence of events, each handled by its step. Over any
   * session the history is append-only: no symbol disappears and every
   * symbol's old sequence is a prefix of its new one; and storage, once
   * written, stays written.
   */
  function Run(st: Snapshot, actions: seq<Action>, parseFloat: string -> Price): (r: Snapshot)
    ensures st.historicalData.Keys <= r.historicalData.Keys
    ensures forall s :: s in st.historicalData ==> st.historicalData[s] <= r.historicalData[s]
    ensures st.persisted.Some? ==> r.persisted.Some?
    decreases |actions|
  {
    if actions == [] then st
    else
      match actions[0]
      case Message(msg) => Run(ReceiveStep(st, msg, parseFloat), actions[1..], parseFloat)
      case SelectInterval(i) => Run(IntervalStep(st, i), actions[1..], parseFloat)
      case SelectSymbol(s) => Run(SymbolStep(st, s), actions[1..], parseFloat)
  }

  /** An event that writes storage: a closed kline. */
  predicate Writes(action: Action) {
    action.Message? && action.msg.k.x
  }

  /** The messages of one subscription delivered in order, with no selection change between. */
  function ReceiveAll(st: Snapshot, msgs: seq<StreamMessage>, parseFloat: string -> Price): Snapshot
    decreases |msgs|
  {
    if msgs == [] then st
    else ReceiveAll(ReceiveStep(st, msgs[0], parseFloat), msgs[1..], parseFloat)
  }

  /** The actions that deliver `msgs`, one `Message` each, in order. */
  function Messages(msgs: seq<StreamMessage>): (r: seq<Action>)
    ensures |r| == |msgs| && forall i :: 0 <= i < |msgs| ==> r[i] == Message(msgs[i])
  {
    seq(|msgs|, i requires 0 <= i < |msgs| => Message(msgs[i]))
  }

  /** A session made only of messages is one subscription's `ReceiveAll`. */
  lemma {:induction false} RunMessagesIsReceiveAll(st: Snapshot, msgs: seq<StreamMessage>, parseFloat: string -> Price)
    ensures Run(st, Messages(msgs), parseFloat) == ReceiveAll(st, msgs, parseFloat)
    decreases |msgs|
  {
    if msgs != [] {
      assert Messages(msgs)[0] == Message(msgs[0]);
      assert Messages(msgs)[1..] == Messages(msgs[1..]);
      RunMessagesIsReceiveAll(ReceiveStep(st, msgs[0], parseFloat), msgs[1..], parseFloat);
    }
  }

  /**
   * The displayed series is the selected symbol's history, and the persisted
   * slot holds the whole in-memory history (which is empty while the slot was
   * never written).
   */
  ghost predicate Coherent(st: Snapshot) {
    && st.chartData == SeriesOf(st.historicalData, st.selectedSymbol)
    && st.historicalData == st.persisted.GetOr(map[])
  }

  /** A first visit, with nothing in storage, starts coherent. */
  lemma InitialCoherent()
    ensures Coherent(Initial(None))
    ensures Coherent(Initial(Some(map[])))
  {
  }

  /**
   * A closed message appends exactly one candle, built from its fields, to the
   * selected symbol and to the display, and writes the whole history through;
   * any other message changes nothing.
   */
  lemma ReceiveStepEffect(st: Snapshot, msg: StreamMessage, parseFloat: string -> Price)
    ensures !msg.k.x ==> ReceiveStep(st, msg, parseFloat) == st
    ensures msg.k.x ==>
      var candle := Candle(msg.k.t, parseFloat(msg.k.o), parseFloat(msg.k.h), parseFloat(msg.k.l), parseFloat(msg.k.c));
      var r := ReceiveStep(st, msg, parseFloat);
      && r.historicalData == Appended(st.historicalData, st.selectedSymbol, candle)
      && r.persisted == Some(r.historicalData)
      && r.chartData == st.chartData + [candle]
      && r.selectedSymbol == st.selectedSymbol && r.selectedInterval == st.selectedInterval
  {
  }

  /**
   * Over one subscription the selection stays put, no symbol but the selected
   * one can appear in the history, and storage is rewritten with the whole
   * history as soon as one candle was admitted; with no closed kline nothing
   * changes at all.
   */
  lemma {:induction false} ReceiveAllFrame(st: Snapshot, msgs: seq<StreamMessage>, parseFloat: string -> Price)
    ensures var r := ReceiveAll(st, msgs, parseFloat);
      && r.selectedSymbol == st.selectedSymbol && r.selectedInterval == st.selectedInterval
      && r.historicalData.Keys <= st.historicalData.Keys + {st.selectedSymbol}
      && r.persisted == (if Admitted(msgs, parseFloat) == [] then st.persisted else Some(r.historicalData))
      && (Admitted(msgs, parseFloat) == [] ==> r == st)
    decreases |msgs|
  {
    if msgs != [] {
      var next := ReceiveStep(st, msgs[0], parseFloat);
      ReceiveAllFrame(next, msgs[1..], parseFloat);
      if Admit(msgs[0], parseFloat).None? {
        assert next == st;
      }
    }
  }

  /**
   * Over one subscription, the selected symbol's history gains exactly the
   * candles of the closed klines, in order, and every other symbol's history
   * stays as it was.
   */
  lemma {:induction false} ReceiveAllSeries(st: Snapshot, msgs: seq<StreamMessage>, parseFloat: string -> Price, s: string)
    ensures SeriesOf(ReceiveAll(st, msgs, parseFloat).historicalData, s)
         == SeriesOf(st.historicalData, s) + (if s == st.selectedSymbol then Admitted(msgs, parseFloat) else [])
    decreases |msgs|
  {
    if msgs != [] {
      var next := ReceiveStep(st, msgs[0], parseFloat);
      ReceiveAllSeries(next, msgs[1..], parseFloat, s);
      var rest := Admitted(msgs[1..], parseFloat);
      match Admit(msgs[0], parseFloat)
      case Some(c) =>
        AppendedSeries(st.historicalData, st.selectedSymbol, c, s);
        if s == st.selectedSymbol {
          assert SeriesOf(st.historicalData, s) + [c] + rest == SeriesOf(st.historicalData, s) + ([c] + rest);
        }
      case None =>
        assert next == st;
    }
  }

  /** Over one subscription, the display gains exactly the candles of the closed klines, in order. */
  lemma {:induction false} ReceiveAllDisplay(st: Snapshot, msgs: seq<StreamMessage>, parseFloat: string -> Price)
    ensures ReceiveAll(st, msgs, parseFloat).chartData == st.chartData + Admitted(msgs, parseFloat)
    decreases |msgs|
  {
    if msgs != [] {
      var next := ReceiveStep(st, msgs[0], parseFloat);
      ReceiveAllDisplay(next, msgs[1..], parseFloat);
      var rest := Admitted(msgs[1..], parseFloat);
      match Admit(msgs[0], parseFloat)
      case Some(c) =>
        assert st.chartData + [c] + rest == st.chartData + ([c] + rest);
      case None =>
        assert next == st;
    }
  }

  /** Every handler keeps the display and storage coherent with the history. */
  lemma StepsKeepCoherent(st: Snapshot, msg: StreamMessage, parseFloat: string -> Price, s: string, i: string)
    requires Coherent(st)
    ensures Coherent(ReceiveStep(st, msg, parseFloat))
    ensures Coherent(IntervalStep(st, i))
    ensures Coherent(SymbolStep(st, s))
  {
  }

  /**
   * From a coherent state, every session ends coherent, including one whose
   * symbol changes throw because nothing was stored yet.
   */
  lemma {:induction false} RunKeepsCoherent(st: Snapshot, actions: seq<Action>, parseFloat: string -> Price)
    requires Coherent(st)
    ensures Coherent(Run(st, actions, parseFloat))
    decreases |actions|
  {
    if actions != [] {
      match actions[0]
      case Message(msg) =>
        StepsKeepCoherent(st, msg, parseFloat, "", "");
        RunKeepsCoherent(ReceiveStep(st, msg, parseFloat), actions[1..], parseFloat);
      case SelectInterval(i) =>
        StepsKeepCoherent(st, StreamMessage(Kline(0, "", "", "", "", false)), parseFloat, "", i);
        RunKeepsCoherent(IntervalStep(st, i), actions[1..], parseFloat);
      case SelectSymbol(s) =>
        StepsKeepCoherent(st, StreamMessage(Kline(0, "", "", "", "", false)), parseFloat, s, "");
        RunKeepsCoherent(SymbolStep(st, s), actions[1..], parseFloat);
    }
  }

  /** Switching to a symbol from a coherent state shows that symbol's whole history, unmodified. */
  lemma SwitchShowsHistory(st: Snapshot, newSymbol: string)
    requires Coherent(st)
    ensures SymbolStep(st, newSymbol).chartData == SeriesOf(st.historicalData, newSymbol)
    ensures SymbolStep(st, newSymbol).historicalData == st.historicalData
    ensures SymbolStep(st, newSymbol).persisted == st.persisted
  {
  }

  /**
   * Events other than closed klines never write storage: open klines and
   * selection changes leave the slot and the history as they were.
   */
  lemma {:induction false} UnwrittenUntilClosed(st: Snapshot, actions: seq<Action>, parseFloat: string -> Price)
    requires forall i :: 0 <= i < |actions| ==> !Writes(actions[i])
    ensures Run(st, actions, parseFloat).persisted == st.persisted
    ensures Run(st, actions, parseFloat).historicalData == st.historicalData
    decreases |actions|
  {
    if actions != [] {
      assert !Writes(actions[0]);
      var next := match actions[0]
        case Message(msg) => ReceiveStep(st, msg, parseFloat)
        case SelectInterval(i) => IntervalStep(st, i)
        case SelectSymbol(s) => SymbolStep(st, s);
      assert next.persisted == st.persisted && next.historicalData == st.historicalData;
      UnwrittenUntilClosed(next, actions[1..], parseFloat);
    }
  }

  /**
   * On a first visit, a symbol change before the first closed kline finds
   * storage unwritten, so it throws after selecting the new symbol: the
   * display, history and storage stay as they were.
   */
  lemma {:induction false} SymbolChangeBeforeWriteThrows(before: seq<Action>, s: string, parseFloat: string -> Price)
    requires forall i :: 0 <= i < |before| ==> !Writes(before[i])
    ensures var st := Run(Initial(None), before, parseFloat);
      && st.persisted == None
      && SymbolStep(st, s) == st.(selectedSymbol := s)
  {
    UnwrittenUntilClosed(Initial(None), before, parseFloat);
  }

  /**
   * The history is not read back from storage when the component mounts. A
   * candle `earlier` stored for a symbol by an earlier session is shown when that
   * symbol is selected, but the next closed message then overwrites storage
   * with a history that lacks it, while the display still holds it.
   */
  lemma StaleStorageIsOverwritten(symbol: string, earlier: Candle, msg: StreamMessage, parseFloat: string -> Price)
    requires msg.k.x
    ensures var candle := Admit(msg, parseFloat).value;
      var st := ReceiveStep(SymbolStep(Initial(Some(map[symbol := [earlier]])), symbol), msg, parseFloat);
      && st.chartData == [earlier, candle]
      && st.historicalData == map[symbol := [candle]]
      && st.persisted == Some(map[symbol := [candle]])
      && !Coherent(st)
  {
  }

  /**
   * The display gains a candle whatever symbol it is appended for, so an
   * append for a symbol other than the selected one leaves the display out of
   * step with the selected symbol's history.
   */
  lemma OffSymbolAppendDesyncs(st: Snapshot, symbol: string, candle: Candle)
    requires Coherent(st) && symbol != st.selectedSymbol
    ensures !Coherent(AppendStep(st, symbol, candle))
  {
  }
}
