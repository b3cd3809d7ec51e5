# Binance market chart: candle history and displayed series

The repository is a single React component, `App` (`src/App.js`). It subscribes to a Binance kline WebSocket stream for one symbol and interval. Each closed kline becomes a candle. The candle is appended to a per-symbol history held in memory and written through to browser storage. The candle is also appended to the series on display. The component projects that series into the labels (times) and data points (close prices) that the chart draws.

This project models that core in Dafny:

- `wrappers.dfy`, module `Wrappers`: the `Option` type.
- `candles.dfy`, module `Candles`: the candle, the kline message, and `Admit`. `Admit` is the closed-flag filter plus the candle construction in `ws.onmessage`. Prices are an opaque type `Price`, and `parseFloat` is a parameter of type `string -> Price`.
- `history.dfy`, module `History`: the store, `map<string, seq<Candle>>`, and `Appended`. `Appended` is the new history object that `updateChartData` builds.
- `projection.dfy`, module `Projection`: `Project`, the `chartDataset` mapping.
- `session.dfy`, module `Session`: the component state as a value (`Snapshot`). It has one step function per handler and `Run`, which replays a session of events, including symbol changes that throw. It also holds the lemmas about whole sessions.
- `component.dfy`, module `Component`: class `App`. Its fields are `historicalData`, `persisted` (the storage slot), `chartData`, `selectedSymbol` and `selectedInterval`. Its methods are `Append`, `Receive`, `ChangeSymbol` and `ChangeInterval`. Each method states the object's new fields and ties `State()` to the matching step function. A client method, `ClosedKlineScenario`, runs an open kline and then a closed one, switches symbol and interval, and switches back.

Behaviour of the code that a reader might not expect, which the model keeps:

- The code never reads storage when it mounts: `historicalData` starts as `{}` (src/App.js:24). So the first append of a session overwrites whatever an earlier session stored. A symbol whose old candles were shown from storage then has a display that no longer matches its history. `Session.StaleStorageIsOverwritten` shows this.
- The code does not reject candles whose time is not after the last one. It appends every closed kline. No ordering invariant is claimed.
- `updateChartData` appends to the display whatever the symbol (src/App.js:43). This is harmless today only because `ws.onmessage` appends for the symbol its subscription was opened with: the `selectedSymbol` captured when the effect ran (src/App.js:46-67). That symbol is the selected one once React has re-run the effect; the model leaves that timing out and appends for the selected symbol. `Session.OffSymbolAppendDesyncs` shows what an append for another symbol would do.
- Malformed messages are not caught.
- A symbol change before anything was persisted throws at src/App.js:72-73, after `setSelectedSymbol` has already run (src/App.js:71). The component keeps running with the new symbol selected and the display unchanged. `Session.SymbolStep` models exactly that, and `Session.Run` continues the session from there. On the class, `App.ChangeSymbol` instead carries `requires persisted.Some?`, so its callers must avoid the throwing path.
- Symbols are the values of the symbol menu (src/App.js:9-13, 121-125). For a key inherited from `Object.prototype`, such as `"constructor"`, `obj[s] || []` (src/App.js:29, 73) would return that inherited member instead of `[]`. The model reads a missing symbol as empty.
- The initial interval is `1m` (src/App.js:23), which is not one of the three choices the interval menu offers.

## Model

| member | source | states |
|---|---|---|
| Candles.Admit | src/App.js:52-59 | A message yields a candle exactly when its closed flag `x` is true. The candle's time is `t`, and open/high/low/close are `parseFloat` of `o`/`h`/`l`/`c`. |
| Candles.Admitted | src/App.js:49-62 | One message yields its candle when closed and nothing when open. No candle comes from a run of open klines, every message yields one candle when all are closed, and there are never more candles than messages. |
| Candles.AdmittedConcat | src/App.js:49-62 | The candles of two stretches of messages are those of the first followed by those of the second. With the one-message case, each closed message contributes its candle in arrival order and each open one contributes nothing. |
| Candles.AdmittedFromClosed | src/App.js:52-60 | Every candle a message sequence yields is the candle of some closed message in that sequence. |
| History.Appended | src/App.js:29-40 | After an append, the symbol's sequence is its old sequence followed by the candle. An unseen symbol gets `[candle]`. No other key appears, and every other symbol keeps its sequence. |
| History.AppendedSeries | src/App.js:29-40 | Read through `SeriesOf` (a missing symbol reads as empty), an append changes only the appended symbol's series, which gains the candle at its end. |
| Projection.Project | src/App.js:80-88 | The labels and the data points have the display's length. Label `i` is candle `i`'s time and point `i` is its close price, in the same order. |
| Projection.ProjectSnoc | src/App.js:80-88 | Adding a candle at the end of the display adds exactly its time to the end of the labels and its close to the end of the data. |
| Session.InitialCoherent | src/App.js:22-25 | A first visit with empty storage starts with the display equal to the selected symbol's history and storage equal to the history. |
| Session.ReceiveStepEffect | src/App.js:49-62 | An open kline changes nothing. A closed kline appends its candle to the selected symbol's history and to the display, writes the whole history to storage, and leaves the selection alone. |
| Session.ReceiveAllFrame | src/App.js:27-62 | Over one subscription, the selection is unchanged and no symbol other than the selected one enters the history. Storage holds the whole history once a candle was admitted, and is untouched otherwise. With no closed kline, nothing changes. |
| Session.ReceiveAllSeries | src/App.js:27-62 | Over one subscription, the selected symbol's history gains exactly the candles of the closed klines, in order. Every other symbol's history is unchanged. |
| Session.ReceiveAllDisplay | src/App.js:43-60 | Over one subscription, the display gains exactly the candles of the closed klines, in order. |
| Session.SymbolStep | src/App.js:69-74 | The new symbol is selected in every case. With storage written, the display becomes storage's sequence for that symbol, or empty. With storage unwritten the handler throws after selecting, and the display stays as it was. History, storage and interval are unchanged. |
| Session.Run | src/App.js:21-78 | Over any session of messages and selection changes, the history is append-only: no symbol disappears, and each symbol's old sequence is a prefix of its new one. Storage, once written, stays written. |
| Session.RunMessagesIsReceiveAll | src/App.js:49-62 | A session made only of stream messages ends in the same state as delivering those messages to one subscription, so the subscription lemmas apply to such sessions. |
| Session.StepsKeepCoherent | src/App.js:27-78 | Receiving a message, changing interval and changing symbol (also when it throws because storage is unwritten) each keep the display equal to the selected symbol's history and storage equal to the history. |
| Session.RunKeepsCoherent | src/App.js:21-78 | From a coherent state, every session of messages and selection changes ends coherent, including sessions whose symbol changes throw. |
| Session.SwitchShowsHistory | src/App.js:69-74 | From a coherent state, switching symbol displays that symbol's full history, unmodified, and leaves history and storage unchanged. |
| Session.UnwrittenUntilClosed | src/App.js:32-35 | Open klines, interval changes and symbol changes never write storage; only a closed kline does. Across events of the first kinds, storage and history stay as they were. |
| Session.SymbolChangeBeforeWriteThrows | src/App.js:69-74 | On a first visit, every symbol change before the first closed kline finds storage unwritten. It throws after selecting the new symbol, leaving display, history and storage unchanged. |
| Session.StaleStorageIsOverwritten | src/App.js:24-40 | With a candle stored by an earlier session, selecting its symbol shows it. The next closed kline then replaces storage with a history that lacks it, while the display keeps it. |
| Session.OffSymbolAppendDesyncs | src/App.js:27-44 | An append for a symbol other than the selected one still grows the display, so the display no longer equals the selected symbol's history. |
| Component.App.constructor | src/App.js:22-25 | On mount, history and display are empty, the selection is `ethusdt` at `1m`, and storage is whatever an earlier session left. |
| Component.App.Append | src/App.js:27-44 | The history becomes `Appended` of the old history. Storage becomes the whole new history (write-through). The display gains the candle at its end. The selection is unchanged. |
| Component.App.Receive | src/App.js:49-62 | An open kline leaves every field unchanged. A closed kline performs exactly one `Append`, for the selected symbol, of the candle `Admit` builds. |
| Component.App.ChangeSymbol | src/App.js:69-74 | The symbol becomes `newSymbol`. The display becomes storage's sequence for it, or empty when it has none. History, storage and interval are unchanged. It requires storage to have been written. |
| Component.App.ChangeInterval | src/App.js:76-78 | Only the selected interval changes. History, storage, display and symbol are untouched. |

## Left out

- WebSocket construction, the subscription address, and `ws.close()` on cleanup (src/App.js:46-47, 64-67). These are network I/O driven by React effects. Messages reach the model as already-delivered `StreamMessage` values for the selected symbol.
- React's scheduling of state setters, and `useCallback`/`useEffect` semantics. Each handler is one atomic step.
- JSON encoding and decoding of messages and of the storage blob (src/App.js:32, 50, 72). Storage holds the history map itself. So the model does not capture that `JSON.stringify` turns a `NaN` price into `null`, or that unparseable text throws.
- `parseFloat` (src/App.js:55-58): floating point. Prices are an opaque type, and `parseFloat` is an arbitrary function passed in.
- Chart.js registration, `chartOptions`, `new Date(...)` and the JSX (src/App.js:1-7, 81, 90-134). These are UI and a foreign library. Labels are the candles' integer times rather than `Date` objects.
- Storage quota failures and reconnection. The code has no handling for either.
- Component.App.ChangeSymbol: requires storage to have been written, so the object does not model the throwing symbol change. The throw is modelled on values by `Session.SymbolStep` and `Session.Run`.
- Other tabs writing storage. The browser shares the `historicalData` key among every tab of the origin, and each tab writes its own whole history to it (src/App.js:32-35). So another tab's append replaces this tab's stored candles, and a symbol change here then shows the other tab's series. The model assumes this component is the only writer of the key. `Session.Coherent`, `Session.StepsKeepCoherent`, `Session.RunKeepsCoherent` and `Session.SwitchShowsHistory` rest on that assumption.
