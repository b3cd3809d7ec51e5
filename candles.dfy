/**
 * Candles and the kline stream messages they come from (src/App.js:49-62).
 * A message is taken as already decoded from JSON; only its `k` object is read.
 */
module Candles {
  import opened Wrappers

  /** A number as `parseFloat` produces it. Floating point is not modelled. */
  type Price

  /** One closed kline interval as the component keeps it: start time and OHLC prices. */
  datatype Candle = Candle(time: int, open: Price, high: Price, low: Price, close: Price)

  /**
   * The `k` object of a kline message: interval start `t`, the four prices as
   * text `o`, `h`, `l`, `c`, and the flag `x` that says the interval has closed.
   */
  datatype Kline = Kline(t: int, o: string, h: string, l: string, c: string, x: bool)

  /** A decoded stream message; the component reads only its `k` field. */
  datatype StreamMessage = StreamMessage(k: Kline)

  /**
   * The candle a message yields: one exactly when its interval has closed,
   * with the time copied and each price parsed from its text field.
   */
  function Admit(msg: StreamMessage, parseFloat: string -> Price): (r: Option<Candle>)
    ensures r.Some? <==> msg.k.x
    ensures r.Some? ==> r.value.time == msg.k.t
    ensures r.Some? ==> r.value.open == parseFloat(msg.k.o) && r.value.high == parseFloat(msg.k.h)
    ensures r.Some? ==> r.value.low == parseFloat(msg.k.l) && r.value.close == parseFloat(msg.k.c)
  {
    var k := msg.k;
    if k.x then
      Some(Candle(k.t, parseFloat(k.o), parseFloat(k.h), parseFloat(k.l), parseFloat(k.c)))
    else
      None
  }

  /** The candles a sequence of messages yields, in arrival order. */
  function Admitted(msgs: seq<StreamMessage>, parseFloat: string -> Price): (r: seq<Candle>)
    ensures |r| <= |msgs|
    ensures (forall i :: 0 <= i < |msgs| ==> !msgs[i].k.x) ==> r == []
    ensures (forall i :: 0 <= i < |msgs| ==> msgs[i].k.x) ==> |r| == |msgs|
    ensures |msgs| == 1 ==> r == (if msgs[0].k.x then [Admit(msgs[0], parseFloat).value] else [])
  {
    if msgs == [] then []
    else
      var rest := Admitted(msgs[1..], parseFloat);
      match Admit(msgs[0], parseFloat)
      case Some(c) => [c] + rest
      case None => rest
  }

  /** Every candle `Admitted` yields comes from a closed message of the sequence. */
  lemma {:induction false} AdmittedFromClosed(msgs: seq<StreamMessage>, parseFloat: string -> Price, i: nat)
    requires i < |Admitted(msgs, parseFloat)|
    ensures exists j :: 0 <= j < |msgs| && msgs[j].k.x && Admit(msgs[j], parseFloat) == Some(Admitted(msgs, parseFloat)[i])
  {
    var rest := Admitted(msgs[1..], parseFloat);
    match Admit(msgs[0], parseFloat)
    case Some(c) =>
      if i == 0 {
        assert msgs[0].k.x && Admit(msgs[0], parseFloat) == Some(Admitted(msgs, parseFloat)[0]);
      } else {
        AdmittedFromClosed(msgs[1..], parseFloat, i - 1);
        var j :| 0 <= j < |msgs[1..]| && msgs[1..][j].k.x && Admit(msgs[1..][j], parseFloat) == Some(rest[i - 1]);
        assert msgs[j + 1] == msgs[1..][j];
      }
    case None =>
      AdmittedFromClosed(msgs[1..], parseFloat, i);
      var j :| 0 <= j < |msgs[1..]| && msgs[1..][j].k.x && Admit(msgs[1..][j], parseFloat) == Some(rest[i]);
      assert msgs[j + 1] == msgs[1..][j];
  }

  /**
   * `Admitted` is a filter that keeps arrival order: the candles of two
   * stretches of messages are those of the first followed by those of the
   * second. With the one-message case in its contract, each closed message
   * contributes its candle at its own place and each open one contributes
   * nothing.
   */
  lemma {:induction false} AdmittedConcat(a: seq<StreamMessage>, b: seq<StreamMessage>, parseFloat: string -> Price)
    ensures Admitted(a + b, parseFloat) == Admitted(a, parseFloat) + Admitted(b, parseFloat)
    decreases |a|
  {
    if a == [] {
      assert a + b == b;
    } else {
      assert (a + b)[1..] == a[1..] + b;
      assert (a + b)[0] == a[0];
      AdmittedConcat(a[1..], b, parseFloat);
      match Admit(a[0], parseFloat)
      case Some(c) =>
        assert [c] + Admitted(a[1..], parseFloat) + Admitted(b, parseFloat)
            == [c] + (Admitted(a[1..], parseFloat) + Admitted(b, parseFloat));
      case None =>
    }
  }
}
