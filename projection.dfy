/**
 * The dataset handed to the chart (`chartDataset`, src/App.js:80-88): the
 * displayed candles' times as labels and their close prices as data points.
 */
module Projection {
  import opened Candles

  /** Labels (candle start times) and data points (close prices), index by index. */
  datatype ChartDataset = ChartDataset(labels: seq<int>, data: seq<Price>)

  /** One label and one data point per candle, in the candles' order. */
  function Project(chartData: seq<Candle>): (r: ChartDataset)
    ensures |r.labels| == |chartData| && |r.data| == |chartData|
    ensures forall i :: 0 <= i < |chartData| ==> r.labels[i] == chartData[i].time
    ensures forall i :: 0 <= i < |chartData| ==> r.data[i] == chartData[i].close
  {
    if chartData == [] then ChartDataset([], [])
    else
      var rest := Project(chartData[1..]);
      ChartDataset([chartData[0].time] + rest.labels, [chartData[0].close] + rest.data)
  }

  /** Adding a candle at the end of the series adds one label and one point at the end. */
  lemma ProjectSnoc(chartData: seq<Candle>, candle: Candle)
    ensures Project(chartData + [candle]).labels == Project(chartData).labels + [candle.time]
    ensures Project(chartData + [candle]).data == Project(chartData).data + [candle.close]
  {
  }
}
