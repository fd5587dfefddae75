/** The transaction-volume chart of src/components/features/charts/tx-volume-chart.tsx. */
module TxVolumeChart {
  import opened Wrappers
  import opened Formatters
  import opened Charts

  /** An interval of the volume response (src/lib/types/metrics.ts). */
  datatype VolumeInterval = VolumeInterval(date: string, transactionCount: int)

  datatype VolumePoint = VolumePoint(date: string, volume: int)

  /** `chartData`: one point per interval, oldest first, the volume being the interval's count. */
  function ChartData(loc: Locale, intervals: Option<seq<VolumeInterval>>): (r: Option<seq<VolumePoint>>)
    ensures r.None? <==> intervals.None?
    ensures r.Some? ==> var s := intervals.value;
              |r.value| == |s|
              && forall i :: 0 <= i < |s| ==>
                   r.value[i] == VolumePoint(loc.shortDate(s[|s| - 1 - i].date), s[|s| - 1 - i].transactionCount)
  {
    Series(intervals, (item: VolumeInterval) => VolumePoint(loc.shortDate(item.date), item.transactionCount))
  }

  /** The chart draws the same total volume the response reports interval by interval. */
  function TotalVolume(points: seq<VolumePoint>): int {
    if points == [] then 0 else points[0].volume + TotalVolume(points[1..])
  }

  function TotalCount(intervals: seq<VolumeInterval>): int {
    if intervals == [] then 0 else intervals[0].transactionCount + TotalCount(intervals[1..])
  }

  lemma {:induction false} TotalVolumeAppend(a: seq<VolumePoint>, b: seq<VolumePoint>)
    ensures TotalVolume(a + b) == TotalVolume(a) + TotalVolume(b)
  {
    if a == [] {
      assert a + b == b;
    } else {
      assert (a + b)[1..] == a[1..] + b;
      TotalVolumeAppend(a[1..], b);
    }
  }

  lemma {:induction false} ChartKeepsTotal(loc: Locale, intervals: seq<VolumeInterval>)
    ensures TotalVolume(ChartData(loc, Some(intervals)).value) == TotalCount(intervals)
  {
    if intervals != [] {
      var f := (item: VolumeInterval) => VolumePoint(loc.shortDate(item.date), item.transactionCount);
      ChartKeepsTotal(loc, intervals[1..]);
      assert intervals == [intervals[0]] + intervals[1..];
      ReverseMapAppend([intervals[0]], intervals[1..], f);
      TotalVolumeAppend(ReverseMap(intervals[1..], f), ReverseMap([intervals[0]], f));
    }
  }
}
