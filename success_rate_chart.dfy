/** The success-rate chart of src/components/features/charts/success-rate-chart.tsx. */
module SuccessRateChart {
  import opened Wrappers
  import opened Formatters
  import opened Charts

  /** An interval of the success-rate response (src/lib/types/metrics.ts). */
  datatype SuccessInterval = SuccessInterval(
    date: string, transactionCount: int, successfulTransactions: int, failedTransactions: int,
    intervalSuccessRate: real, intervalFailureRate: real)

  datatype SuccessPoint = SuccessPoint(date: string, successRate: real)

  /** `chartData`: one point per interval, oldest first. */
  function ChartData(loc: Locale, intervals: Option<seq<SuccessInterval>>): (r: Option<seq<SuccessPoint>>)
    ensures r.None? <==> intervals.None?
    ensures r.Some? ==> var s := intervals.value;
              |r.value| == |s|
              && forall i :: 0 <= i < |s| ==>
                   r.value[i] == SuccessPoint(loc.shortDate(s[|s| - 1 - i].date), s[|s| - 1 - i].intervalSuccessRate)
  {
    Series(intervals, (item: SuccessInterval) => SuccessPoint(loc.shortDate(item.date), item.intervalSuccessRate))
  }

  /** `Math.min(...xs)` over a non-empty list. */
  function MinOf(xs: seq<real>): (m: real)
    requires |xs| > 0
    ensures m in xs && forall x :: x in xs ==> m <= x
  {
    if |xs| == 1 then xs[0]
    else
      var m := MinOf(xs[1..]);
      assert forall x :: x in xs ==> x == xs[0] || x in xs[1..];
      if xs[0] <= m then xs[0] else m
  }

  function Rates(points: seq<SuccessPoint>): (r: seq<real>)
    ensures |r| == |points| && forall i :: 0 <= i < |points| ==> r[i] == points[i].successRate
  {
    seq(|points|, i requires 0 <= i < |points| => points[i].successRate)
  }

  /** `calculateDomainMin`: the lowest rate floored to a multiple of ten, kept within 0 to 99. */
  function DomainMin(chartData: Option<seq<SuccessPoint>>): (m: int)
    ensures 0 <= m <= 99
    ensures m % 10 == 0 || m == 99
    ensures chartData.None? || |chartData.value| == 0 ==> m == 0
    ensures chartData.Some? && |chartData.value| > 0 ==>
              var lo := MinOf(Rates(chartData.value));
              (lo >= 0.0 ==> m as real <= lo) && (0.0 <= lo < 100.0 ==> lo - 10.0 < m as real)
    ensures chartData.Some? && |chartData.value| > 0 ==>
              var lo := MinOf(Rates(chartData.value));
              (lo < 0.0 ==> m == 0) &&
              (0.0 <= lo < 100.0 ==> m % 10 == 0 && m as real <= lo < m as real + 10.0) &&
              (lo >= 100.0 ==> m == 99)
  {
    if chartData.None? || |chartData.value| == 0 then 0
    else
      var minValue := MinOf(Rates(chartData.value));
      var floorToTens := (minValue / 10.0).Floor * 10;
      var clamped := if floorToTens < 0 then 0 else floorToTens;
      if clamped > 99 then 99 else clamped
  }

  /** The axis starts at or below every point whose rate is a percentage. */
  lemma DomainMinBelowEveryPoint(chartData: seq<SuccessPoint>, i: nat)
    requires i < |chartData| && forall j :: 0 <= j < |chartData| ==> 0.0 <= chartData[j].successRate
    ensures DomainMin(Some(chartData)) as real <= chartData[i].successRate
  {
    var rates := Rates(chartData);
    assert rates[i] in rates;
    assert MinOf(rates) in rates;
  }
}
