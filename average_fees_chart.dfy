/** The fees chart of src/components/features/charts/average-fees-chart.tsx. */
module AverageFeesChart {
  import opened Wrappers
  import opened Strings
  import opened Formatters
  import opened Charts

  /** An interval of the fees response (src/lib/types/metrics.ts); amounts are in stroops. */
  datatype FeeInterval = FeeInterval(date: string, totalFees: real, avgFee: real, transactionCount: int)

  datatype FeePoint = FeePoint(date: string, totalFees: real, avgFee: real)

  /** `chartData`: one point per interval, oldest first, both amounts copied as they are. */
  function ChartData(loc: Locale, intervals: Option<seq<FeeInterval>>): (r: Option<seq<FeePoint>>)
    ensures r.None? <==> intervals.None?
    ensures r.Some? ==> var s := intervals.value;
              |r.value| == |s|
              && forall i :: 0 <= i < |s| ==>
                   var item := s[|s| - 1 - i];
                   r.value[i] == FeePoint(loc.shortDate(item.date), item.totalFees, item.avgFee)
  {
    Series(intervals, (item: FeeInterval) => FeePoint(loc.shortDate(item.date), item.totalFees, item.avgFee))
  }

  /** The tooltip's `formatter`: the amount in lumens, and the series renamed for display. */
  function TooltipEntry(loc: Locale, value: real, name: string): (r: (string, string))
    ensures r.0 == FormatNumber(loc, value, Stroop) && EndsWith(r.0, " XLM")
    ensures name == "totalFees" ==> r.1 == "Total Fees"
    ensures name == "avgFee" ==> r.1 == "Avg Fee"
    ensures name != "totalFees" && name != "avgFee" ==> r.1 == name
  {
    if name == "totalFees" || name == "avgFee" then
      (FormatNumber(loc, value, Stroop), if name == "totalFees" then "Total Fees" else "Avg Fee")
    else (FormatNumber(loc, value, Stroop), name)
  }

  /** Renaming is done once: a displayed name passes through unchanged. */
  lemma TooltipNameIdempotent(loc: Locale, value: real, name: string)
    ensures TooltipEntry(loc, value, TooltipEntry(loc, value, name).1).1 == TooltipEntry(loc, value, name).1
  {
  }
}
