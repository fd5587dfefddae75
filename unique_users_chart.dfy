/** The unique-users chart of src/components/features/charts/unique-users-chart.tsx. */
module UniqueUsersChart {
  import opened Wrappers
  import opened Formatters
  import opened Charts

  /** An interval of the unique-users response (src/lib/types/metrics.ts). */
  datatype UsersInterval = UsersInterval(date: string, uniqueUsers: int)

  datatype UsersPoint = UsersPoint(date: string, users: int)

  /** `chartData`: one point per interval, oldest first, with the interval's user count. */
  function ChartData(loc: Locale, intervals: Option<seq<UsersInterval>>): (r: Option<seq<UsersPoint>>)
    ensures r.None? <==> intervals.None?
    ensures r.Some? ==> var s := intervals.value;
              |r.value| == |s|
              && forall i :: 0 <= i < |s| ==>
                   r.value[i] == UsersPoint(loc.shortDate(s[|s| - 1 - i].date), s[|s| - 1 - i].uniqueUsers)
  {
    Series(intervals, (item: UsersInterval) => UsersPoint(loc.shortDate(item.date), item.uniqueUsers))
  }

  /** Listing the intervals in the order the chart draws them and charting that list gives the
      API order back. */
  lemma ChartingReversedInput(loc: Locale, intervals: seq<UsersInterval>, drawn: seq<UsersInterval>)
    requires |drawn| == |intervals| && forall i :: 0 <= i < |drawn| ==> drawn[i] == intervals[|intervals| - 1 - i]
    ensures |ChartData(loc, Some(drawn)).value| == |intervals|
    ensures forall i :: 0 <= i < |intervals| ==>
              ChartData(loc, Some(drawn)).value[i] == UsersPoint(loc.shortDate(intervals[i].date), intervals[i].uniqueUsers)
  {
    forall i | 0 <= i < |intervals|
      ensures ChartData(loc, Some(drawn)).value[i] == UsersPoint(loc.shortDate(intervals[i].date), intervals[i].uniqueUsers)
    {
      assert drawn[|drawn| - 1 - i] == intervals[i];
    }
  }
}
