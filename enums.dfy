/** The `TimeRange` and `Limit` enumerations (src/lib/types/enum.ts). */
module Enums {
  import opened Wrappers
  import opened Strings

  /** Time window of a metric query; the string value of each member is its own name. */
  datatype TimeRange =
    | HOUR_1 | HOUR_3 | HOUR_6 | HOUR_12
    | DAY_1 | DAY_3
    | WEEK_1 | WEEK_2
    | MONTH_1 | MONTH_3 | MONTH_6
    | YEAR_1 | ALL_TIME

  /** The members in declaration order. */
  const AllTimeRanges: seq<TimeRange> :=
    [HOUR_1, HOUR_3, HOUR_6, HOUR_12, DAY_1, DAY_3, WEEK_1, WEEK_2, MONTH_1, MONTH_3, MONTH_6, YEAR_1, ALL_TIME]

  /** The string each member stands for at run time (what is sent as `?timeRange=`). */
  function TimeRangeValue(t: TimeRange): string {
    match t
    case HOUR_1 => "HOUR_1"
    case HOUR_3 => "HOUR_3"
    case HOUR_6 => "HOUR_6"
    case HOUR_12 => "HOUR_12"
    case DAY_1 => "DAY_1"
    case DAY_3 => "DAY_3"
    case WEEK_1 => "WEEK_1"
    case WEEK_2 => "WEEK_2"
    case MONTH_1 => "MONTH_1"
    case MONTH_3 => "MONTH_3"
    case MONTH_6 => "MONTH_6"
    case YEAR_1 => "YEAR_1"
    case ALL_TIME => "ALL_TIME"
  }

  /** A member's value is its unit and count, so the unit prefix tells the groups of members
      apart, and only ALL_TIME has no count. */
  lemma TimeRangeValueUnit(t: TimeRange)
    ensures var r := TimeRangeValue(t);
            && (StartsWith(r, "HOUR_") <==> t in {HOUR_1, HOUR_3, HOUR_6, HOUR_12})
            && (StartsWith(r, "DAY_") <==> t in {DAY_1, DAY_3})
            && (StartsWith(r, "WEEK_") <==> t in {WEEK_1, WEEK_2})
            && (StartsWith(r, "MONTH_") <==> t in {MONTH_1, MONTH_3, MONTH_6})
            && (StartsWith(r, "YEAR_") <==> t == YEAR_1)
            && (r == "ALL_TIME" <==> t == ALL_TIME)
  {
    var r := TimeRangeValue(t);
    assert forall n :: 0 < n <= |r| ==> r[..n][0] == r[0];
  }

  /** Reading a string back as a member: what `value as TimeRange` relies on. */
  function ParseTimeRange(s: string): (r: Option<TimeRange>)
    ensures r.Some? ==> TimeRangeValue(r.value) == s
  {
    if s == "HOUR_1" then Some(HOUR_1)
    else if s == "HOUR_3" then Some(HOUR_3)
    else if s == "HOUR_6" then Some(HOUR_6)
    else if s == "HOUR_12" then Some(HOUR_12)
    else if s == "DAY_1" then Some(DAY_1)
    else if s == "DAY_3" then Some(DAY_3)
    else if s == "WEEK_1" then Some(WEEK_1)
    else if s == "WEEK_2" then Some(WEEK_2)
    else if s == "MONTH_1" then Some(MONTH_1)
    else if s == "MONTH_3" then Some(MONTH_3)
    else if s == "MONTH_6" then Some(MONTH_6)
    else if s == "YEAR_1" then Some(YEAR_1)
    else if s == "ALL_TIME" then Some(ALL_TIME)
    else None
  }

  /** Every member is listed once, and the enumeration has thirteen members. */
  lemma AllTimeRangesComplete(t: TimeRange)
    ensures |AllTimeRanges| == 13
    ensures t in AllTimeRanges
    ensures forall i, j :: 0 <= i < j < |AllTimeRanges| ==> AllTimeRanges[i] != AllTimeRanges[j]
  {
  }

  /** Each member's value reads back as that member, so distinct members have distinct values. */
  lemma TimeRangeRoundTrip(t: TimeRange, u: TimeRange)
    ensures ParseTimeRange(TimeRangeValue(t)) == Some(t)
    ensures TimeRangeValue(t) == TimeRangeValue(u) ==> t == u
  {
    match t
    case HOUR_1 =>
    case HOUR_3 =>
    case HOUR_6 =>
    case HOUR_12 =>
    case DAY_1 =>
    case DAY_3 =>
    case WEEK_1 =>
    case WEEK_2 =>
    case MONTH_1 =>
    case MONTH_3 =>
    case MONTH_6 =>
    case YEAR_1 =>
    case ALL_TIME =>
    assert ParseTimeRange(TimeRangeValue(u)) == Some(u);
  }

  /** Page size of a history or top-N query. */
  datatype Limit = LIMIT_1 | LIMIT_5 | LIMIT_10 | LIMIT_25 | LIMIT_50 | LIMIT_100

  /** The members in declaration order. */
  const AllLimits: seq<Limit> := [LIMIT_1, LIMIT_5, LIMIT_10, LIMIT_25, LIMIT_50, LIMIT_100]

  function LimitValue(l: Limit): (n: nat)
    ensures n in {1, 5, 10, 25, 50, 100}
  {
    match l
    case LIMIT_1 => 1
    case LIMIT_5 => 5
    case LIMIT_10 => 10
    case LIMIT_25 => 25
    case LIMIT_50 => 50
    case LIMIT_100 => 100
  }

  /** The values are positive and strictly increase in declaration order, so the map is injective. */
  lemma LimitValuesIncreasing(l: Limit)
    ensures l in AllLimits && |AllLimits| == 6
    ensures LimitValue(l) > 0
    ensures forall i, j :: 0 <= i < j < |AllLimits| ==> LimitValue(AllLimits[i]) < LimitValue(AllLimits[j])
  {
  }
}
