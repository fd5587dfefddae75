/** The statistic card of src/components/ui/stat.tsx: its period label and its badge colour. */
module Stat {
  import opened Wrappers
  import opened Strings
  import opened Enums
  import opened Formatters

  /** The ranges that have a label of their own. */
  predicate HasOwnLabel(t: TimeRange) {
    t in {WEEK_1, WEEK_2, MONTH_1, MONTH_3, MONTH_6}
  }

  const PreviousPeriod := "previous period"

  /** `timeRangeToString`. */
  function TimeRangeToString(t: TimeRange): (text: string)
    ensures text == PreviousPeriod <==> !HasOwnLabel(t)
    ensures HasOwnLabel(t) ==> StartsWith(text, "last ")
  {
    match t
    case WEEK_1 => "last week"
    case WEEK_2 => "last two weeks"
    case MONTH_1 => "last month"
    case MONTH_3 => "last three months"
    case MONTH_6 => "last six months"
    case _ => PreviousPeriod
  }

  /** The five own labels tell their ranges apart: the label of a range with its own label
      determines the range. */
  lemma TimeRangeLabelsDistinct(t: TimeRange, u: TimeRange)
    requires HasOwnLabel(t) && t != u
    ensures TimeRangeToString(t) != TimeRangeToString(u)
  {
  }

  /** The ranges the other modules read with no label of their own. */
  lemma PreviousPeriodRanges()
    ensures forall t :: t in {HOUR_1, HOUR_3, HOUR_6, HOUR_12, DAY_1, DAY_3, YEAR_1, ALL_TIME} ==>
              TimeRangeToString(t) == PreviousPeriod
  {
  }

  /** `state.timeRange || TimeRange.WEEK_1`: an unset stored range reads as one week. */
  function EffectiveTimeRange(stored: Option<TimeRange>): (t: TimeRange)
    ensures stored.Some? ==> t == stored.value
    ensures stored.None? ==> TimeRangeToString(t) == "last week"
  {
    stored.GetOr(WEEK_1)
  }

  datatype BadgeColor = Lime | Pink

  /** The change badge: lime for a change text that begins with "+", pink for any other. */
  function ChangeBadge(change: string): (c: BadgeColor)
    ensures c == Lime <==> |change| > 0 && change[0] == '+'
  {
    if StartsWith(change, "+") then Lime else Pink
  }

  /** What a `Stat` shows. */
  datatype StatView = StatView(title: string, value: string, badge: BadgeColor, change: string, period: string)

  function RenderStat(title: string, value: string, change: string, stored: Option<TimeRange>): (v: StatView)
    ensures v.title == title && v.value == value && v.change == change
    ensures v.badge == ChangeBadge(change)
    ensures v.period == "from " + TimeRangeToString(EffectiveTimeRange(stored))
  {
    StatView(title, value, ChangeBadge(change), change, "from " + TimeRangeToString(stored.GetOr(WEEK_1)))
  }

  /** Fed a formatted change, the badge is lime exactly for a `null` change (the infinity text) or
      a non-negative number, and pink for `undefined` ("-") and for negative numbers. */
  lemma BadgeOfFormattedChange(loc: Locale, x: MaybeNumber)
    requires FixedNeverSigned(loc)
    ensures ChangeBadge(FormatPercentageWithSign(loc, x)) == Lime <==> x.Null? || (x.Number? && x.n >= 0.0)
  {
    if x.Number? {
      PercentageSignIffNonNegative(loc, x.n);
    }
  }
}
