/**
 * The overview grid of src/components/features/overview-statistics-grid.tsx: the key-path lookup
 * of `getStat`, its local number formatting, the four stat bindings, the query scope and the
 * period selector.
 */
module OverviewStatistics {
  import opened Wrappers
  import opened Strings
  import opened Enums
  import opened Formatters

  /** A JSON value as received from the metrics API, with `undefined` for an absent one. */
  datatype Json =
    | JUndefined
    | JNull
    | JNum(n: real)
    | JStr(s: string)
    | JBool(b: bool)
    | JObj(fields: map<string, Json>)

  /** JavaScript truthiness of a value. */
  predicate JTruthy(v: Json) {
    match v
    case JUndefined => false
    case JNull => false
    case JNum(n) => n != 0.0
    case JStr(s) => s != ""
    case JBool(b) => b
    case JObj(_) => true
  }

  /** `acc[key]` on a truthy value: the field when the object has it, `undefined` otherwise. */
  function Lookup(v: Json, key: string): (r: Json)
    ensures !v.JObj? ==> r == JUndefined
    ensures r != JUndefined ==> v.JObj? && key in v.fields && r == v.fields[key]
  {
    if v.JObj? && key in v.fields then v.fields[key] else JUndefined
  }

  /** `getValue`: `path.reduce((acc, key) => acc && acc[key], obj)`. A falsy value is carried
      through the rest of the walk unchanged, and a falsy field (a missing one included) ends it. */
  function GetValue(obj: Json, path: seq<string>): (r: Json)
    ensures !JTruthy(obj) ==> r == obj
    ensures path != [] && JTruthy(obj) && !JTruthy(Lookup(obj, path[0])) ==> r == Lookup(obj, path[0])
    decreases |path|
  {
    if path == [] then obj
    else GetValue(if JTruthy(obj) then Lookup(obj, path[0]) else obj, path[1..])
  }

  /** Walking a path in two legs is walking it in one. */
  lemma {:induction false} GetValueAppend(v: Json, p: seq<string>, q: seq<string>)
    ensures GetValue(v, p + q) == GetValue(GetValue(v, p), q)
    decreases |p|
  {
    if p == [] {
      assert p + q == q;
    } else {
      assert (p + q)[0] == p[0] && (p + q)[1..] == p[1..] + q;
      GetValueAppend(if JTruthy(v) then Lookup(v, p[0]) else v, p[1..], q);
    }
  }

  /** The values met on a path when every step looks its key up. */
  function Chain(v: Json, path: seq<string>): (c: seq<Json>)
    ensures |c| == |path| + 1 && c[0] == v
    decreases |path|
  {
    if path == [] then [v] else [v] + Chain(Lookup(v, path[0]), path[1..])
  }

  /** The first falsy value among all but the last, or else the last. */
  function FirstFalsyOrLast(c: seq<Json>): (r: Json)
    requires |c| > 0
    ensures r in c
    ensures (forall i :: 0 <= i < |c| - 1 ==> JTruthy(c[i])) ==> r == c[|c| - 1]
    ensures forall i :: 0 <= i < |c| - 1 && !JTruthy(c[i]) && (forall j :: 0 <= j < i ==> JTruthy(c[j])) ==> r == c[i]
  {
    if |c| == 1 || !JTruthy(c[0]) then c[0]
    else
      var r := FirstFalsyOrLast(c[1..]);
      assert forall i :: 1 <= i < |c| ==> c[i] == c[1..][i - 1];
      r
  }

  /** `getValue` returns the first falsy value met on the path (`undefined`, `null`, `0`, `""`
      or `false` itself), and the value at the end of the path when there is none. */
  lemma {:induction false} GetValueIsFirstFalsy(v: Json, path: seq<string>)
    ensures GetValue(v, path) == FirstFalsyOrLast(Chain(v, path))
    decreases |path|
  {
    if path != [] {
      if JTruthy(v) {
        GetValueIsFirstFalsy(Lookup(v, path[0]), path[1..]);
        assert Chain(v, path)[1..] == Chain(Lookup(v, path[0]), path[1..]);
      }
    }
  }

  // ---- the local formatters ----

  /** The grid's own `formatNumber`: two decimals for a percentage, lumens with two decimals for
      a stroop amount, otherwise compact notation with at most one fraction digit. */
  function GridFormatNumber(loc: Locale, num: real, options: NumberOptions): (r: string)
    ensures options.isPercentage ==> r == FormatNumber(loc, num, options)
    ensures !options.isPercentage && options.isStroop ==> r == ConvertStroopsToLumens(loc, num)
    ensures !options.isPercentage && !options.isStroop ==> r == loc.compact1(num)
  {
    if options.isPercentage then loc.toFixed2(num) + "%"
    else if options.isStroop then loc.toFixed2(num / 10000000.0) + " XLM"
    else loc.compact1(num)
  }

  /** The grid's own `formatPercentageWithSign`, the same as the shared one. */
  function GridFormatPercentageWithSign(loc: Locale, num: MaybeNumber): (r: string)
    ensures r == FormatPercentageWithSign(loc, num)
  {
    match num
    case Undefined => "-"
    case Null => "+\U{00E2}\U{02C6}\U{017E}"
    case Number(n) => (if n >= 0.0 then "+" else "") + loc.toFixed2(n) + "%"
  }

  // ---- getStat ----

  datatype StatText = StatText(value: string, change: string)

  /** A looked-up change as the `number | null | undefined` it is declared to be; other values
      have no model. */
  function AsMaybeNumber(v: Json): Option<MaybeNumber> {
    match v
    case JUndefined => Some(Undefined)
    case JNull => Some(Null)
    case JNum(n) => Some(Number(n))
    case _ => None
  }

  /** `getStat`: the value (a falsy one shows as 0) and the signed change. `None` when a looked-up
      value is neither a number nor falsy, or a change is not a number, `null` or `undefined`. */
  function GetStat(loc: Locale, data: Json, valuePath: seq<string>, changePath: seq<string>, options: NumberOptions)
    : (r: Option<StatText>)
    ensures r.Some? ==> AsMaybeNumber(GetValue(data, changePath)).Some?
    ensures r.Some? ==> r.value.change == FormatPercentageWithSign(loc, AsMaybeNumber(GetValue(data, changePath)).value)
    ensures r.Some? && !JTruthy(GetValue(data, valuePath)) ==> r.value.value == GridFormatNumber(loc, 0.0, options)
    ensures r.Some? && GetValue(data, valuePath).JNum? ==> r.value.value == GridFormatNumber(loc, GetValue(data, valuePath).n, options)
    ensures r.None? <==> (JTruthy(GetValue(data, valuePath)) && !GetValue(data, valuePath).JNum?)
                         || AsMaybeNumber(GetValue(data, changePath)).None?
  {
    var v := GetValue(data, valuePath);
    var c := AsMaybeNumber(GetValue(data, changePath));
    if c.None? then None
    else if !JTruthy(v) then Some(StatText(GridFormatNumber(loc, 0.0, options), GridFormatPercentageWithSign(loc, c.value)))
    else if v.JNum? then Some(StatText(GridFormatNumber(loc, v.n, options), GridFormatPercentageWithSign(loc, c.value)))
    else None
  }

  /** While a query has no data yet, its stat shows zero and "-". */
  lemma NoDataShowsZero(loc: Locale, valuePath: seq<string>, changePath: seq<string>, options: NumberOptions)
    ensures GetStat(loc, JUndefined, valuePath, changePath, options)
            == Some(StatText(GridFormatNumber(loc, 0.0, options), "-"))
  {
  }

  /** A `null` comparison object, not only a `null` percentage, shows the infinity text. */
  lemma NullComparisonShowsInfinity(loc: Locale, data: map<string, Json>, total: string, compared: string, options: NumberOptions)
    requires compared in data && data[compared] == JNull
    requires total in data ==> data[total].JNum? || !JTruthy(data[total])
    ensures GetStat(loc, JObj(data), [total], [compared, "percentageChange"], options).Some?
    ensures GetStat(loc, JObj(data), [total], [compared, "percentageChange"], options).value.change == InfinityText
  {
    assert GetValue(JObj(data), [total]) == Lookup(JObj(data), total);
    assert GetValue(JObj(data), [compared, "percentageChange"]) == GetValue(JNull, ["percentageChange"]);
  }

  // ---- the four stats ----

  datatype StatBinding = StatBinding(title: string, valuePath: seq<string>, changePath: seq<string>, options: NumberOptions)

  const VolumeStat := StatBinding("Transaction volume", ["totalVolume"], ["comparedTotalVolume", "percentageChange"], Plain)
  const UsersStat := StatBinding("Unique users", ["totalUniqueUsers"], ["comparedTotalUniqueUsers", "percentageChange"], Plain)
  const SuccessRateStat := StatBinding("Success rate", ["overallSuccessRate"], ["comparedOverallSuccessRate", "percentageChange"], Percentage)
  const FeeStat := StatBinding("Average gas usage", ["overallAvgFee"], ["comparedOverallAvgFee", "percentageChange"], Stroop)

  /** A bound stat: a percentage stat shows its value with "%", a stroop stat in lumens. */
  function Bound(loc: Locale, b: StatBinding, data: Json): (r: Option<StatText>)
    ensures r.Some? && b.options.isPercentage ==> EndsWith(r.value.value, "%")
    ensures r.Some? && !b.options.isPercentage && b.options.isStroop ==> EndsWith(r.value.value, " XLM")
  {
    GetStat(loc, data, b.valuePath, b.changePath, b.options)
  }

  /** A fee response has the fields `avgFee` and `comparedAvgFee` but not the `overallAvgFee` and
      `comparedOverallAvgFee` the fee stat reads, so it always shows zero lumens and "-". */
  lemma FeeStatIgnoresFeeResponse(loc: Locale, fees: map<string, Json>)
    requires "overallAvgFee" !in fees && "comparedOverallAvgFee" !in fees
    ensures Bound(loc, FeeStat, JObj(fees)) == Some(StatText(ConvertStroopsToLumens(loc, 0.0), "-"))
  {
    assert GetValue(JObj(fees), ["comparedOverallAvgFee", "percentageChange"]) == GetValue(JUndefined, ["percentageChange"]);
  }

  /** Each stat's figure, taken from a response that carries it and its comparison. */
  lemma BoundStatShowsFigure(loc: Locale, b: StatBinding, fields: map<string, Json>, figure: real, change: real)
    requires b in {VolumeStat, UsersStat, SuccessRateStat, FeeStat}
    requires b.valuePath[0] in fields && fields[b.valuePath[0]] == JNum(figure)
    requires b.changePath[0] in fields && fields[b.changePath[0]] == JObj(map["percentageChange" := JNum(change)])
    ensures Bound(loc, b, JObj(fields)) == Some(StatText(GridFormatNumber(loc, figure, b.options), FormatPercentageWithSign(loc, Number(change))))
  {
  }

  // ---- query scope and period ----

  /** Which hook a stat reads from. */
  datatype MetricsScope = AllContracts(range: TimeRange) | OneContract(contractId: string, range: TimeRange)

  /** The four stats read the contract-scoped hooks exactly when `contractId` is truthy. */
  function Scope(contractId: Option<string>, range: TimeRange): (s: MetricsScope)
    ensures s.range == range
    ensures s.OneContract? <==> Truthy(contractId)
    ensures s.OneContract? ==> Some(s.contractId) == contractId
  {
    if Truthy(contractId) then OneContract(contractId.value, range) else AllContracts(range)
  }

  /** The options of the period `Select`, as (value, label) pairs. */
  const PeriodOptions: seq<(TimeRange, string)> := [
    (WEEK_1, "Last week"), (WEEK_2, "Last two weeks"), (MONTH_1, "Last month"),
    (MONTH_3, "Last three months"), (MONTH_6, "Last six months"), (YEAR_1, "All time")]

  /** `setTimeRange(e.target.value as TimeRange)`: the chosen option's value read back. */
  function SelectPeriod(i: nat): (r: Option<TimeRange>)
    requires i < |PeriodOptions|
    ensures r == Some(PeriodOptions[i].0)
  {
    TimeRangeRoundTrip(PeriodOptions[i].0, PeriodOptions[i].0);
    ParseTimeRange(TimeRangeValue(PeriodOptions[i].0))
  }

  /** Six distinct periods are offered; "All time" selects one year, and `ALL_TIME` and the hour
      and day ranges cannot be selected. */
  lemma PeriodOptionsShape()
    ensures |PeriodOptions| == 6
    ensures forall i, j :: 0 <= i < j < |PeriodOptions| ==> PeriodOptions[i].0 != PeriodOptions[j].0
    ensures forall i :: 0 <= i < |PeriodOptions| && PeriodOptions[i].1 == "All time" ==> PeriodOptions[i].0 == YEAR_1
    ensures forall i :: 0 <= i < |PeriodOptions| ==> PeriodOptions[i].0 !in {ALL_TIME, HOUR_1, HOUR_3, HOUR_6, HOUR_12, DAY_1, DAY_3}
  {
  }
}
