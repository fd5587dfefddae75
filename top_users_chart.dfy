/** The top-users treemap of src/components/features/charts/top-users-chart.tsx. */
module TopUsersChart {
  import opened Wrappers
  import opened Strings
  import opened Formatters
  import opened Charts
  import opened Enums

  /** A most-active account (src/lib/types/metrics.ts); its period comparison is not shown. */
  datatype TopUser = TopUser(contractId: string, contractNickname: string, user: string, transactionCount: real)

  /** A treemap tile; its fill is set later by the colour scale. */
  datatype Tile = Tile(name: string, size: real, color: string)

  const DefaultTileColor := "#fcd34d"

  /** `chartData`: one tile per user, in the order received; no tiles without data. */
  function ChartData(data: Option<seq<TopUser>>, contractId: Option<string>): (r: seq<Tile>)
    ensures data.None? ==> r == []
    ensures data.Some? ==> |r| == |data.value|
    ensures data.Some? ==> forall i :: 0 <= i < |r| ==>
              r[i] == Tile(EntryName(contractId, data.value[i].contractNickname, data.value[i].user),
                           data.value[i].transactionCount, DefaultTileColor)
  {
    Entries(data, (u: TopUser) => Tile(EntryName(contractId, u.contractNickname, u.user), u.transactionCount, DefaultTileColor))
  }

  /** What `CustomTooltip` shows: the hovered tile's name and its transaction count. */
  datatype TooltipText = TooltipText(name: string, transactions: string)

  /** `CustomTooltip`: nothing unless the tooltip is active and has a payload entry; then the first
      entry's tile. */
  function CustomTooltip(loc: Locale, active: bool, payload: Option<seq<Tile>>): (r: Option<TooltipText>)
    ensures r.Some? <==> active && payload.Some? && |payload.value| > 0
    ensures r.Some? ==> r.value.name == payload.value[0].name
    ensures r.Some? ==> r.value.transactions == "Transactions: " + FormatNumber(loc, payload.value[0].size, Plain)
  {
    if active && payload.Some? && |payload.value| > 0 then
      var tile := payload.value[0];
      Some(TooltipText(tile.name, "Transactions: " + FormatNumber(loc, tile.size, Plain)))
    else None
  }

  /** The query the chart issues: the contract (when scoped), the stored time range, the limit. */
  datatype ChartQuery = ChartQuery(contractId: Option<string>, range: Option<TimeRange>, limit: nat)

  function Query(contractId: Option<string>, storedRange: Option<TimeRange>, limit: Option<nat>): (q: ChartQuery)
    ensures q.contractId.Some? <==> Truthy(contractId)
    ensures q.contractId.Some? ==> q.contractId == contractId
    ensures q.range == storedRange
    ensures q.limit == if limit.Some? then limit.value else 10
  {
    ChartQuery(if Truthy(contractId) then contractId else None, storedRange, ChartLimit(limit))
  }
}
