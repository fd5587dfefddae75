/** The top-events table of src/components/features/top-events-table.tsx. */
module TopEventsTable {
  import opened Wrappers
  import opened Strings
  import opened Enums
  import opened Formatters
  import opened Tables

  /** A most-emitted event (src/lib/types/metrics.ts); its period comparison is not shown. */
  datatype TopEvent = TopEvent(contractId: string, contractNickname: string, eventName: string, eventCount: int)

  /** The event-name cell. */
  datatype NameCell = NameCell(text: string, monospace: bool)

  /** Names of 56 characters (a strkey contract address) or 64 (a hex hash) are shortened and set
      in monospace; every other name is shown as it is. */
  function EventNameCell(name: string): (c: NameCell)
    ensures c.monospace <==> |name| == 56 || |name| == 64
    ensures c.monospace ==> c.text == TruncateHash(name)
    ensures !c.monospace ==> c.text == name
  {
    if |name| == 56 || |name| == 64 then NameCell(TruncateHash(name), true) else NameCell(name, false)
  }

  /** An id-like name shows as exactly fifteen characters: six, "...", six. */
  lemma IdLikeNamesShowFifteen(name: string)
    requires |name| == 56 || |name| == 64
    ensures |EventNameCell(name).text| == 15
    ensures EventNameCell(name).text[..6] == name[..6] && EventNameCell(name).text[9..] == name[|name| - 6..]
  {
  }

  /** Every name the cell shows is either the name itself or no longer than fifteen characters,
      and showing a shown name again changes nothing unless it has one of the two id lengths. */
  lemma EventNameCellShape(name: string)
    ensures EventNameCell(name).text == name || |EventNameCell(name).text| == 15
    ensures EventNameCell(EventNameCell(name).text).text == EventNameCell(name).text
  {
  }

  datatype TopEventRow = TopEventRow(key: string, name: NameCell, count: int)

  function Row(e: TopEvent): (row: TopEventRow)
    ensures row.key == e.contractId + "." + e.eventName
    ensures row.name == EventNameCell(e.eventName) && row.count == e.eventCount
  {
    TopEventRow(e.contractId + "." + e.eventName, EventNameCell(e.eventName), e.eventCount)
  }

  /** `useState<number>(5)`: the limit the table starts with. */
  const InitialLimit: nat := 5

  /** The query: the time range as stored (no fallback here), and the limit. */
  datatype TopEventsQuery = TopEventsQuery(scope: QueryScope, range: Option<TimeRange>, limit: nat)

  function Query(contractId: Option<string>, storedRange: Option<TimeRange>, limit: nat): (q: TopEventsQuery)
    ensures q.scope.OneContract? <==> Truthy(contractId)
    ensures q.range == storedRange && q.limit == limit
  {
    TopEventsQuery(ScopeOf(contractId), storedRange, limit)
  }

  /** The query of the first render, before any limit is chosen: five events, the `LIMIT_5`
      option, over the stored range and scoped as `Query` scopes it. */
  function FirstQuery(contractId: Option<string>, storedRange: Option<TimeRange>): (q: TopEventsQuery)
    ensures q.limit == LimitValue(LIMIT_5)
    ensures q.range == storedRange && (q.scope.OneContract? <==> Truthy(contractId))
  {
    Query(contractId, storedRange, InitialLimit)
  }

  function Body(isLoading: bool, hasError: bool, previous: seq<TopEvent>, data: Option<seq<TopEvent>>)
    : (b: Tables.Body<TopEventRow>)
    ensures b.Rows? ==> var events := Kept(previous, data);
              |b.rows| == |events| && forall i :: 0 <= i < |events| ==> b.rows[i] == Row(events[i])
  {
    TableBody(isLoading, hasError, Kept(previous, data), Row)
  }
}
