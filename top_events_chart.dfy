/** The top-events chart of src/components/features/charts/top-events-chart.tsx. */
module TopEventsChart {
  import opened Wrappers
  import opened Strings
  import opened Charts
  import opened Enums
  import opened TopEventsTable

  datatype Bar = Bar(name: string, value: int)

  /** `chartData`: one bar per event, in the order received; no bars without data. */
  function ChartData(data: Option<seq<TopEvent>>, contractId: Option<string>): (r: seq<Bar>)
    ensures data.None? ==> r == []
    ensures data.Some? ==> |r| == |data.value|
    ensures data.Some? ==> forall i :: 0 <= i < |r| ==>
              r[i] == Bar(EntryName(contractId, data.value[i].contractNickname, data.value[i].eventName),
                          data.value[i].eventCount)
  {
    Entries(data, (e: TopEvent) => Bar(EntryName(contractId, e.contractNickname, e.eventName), e.eventCount))
  }

  /** On a contract's page the bars carry the bare event names; on the overview each name is
      prefixed by its contract's nickname. */
  lemma BarNames(data: seq<TopEvent>, contractId: Option<string>, i: nat)
    requires i < |data|
    ensures Truthy(contractId) ==> ChartData(Some(data), contractId)[i].name == data[i].eventName
    ensures !Truthy(contractId) ==>
              ChartData(Some(data), contractId)[i].name == data[i].contractNickname + ": " + data[i].eventName
  {
  }

  /** The query the chart issues: the contract (when scoped), the stored time range, the limit. */
  datatype ChartQuery = ChartQuery(contractId: Option<string>, range: Option<TimeRange>, limit: nat)

  function Query(contractId: Option<string>, storedRange: Option<TimeRange>, limit: Option<nat>): (q: ChartQuery)
    ensures q.contractId.Some? <==> Truthy(contractId)
    ensures q.contractId.Some? ==> q.contractId == contractId
    ensures q.range == storedRange
    ensures q.limit == if limit.Some? then limit.value else 10
  {
    ChartQuery(if Truthy(contractId) then contractId else None, storedRange, ChartLimit(limit))
  }
}
