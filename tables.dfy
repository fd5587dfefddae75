/**
 * What the three history and metrics tables (recent transactions, recent events, top events)
 * share: the body's choice between loading, error, empty and rows, the list a table keeps from
 * its query, its query scope and its status badge.
 */
module Tables {
  import opened Wrappers
  import opened Strings

  /** A table body: one message row, or one row per item. */
  datatype Body<R> = LoadingRow | ErrorRow | EmptyRow | Rows(rows: seq<R>)

  /** `isLoading ? … : error ? … : items.length === 0 ? … : items.map(row)`. */
  function TableBody<T, R>(isLoading: bool, hasError: bool, items: seq<T>, row: T -> R): (b: Body<R>)
    ensures b.LoadingRow? <==> isLoading
    ensures b.ErrorRow? <==> !isLoading && hasError
    ensures b.EmptyRow? <==> !isLoading && !hasError && |items| == 0
    ensures b.Rows? ==> |b.rows| == |items| > 0 && forall i :: 0 <= i < |items| ==> b.rows[i] == row(items[i])
  {
    if isLoading then LoadingRow
    else if hasError then ErrorRow
    else if |items| == 0 then EmptyRow
    else Rows(seq(|items|, i requires 0 <= i < |items| => row(items[i])))
  }

  /** The `useState` copy of the query's data: replaced whenever data arrives (an array, even an
      empty one, is truthy), kept while the query has none. */
  function Kept<T>(previous: seq<T>, data: Option<seq<T>>): (shown: seq<T>)
    ensures data.Some? ==> shown == data.value
    ensures data.None? ==> shown == previous
  {
    data.GetOr(previous)
  }

  /** Once the query has answered, the body shows its answer, whatever was kept before. */
  lemma AnsweredBodyIgnoresHistory<T, R>(previous: seq<T>, previous': seq<T>, answer: seq<T>, row: T -> R)
    ensures TableBody(false, false, Kept(previous, Some(answer)), row)
            == TableBody(false, false, Kept(previous', Some(answer)), row)
    ensures |answer| == 0 ==> TableBody(false, false, Kept(previous, Some(answer)), row) == EmptyRow
  {
  }

  /** Which hook a table reads from. */
  datatype QueryScope = AllContracts | OneContract(contractId: string)

  /** `contractId ? useContract…(contractId, …) : useAll…(…)`. */
  function ScopeOf(contractId: Option<string>): (s: QueryScope)
    ensures s.OneContract? <==> Truthy(contractId)
    ensures s.OneContract? ==> contractId == Some(s.contractId)
  {
    if Truthy(contractId) then OneContract(contractId.value) else AllContracts
  }

  datatype BadgeColor = Lime | Pink

  /** A status badge. */
  datatype StatusBadge = StatusBadge(text: string, color: BadgeColor)

  /** "Success" in lime for a successful call, "Failed" in pink otherwise. */
  function Status(ok: bool): (b: StatusBadge)
    ensures b.text == "Success" <==> ok
    ensures b.text == "Failed" <==> !ok
    ensures b.color == Lime <==> b.text == "Success"
  {
    if ok then StatusBadge("Success", Lime) else StatusBadge("Failed", Pink)
  }
}
