/** The recent-transactions table of src/components/features/recent-tx-table.tsx. */
module RecentTxTable {
  import opened Wrappers
  import opened Strings
  import opened Enums
  import opened Formatters
  import opened Tables

  /** A contract-call argument (src/lib/types/history.ts). */
  datatype Parameter = Parameter(kind: string, value: string)

  datatype RecentTransaction = RecentTransaction(
    contractId: string,
    contractNickname: Option<string>,
    sourceAccount: string,
    transactionHash: string,
    ledgerSequence: int,
    createdAt: string,
    functionName: string,
    parameters: seq<Parameter>,
    successful: bool,
    feeCharged: real)

  // ---- the file's own helpers, copies of the shared ones ----

  /** The table's own `truncateHash`. */
  function LocalTruncateHash(hash: string): (r: string)
    ensures r == TruncateHash(hash)
  {
    if |hash| <= 12 then hash else hash[..6] + "..." + hash[|hash| - 6..]
  }

  /** The table's own `convertStroopsToLumens`. */
  function LocalConvertStroopsToLumens(loc: Locale, stroops: real): (r: string)
    ensures r == ConvertStroopsToLumens(loc, stroops)
  {
    var lumens := stroops / 10000000.0;
    loc.toFixed2(lumens) + " XLM"
  }

  /** The table's own `camelToSnakeCase`, the same regex and lower-casing as the shared one. */
  function LocalCamelToSnakeCase(s: string): (r: string)
    ensures r == CamelToSnakeCase(s)
  {
    LowerCase(SeparateWords(s))
  }

  // ---- the Function cell ----

  /** `s.indexOf(pat, from)`: the leftmost occurrence at or after `from`. */
  function IndexOf(s: string, pat: string, from: nat): (r: Option<nat>)
    requires from <= |s|
    ensures r.Some? ==> from <= r.value && OccursAt(s, pat, r.value)
                        && forall j :: from <= j < r.value ==> !OccursAt(s, pat, j)
    ensures r.None? ==> forall j :: from <= j <= |s| ==> !OccursAt(s, pat, j)
    decreases |s| - from
  {
    if OccursAt(s, pat, from) then Some(from)
    else if from == |s| then None
    else IndexOf(s, pat, from + 1)
  }

  /** `s.replace(pat, '')` with a string pattern: only the leftmost occurrence is removed. */
  function RemoveFirst(s: string, pat: string): (r: string)
    ensures IndexOf(s, pat, 0).None? ==> r == s
    ensures IndexOf(s, pat, 0).Some? ==>
              var i := IndexOf(s, pat, 0).value;
              r == s[..i] + s[i + |pat|..] && |r| == |s| - |pat|
  {
    match IndexOf(s, pat, 0)
    case None => s
    case Some(i) => s[..i] + s[i + |pat|..]
  }

  /** The prefix the Stellar SDK's host-function type names carry. */
  const HostFunctionPrefix := "HostFunctionTypeHostFunctionType"

  /** `parameters.find(p => p.type === 'Sym')?.value`. */
  function FirstSymValue(params: seq<Parameter>): (r: Option<string>)
    ensures r.None? <==> forall i :: 0 <= i < |params| ==> params[i].kind != "Sym"
    ensures r.Some? ==> exists i :: 0 <= i < |params| && params[i].kind == "Sym" && params[i].value == r.value
                                    && forall j :: 0 <= j < i ==> params[j].kind != "Sym"
  {
    if params == [] then None
    else if params[0].kind == "Sym" then Some(params[0].value)
    else
      var r := FirstSymValue(params[1..]);
      assert forall i :: 1 <= i < |params| ==> params[i] == params[1..][i - 1];
      r
  }

  /** The Function cell: the first symbol argument when it is non-empty, otherwise the function
      name without its first host-function prefix, in snake case. */
  function FunctionLabel(tx: RecentTransaction): (r: string)
    ensures Truthy(FirstSymValue(tx.parameters)) ==> r == FirstSymValue(tx.parameters).value
    ensures !Truthy(FirstSymValue(tx.parameters)) ==>
              r == CamelToSnakeCase(RemoveFirst(tx.functionName, HostFunctionPrefix))
  {
    var sym := FirstSymValue(tx.parameters);
    if Truthy(sym) then sym.value
    else LocalCamelToSnakeCase(RemoveFirst(tx.functionName, HostFunctionPrefix))
  }

  /** Without a symbol argument the label is the name after the prefix, in lower case: it has no
      upper-case letter, and it keeps the name's letters in order with "_" added between words. */
  lemma FunctionLabelFromName(tx: RecentTransaction, rest: string)
    requires forall i :: 0 <= i < |tx.parameters| ==> tx.parameters[i].kind != "Sym"
    requires tx.functionName == HostFunctionPrefix + rest
    ensures FunctionLabel(tx) == CamelToSnakeCase(rest)
    ensures NoUpper(FunctionLabel(tx))
    ensures |FunctionLabel(tx)| == |rest| + Boundaries(rest)
  {
    RemoveLeading(HostFunctionPrefix, rest);
  }

  /** A pattern at the very start is the leftmost occurrence, so it is the one removed. */
  lemma RemoveLeading(pat: string, rest: string)
    ensures RemoveFirst(pat + rest, pat) == rest
  {
    var s := pat + rest;
    assert s[..|pat|] == pat;
    assert IndexOf(s, pat, 0) == Some(0);
    assert s[|pat|..] == rest;
  }

  // ---- rows ----

  /** One rendered row. */
  datatype TxRow = TxRow(
    key: string, hash: string, hashLink: string, from: string, fromLink: string,
    contract: Option<string>, functionLabel: string, date: string, fee: string, status: StatusBadge)

  const ExplorerTx := "https://stellar.expert/explorer/public/tx/"

  function Row(loc: Locale, tx: RecentTransaction): (row: TxRow)
    ensures row.key == tx.transactionHash
    ensures row.hash == TruncateHash(tx.transactionHash) && row.from == TruncateHash(tx.sourceAccount)
    ensures row.hashLink == ExplorerTx + tx.transactionHash
    ensures row.fee == ConvertStroopsToLumens(loc, tx.feeCharged)
    ensures row.status == Status(tx.successful)
    ensures row.functionLabel == FunctionLabel(tx)
  {
    TxRow(tx.transactionHash, LocalTruncateHash(tx.transactionHash), ExplorerTx + tx.transactionHash,
          LocalTruncateHash(tx.sourceAccount), "/accounts/" + tx.sourceAccount, tx.contractNickname,
          FunctionLabel(tx), loc.dateTime(tx.createdAt), LocalConvertStroopsToLumens(loc, tx.feeCharged),
          Status(tx.successful))
  }

  /** The page size the table starts with. */
  const InitialLimit := LIMIT_5

  /** The query the table issues. */
  datatype TxQuery = TxQuery(scope: QueryScope, limit: Limit)

  function Query(contractId: Option<string>, limit: Limit): (q: TxQuery)
    ensures q.scope.OneContract? <==> Truthy(contractId)
    ensures q.limit == limit
  {
    TxQuery(ScopeOf(contractId), limit)
  }

  /** The table body, from the query state and the transactions kept so far. */
  function Body(loc: Locale, isLoading: bool, hasError: bool, previous: seq<RecentTransaction>,
                data: Option<seq<RecentTransaction>>): (b: Tables.Body<TxRow>)
    ensures b.Rows? ==> var txs := Kept(previous, data);
              |b.rows| == |txs| && forall i :: 0 <= i < |txs| ==> b.rows[i] == Row(loc, txs[i])
  {
    TableBody(isLoading, hasError, Kept(previous, data), (tx: RecentTransaction) => Row(loc, tx))
  }

  /** Rows follow the input order and are keyed by hash, so distinct hashes give distinct keys. */
  lemma RowKeysFollowHashes(loc: Locale, previous: seq<RecentTransaction>, data: Option<seq<RecentTransaction>>)
    requires var txs := Kept(previous, data);
             forall i, j :: 0 <= i < j < |txs| ==> txs[i].transactionHash != txs[j].transactionHash
    ensures var b := Body(loc, false, false, previous, data);
            b.Rows? ==> forall i, j :: 0 <= i < j < |b.rows| ==> b.rows[i].key != b.rows[j].key
  {
  }
}
