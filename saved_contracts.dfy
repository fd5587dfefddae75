/**
 * The saved-contracts hooks of src/hooks/useSavedContracts.ts: the list query's validation and
 * projection, its `select` (an in-place sort by modification time, newest first), the by-id
 * query's enable rule, and the cache invalidation done by the four mutation hooks.
 *
 * `updatedAt` is the millisecond timestamp `new Date(updatedAt).getTime()` would give.
 */
module SavedContracts {
  import opened Wrappers

  /** src/lib/types/savedContracts.ts */
  datatype SavedContract = SavedContract(
    contractId: string, nickname: string, isDefault: bool, createdAt: string, updatedAt: int)

  /** The `results` field of the list response, as received. */
  datatype ResultsField = ArrayOf(items: seq<SavedContract>) | NotAnArray

  datatype ListResponse = ListResponse(results: ResultsField)

  const UnexpectedFormat := "Unexpected response format"

  /** `{ ...contract, contractId, nickname, isDefault, createdAt, updatedAt }`: every field is
      copied from the element itself. */
  function Project(c: SavedContract): (r: SavedContract)
    ensures r == c
  {
    SavedContract(c.contractId, c.nickname, c.isDefault, c.createdAt, c.updatedAt)
  }

  function ProjectAll(items: seq<SavedContract>): (r: seq<SavedContract>)
    ensures |r| == |items|
    ensures forall i :: 0 <= i < |items| ==> r[i] == Project(items[i])
    ensures r == items
  {
    if items == [] then [] else [Project(items[0])] + ProjectAll(items[1..])
  }

  /** The list query's `queryFn` after `getAll` resolved with `response` (None: a falsy body). */
  function ListQuery(response: Option<ListResponse>): (r: Settled<seq<SavedContract>, string>)
    ensures r.Rejected? <==> response.None? || response.value.results.NotAnArray?
    ensures r.Rejected? ==> r.error == UnexpectedFormat
    ensures r.Resolved? ==> r.value == response.value.results.items
  {
    match response
    case None => Rejected(UnexpectedFormat)
    case Some(body) =>
      match body.results
      case NotAnArray => Rejected(UnexpectedFormat)
      case ArrayOf(items) =>
        Resolved(ProjectAll(items))
  }

  /** `useSavedContractById`'s `enabled: !!id`. */
  function ByIdEnabled(id: string): (enabled: bool)
    ensures enabled <==> |id| > 0
  {
    id != ""
  }

  // ---- select: data.sort((a, b) => b.updatedAt - a.updatedAt) ----

  ghost predicate NewestFirst(s: seq<SavedContract>) {
    forall i, j :: 0 <= i < j < |s| ==> s[i].updatedAt >= s[j].updatedAt
  }

  /** The records carrying timestamp t, in their order: `Array.prototype.sort` is stable, so
      the sort keeps each of these runs in the order it received them. */
  function WithTimestamp(s: seq<SavedContract>, t: int): seq<SavedContract>
  {
    if s == [] then [] else (if s[0].updatedAt == t then [s[0]] else []) + WithTimestamp(s[1..], t)
  }

  lemma {:induction false} WithTimestampAppend(a: seq<SavedContract>, b: seq<SavedContract>, t: int)
    ensures WithTimestamp(a + b, t) == WithTimestamp(a, t) + WithTimestamp(b, t)
  {
    if a == [] {
      assert a + b == b;
    } else {
      var head := if a[0].updatedAt == t then [a[0]] else [];
      assert (a + b)[0] == a[0] && (a + b)[1..] == a[1..] + b;
      assert WithTimestamp(a + b, t) == head + WithTimestamp(a[1..] + b, t);
      WithTimestampAppend(a[1..], b, t);
      assert WithTimestamp(a, t) == head + WithTimestamp(a[1..], t);
    }
  }

  /** Exchanging two neighbours with different timestamps keeps every run of equal timestamps. */
  lemma SwapKeepsRuns(s: seq<SavedContract>, j: nat, t: int)
    requires 0 < j < |s| && s[j - 1].updatedAt != s[j].updatedAt
    ensures WithTimestamp(s[j - 1 := s[j]][j := s[j - 1]], t) == WithTimestamp(s, t)
  {
    var s' := s[j - 1 := s[j]][j := s[j - 1]];
    var a, b := s[..j - 1], s[j + 1..];
    assert s == a + [s[j - 1], s[j]] + b;
    assert s' == a + [s[j], s[j - 1]] + b;
    WithTimestampAppend(a + [s[j - 1], s[j]], b, t);
    WithTimestampAppend(a, [s[j - 1], s[j]], t);
    WithTimestampAppend(a + [s[j], s[j - 1]], b, t);
    WithTimestampAppend(a, [s[j], s[j - 1]], t);
    WithTimestampAppend([s[j - 1]], [s[j]], t);
    WithTimestampAppend([s[j]], [s[j - 1]], t);
  }

  /** s and s0 hold the same run of records for every timestamp. */
  ghost predicate SameRuns(s: seq<SavedContract>, s0: seq<SavedContract>) {
    forall t :: WithTimestamp(s, t) == WithTimestamp(s0, t)
  }

  /** The first n records are newest first. */
  ghost predicate NewestFirstUpTo(s: seq<SavedContract>, n: nat) {
    forall x, y :: 0 <= x < y < n && y < |s| ==> s[x].updatedAt >= s[y].updatedAt
  }

  /** Exchanges `a[j-1]` and `a[j]`, whose timestamps differ. */
  method SwapDown(a: array<SavedContract>, j: nat)
    requires 0 < j < a.Length && a[j - 1].updatedAt != a[j].updatedAt
    modifies a
    ensures a[..] == old(a[..])[j - 1 := old(a[j])][j := old(a[j - 1])]
    ensures multiset(a[..]) == multiset(old(a[..]))
    ensures SameRuns(a[..], old(a[..]))
  {
    a[j - 1], a[j] := a[j], a[j - 1];
    forall t ensures WithTimestamp(a[..], t) == WithTimestamp(old(a[..]), t) {
      SwapKeepsRuns(old(a[..]), j, t);
    }
  }

  /** Moves `a[i]` down past the newer-than-it records before it, leaving `a[..i+1]` newest first. */
  method InsertDown(a: array<SavedContract>, i: nat)
    requires 0 < i < a.Length && NewestFirstUpTo(a[..], i)
    modifies a
    ensures NewestFirstUpTo(a[..], i + 1)
    ensures multiset(a[..]) == multiset(old(a[..]))
    ensures SameRuns(a[..], old(a[..]))
  {
    var j := i;
    while j > 0 && a[j - 1].updatedAt < a[j].updatedAt
      invariant 0 <= j <= i
      invariant Inserting(a[..], i, j)
      invariant multiset(a[..]) == multiset(old(a[..]))
      invariant SameRuns(a[..], old(a[..]))
    {
      InsertingStep(a[..], i, j);
      SwapDown(a, j);
      j := j - 1;
    }
    InsertingDone(a[..], i, j);
  }

  /** While `a[i]` moves down to position j: the others in `a[..i+1]` are newest first, and the
      moving record is older than every record after it. */
  ghost predicate Inserting(s: seq<SavedContract>, i: nat, j: nat)
    requires j <= i < |s|
  {
    && (forall x, y :: 0 <= x < y <= i && x != j && y != j ==> s[x].updatedAt >= s[y].updatedAt)
    && (forall y :: j < y <= i ==> s[j].updatedAt > s[y].updatedAt)
  }

  /** Exchanging the moving record with an older neighbour keeps `Inserting` one place lower. */
  lemma InsertingStep(s: seq<SavedContract>, i: nat, j: nat)
    requires 0 < j <= i < |s| && Inserting(s, i, j) && s[j - 1].updatedAt < s[j].updatedAt
    ensures Inserting(s[j - 1 := s[j]][j := s[j - 1]], i, j - 1)
  {
    var s' := s[j - 1 := s[j]][j := s[j - 1]];
    forall x, y | 0 <= x < y <= i && x != j - 1 && y != j - 1
      ensures s'[x].updatedAt >= s'[y].updatedAt
    {
      if x == j {
        assert s'[x] == s[j - 1] && s'[y] == s[y];
      } else if y == j {
        assert s'[y] == s[j - 1] && s'[x] == s[x];
      }
    }
  }

  /** When the moving record meets a record at least as new, `s[..i+1]` is newest first. */
  lemma InsertingDone(s: seq<SavedContract>, i: nat, j: nat)
    requires j <= i < |s| && Inserting(s, i, j)
    requires j == 0 || s[j - 1].updatedAt >= s[j].updatedAt
    ensures NewestFirstUpTo(s, i + 1)
  {
  }

  /** The list query's `select`: sorts the array it is given in place, newest first, and returns
      that same array. */
  method Select(data: array<SavedContract>) returns (r: array<SavedContract>)
    modifies data
    ensures r == data
    ensures NewestFirst(data[..])
    ensures multiset(data[..]) == multiset(old(data[..]))
    ensures SameRuns(data[..], old(data[..]))
  {
    var i := 1;
    while i < data.Length
      invariant 1 <= i
      invariant NewestFirstUpTo(data[..], i)
      invariant multiset(data[..]) == multiset(old(data[..]))
      invariant SameRuns(data[..], old(data[..]))
    {
      InsertDown(data, i);
      i := i + 1;
    }
    return data;
  }

  // ---- the query cache ----

  /** A react-query key. */
  type QueryKey = seq<string>

  const ListKey: QueryKey := ["savedContracts"]

  function ByIdKey(id: string): QueryKey {
    ["savedContract", id]
  }

  predicate IsPrefix(prefix: QueryKey, key: QueryKey) {
    |prefix| <= |key| && key[..|prefix|] == prefix
  }

  /** `invalidateQueries({ queryKey: prefix })`: every cached query whose key starts with
      `prefix` is marked stale; nothing else changes. */
  function Invalidate(stale: map<QueryKey, bool>, prefix: QueryKey): (r: map<QueryKey, bool>)
    ensures r.Keys == stale.Keys
    ensures forall k :: k in r && IsPrefix(prefix, k) ==> r[k]
    ensures forall k :: k in r && !IsPrefix(prefix, k) ==> r[k] == stale[k]
  {
    map k | k in stale :: stale[k] || IsPrefix(prefix, k)
  }

  /** The saved-contract mutations; each is one backend call. */
  datatype Mutation =
    | Create(contractId: string, nickname: string)
    | Update(id: string, nickname: string)
    | Delete(id: string)
    | SetDefault(id: string)

  /** The cache after a mutation settles: on success its `onSuccess` invalidates the list key;
      on failure `onError` only logs. The kind of mutation does not matter. */
  function AfterMutation(stale: map<QueryKey, bool>, m: Mutation, succeeded: bool): (r: map<QueryKey, bool>)
    ensures r.Keys == stale.Keys
    ensures !succeeded ==> r == stale
    ensures succeeded ==> r == Invalidate(stale, ListKey)
    ensures succeeded && ListKey in r ==> r[ListKey]
    // a contract's own by-id entry is never invalidated, even by the mutation that changed it
    ensures forall id :: ByIdKey(id) in r ==> r[ByIdKey(id)] == stale[ByIdKey(id)]
  {
    assert forall id :: !IsPrefix(ListKey, ByIdKey(id)) by {
      assert |ListKey[0]| != |"savedContract"|;
    }
    if succeeded then Invalidate(stale, ListKey) else stale
  }

  /** The query cache of the app, as far as these hooks touch it: one stale flag per cached key. */
  class QueryCache {
    var stale: map<QueryKey, bool>

    constructor ()
      ensures stale == map[]
    {
      stale := map[];
    }

    /** A query with this key has just fetched: its data is fresh. */
    method Store(key: QueryKey)
      modifies this
      ensures stale == old(stale)[key := false]
    {
      stale := stale[key := false];
    }

    /** A mutation hook's `onSuccess` / `onError`. */
    method OnMutationSettled(m: Mutation, succeeded: bool)
      modifies this
      ensures stale == AfterMutation(old(stale), m, succeeded)
    {
      if succeeded {
        stale := Invalidate(stale, ListKey);
      }
    }
  }
}
