/**
 * What the chart components of src/components/features/charts/ share: the time series are drawn
 * newest last from API lists that arrive newest first (`list.slice().reverse().map(point)`), and
 * the top-N charts label an entry with its contract's nickname only on the all-contracts view.
 */
module Charts {
  import opened Wrappers
  import opened Strings

  /** `s.slice().reverse().map(f)`: the reversal acts on a copy, so `s` itself keeps its order. */
  function ReverseMap<T, U>(s: seq<T>, f: T -> U): (r: seq<U>)
    ensures |r| == |s|
    ensures forall i :: 0 <= i < |s| ==> r[i] == f(s[|s| - 1 - i])
  {
    if s == [] then []
    else
      var rest := ReverseMap(s[1..], f);
      assert forall i :: 0 <= i < |rest| ==> rest[i] == f(s[|s| - 1 - i]);
      rest + [f(s[0])]
  }

  /** Reversing a concatenation reverses the order of its two parts. */
  lemma {:induction false} ReverseMapAppend<T, U>(a: seq<T>, b: seq<T>, f: T -> U)
    ensures ReverseMap(a + b, f) == ReverseMap(b, f) + ReverseMap(a, f)
  {
    var r, ra, rb := ReverseMap(a + b, f), ReverseMap(a, f), ReverseMap(b, f);
    assert |r| == |rb + ra|;
    forall i | 0 <= i < |r|
      ensures r[i] == (rb + ra)[i]
    {
      if i < |b| {
        assert (a + b)[|a + b| - 1 - i] == b[|b| - 1 - i];
      } else {
        assert (a + b)[|a + b| - 1 - i] == a[|a| - 1 - (i - |b|)];
      }
    }
  }

  /** The newest interval (first in the API list) is the last point drawn, the oldest the first. */
  lemma ReverseMapEnds<T, U>(s: seq<T>, f: T -> U)
    requires |s| > 0
    ensures ReverseMap(s, f)[|s| - 1] == f(s[0])
    ensures ReverseMap(s, f)[0] == f(s[|s| - 1])
  {
  }

  /** `data?.list.slice().reverse().map(point)`: no series while there is no data. */
  function Series<T, U>(data: Option<seq<T>>, f: T -> U): (r: Option<seq<U>>)
    ensures r.None? <==> data.None?
    ensures r.Some? ==> r.value == ReverseMap(data.value, f)
  {
    match data
    case None => None
    case Some(s) => Some(ReverseMap(s, f))
  }

  /** The label of a top-N entry: the bare name on a contract's page, "nickname: name" otherwise. */
  function EntryName(contractId: Option<string>, nickname: string, name: string): (r: string)
    ensures Truthy(contractId) ==> r == name
    ensures !Truthy(contractId) ==> StartsWith(r, nickname + ": ") && EndsWith(r, name)
    ensures |r| == if Truthy(contractId) then |name| else |nickname| + 2 + |name|
  {
    if Truthy(contractId) then name
    else
      var r := nickname + ": " + name;
      assert r[..|nickname + ": "|] == nickname + ": ";
      assert r[|r| - |name|..] == name;
      r
  }

  /** `data?.map(entry) || []`: an absent list gives no entries. */
  function Entries<T, U>(data: Option<seq<T>>, f: T -> U): (r: seq<U>)
    ensures data.None? ==> r == []
    ensures data.Some? ==> |r| == |data.value| && forall i :: 0 <= i < |r| ==> r[i] == f(data.value[i])
  {
    match data
    case None => []
    case Some(s) => seq(|s|, i requires 0 <= i < |s| => f(s[i]))
  }

  /** The `limit` prop of the top-N charts, ten when the caller gives none. */
  function ChartLimit(limit: Option<nat>): (n: nat)
    ensures limit.None? ==> n == 10
    ensures limit.Some? ==> n == limit.value
  {
    limit.GetOr(10)
  }
}
