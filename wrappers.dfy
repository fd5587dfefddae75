/** Optional values and settled promises, shared by every module of the dashboard model. */
module Wrappers {

  /** A value that may be absent (`null` or `undefined` on the JavaScript side). */
  datatype Option<+T> = None | Some(value: T) {
    function GetOr(default: T): T {
      match this
      case Some(v) => v
      case None => default
    }
  }

  /** How an awaited promise settles: with a value or with a thrown error. */
  datatype Settled<+T, +E> = Resolved(value: T) | Rejected(error: E)
}

/** The JavaScript string operations the dashboard uses, on `seq<char>`. */
module Strings {
  import opened Wrappers

  predicate StartsWith(s: string, prefix: string) {
    |prefix| <= |s| && s[..|prefix|] == prefix
  }

  predicate EndsWith(s: string, suffix: string) {
    |suffix| <= |s| && s[|s| - |suffix|..] == suffix
  }

  /** `s.slice(0, n)` for n >= 0: the first n characters, or all of them when s is shorter. */
  function Take(s: string, n: nat): (r: string)
    ensures |r| == if n <= |s| then n else |s|
    ensures StartsWith(s, r)
  {
    if n <= |s| then s[..n] else s
  }

  /** `s.slice(-n)` for n > 0: the last n characters, or all of them when s is shorter. */
  function TakeLast(s: string, n: nat): (r: string)
    ensures |r| == if n <= |s| then n else |s|
    ensures EndsWith(s, r)
  {
    if n <= |s| then s[|s| - n..] else s
  }

  /** JavaScript truthiness of a `string | null | undefined`: present and non-empty. */
  predicate Truthy(s: Option<string>) {
    s.Some? && s.value != ""
  }

  /** `parts.join(sep)`. */
  function Join(parts: seq<string>, sep: string): string
  {
    if |parts| == 0 then ""
    else if |parts| == 1 then parts[0]
    else parts[0] + sep + Join(parts[1..], sep)
  }

  /** The i-th position holds `sub`. */
  predicate OccursAt(s: string, sub: string, i: nat) {
    i + |sub| <= |s| && s[i..i + |sub|] == sub
  }
}
