/** The shared display helpers of src/lib/utils/formatters.ts. */
module Formatters {
  import opened Wrappers
  import opened Strings

  /**
   * The number and date formatting the helpers hand to the JavaScript runtime, kept opaque:
   * `Number.prototype.toFixed(2)`, the two `Intl.NumberFormat` compact formatters (at most two
   * and at most one fraction digit) and the two `Date` renderings.
   */
  datatype Locale = Locale(
    toFixed2: real -> string,
    compact2: real -> string,
    compact1: real -> string,
    shortDate: string -> string,
    dateTime: string -> string)

  /** `toFixed` writes a minus sign for negative numbers and never a plus sign. */
  ghost predicate FixedNeverSigned(loc: Locale) {
    forall x: real :: |loc.toFixed2(x)| == 0 || loc.toFixed2(x)[0] != '+'
  }

  /** The `options` argument of `formatNumber`; an absent flag is false. */
  datatype NumberOptions = NumberOptions(isPercentage: bool, isStroop: bool)

  const Plain := NumberOptions(false, false)
  const Percentage := NumberOptions(true, false)
  const Stroop := NumberOptions(false, true)

  /** One lumen (XLM) is ten million stroops. */
  const StroopsPerLumen: real := 10000000.0

  /** A JavaScript `number | null | undefined`. */
  datatype MaybeNumber = Undefined | Null | Number(n: real)

  /** The text shown for a `null` change: "+∞" as its UTF-8 bytes read back as Windows-1252. */
  const InfinityText: string := "+\U{00E2}\U{02C6}\U{017E}"

  /** `formatNumber`: a percentage wins over a stroop amount; anything else is compact. */
  function FormatNumber(loc: Locale, num: real, options: NumberOptions): (r: string)
    ensures options.isPercentage ==> EndsWith(r, "%")
    ensures !options.isPercentage && options.isStroop ==> EndsWith(r, " XLM")
  {
    if options.isPercentage then loc.toFixed2(num) + "%"
    else if options.isStroop then loc.compact2(num / StroopsPerLumen) + " XLM"
    else loc.compact2(num)
  }

  /** The stroop path formats the amount in lumens the way a plain number is formatted; the
      percentage flag is tested first, so setting both flags gives a percentage. */
  lemma FormatNumberDispatch(loc: Locale, num: real)
    ensures FormatNumber(loc, num, Stroop) == FormatNumber(loc, num / 10000000.0, Plain) + " XLM"
    ensures FormatNumber(loc, num, NumberOptions(true, true)) == FormatNumber(loc, num, Percentage)
    ensures FormatNumber(loc, 10000000.0, Stroop) == loc.compact2(1.0) + " XLM"
  {
  }

  /** `formatPercentageWithSign`. */
  function FormatPercentageWithSign(loc: Locale, num: MaybeNumber): (r: string)
    ensures r == "-" <==> num.Undefined?
    ensures r == InfinityText <==> num.Null?
    ensures num.Number? ==> EndsWith(r, "%")
    ensures num.Number? && num.n >= 0.0 ==> StartsWith(r, "+")
  {
    match num
    case Undefined => "-"
    case Null => InfinityText
    case Number(n) =>
      var r := (if n >= 0.0 then "+" else "") + loc.toFixed2(n) + "%";
      assert r[|r| - 1] == '%' && InfinityText[3] != '%';
      r
  }

  /** The "+" sign appears exactly for a non-negative number (and for the infinity text). */
  lemma PercentageSignIffNonNegative(loc: Locale, n: real)
    requires FixedNeverSigned(loc)
    ensures StartsWith(FormatPercentageWithSign(loc, Number(n)), "+") <==> n >= 0.0
  {
    var r := FormatPercentageWithSign(loc, Number(n));
    if n < 0.0 {
      assert r == loc.toFixed2(n) + "%";
      if |loc.toFixed2(n)| == 0 {
        assert r[0] == '%';
      } else {
        assert r[0] == loc.toFixed2(n)[0];
      }
    }
  }

  /** `truncateHash`: short strings unchanged, otherwise six leading and six trailing characters. */
  function TruncateHash(hash: string): (r: string)
    ensures |hash| <= 12 ==> r == hash
    ensures |hash| > 12 ==>
              |r| == 15 && r[6..9] == "..." && r[..6] == hash[..6] && r[9..] == hash[|hash| - 6..]
    ensures |r| <= 15 && (|r| <= 12 ==> r == hash)
  {
    if |hash| <= 12 then hash
    else Take(hash, 6) + "..." + TakeLast(hash, 6)
  }

  /** Truncating a truncated hash changes nothing. */
  lemma TruncateHashIdempotent(hash: string)
    ensures TruncateHash(TruncateHash(hash)) == TruncateHash(hash)
  {
    var r := TruncateHash(hash);
    if |hash| > 12 {
      assert r == r[..6] + r[6..9] + r[9..];
    }
  }

  /** `convertStroopsToLumens`: ten-millionths to two decimals, with the currency code. */
  function ConvertStroopsToLumens(loc: Locale, stroops: real): (r: string)
    ensures EndsWith(r, " XLM")
    ensures r[..|r| - 4] == loc.toFixed2(stroops / StroopsPerLumen)
  {
    loc.toFixed2(stroops / StroopsPerLumen) + " XLM"
  }

  // ---- camelToSnakeCase ----

  predicate IsLower(c: char) { 'a' <= c <= 'z' }
  predicate IsUpper(c: char) { 'A' <= c <= 'Z' }

  /** `toLowerCase` on ASCII letters. */
  function LowerChar(c: char): (d: char)
    ensures !IsUpper(d)
    ensures !IsUpper(c) ==> d == c
  {
    if IsUpper(c) then (c as int - 'A' as int + 'a' as int) as char else c
  }

  function LowerCase(s: string): (r: string)
    ensures |r| == |s|
    ensures forall i :: 0 <= i < |s| ==> r[i] == LowerChar(s[i])
  {
    if s == [] then [] else [LowerChar(s[0])] + LowerCase(s[1..])
  }

  /** `s.replace(/([a-z])([A-Z])/g, '$1_$2')`: the global regex scans left to right and
      consumes both characters of each match, so it adds one "_" per boundary and nothing else:
      every character of `s` keeps its order, shifted right by the boundaries before it, and each
      boundary has its "_" between its two letters. */
  function SeparateWords(s: string): (r: string)
    ensures |r| == |s| + Boundaries(s)
    ensures WithoutUnderscores(r) == WithoutUnderscores(s)
    ensures forall i :: 0 <= i < |s| ==> Shifted(s, i) < |r| && r[Shifted(s, i)] == s[i]
    ensures forall i :: 0 <= i < |s| && BoundaryAt(s, i) ==>
              Shifted(s, i) + 1 < |r| && r[Shifted(s, i) + 1] == '_'
  {
    if |s| < 2 then s
    else if BoundaryAt(s, 0) then
      var rest := SeparateWords(s[2..]);
      assert Boundaries(s[1..]) == Boundaries(s[2..]) by {
        assert !IsLower(s[1]);
      }
      WithoutUnderscoresAppend([s[0], '_', s[1]], rest);
      WithoutUnderscoresAppend([s[0], s[1]], s[2..]);
      assert s == [s[0], s[1]] + s[2..];
      assert WithoutUnderscores([s[0], '_', s[1]]) == [s[0], s[1]];
      assert WithoutUnderscores([s[0], s[1]]) == [s[0], s[1]];
      PlacesAfterBoundary(s, rest);
      [s[0], '_', s[1]] + rest
    else
      var rest := SeparateWords(s[1..]);
      WithoutUnderscoresAppend([s[0]], rest);
      WithoutUnderscoresAppend([s[0]], s[1..]);
      assert s == [s[0]] + s[1..];
      PlacesAfterOther(s, rest);
      [s[0]] + rest
  }

  /** `camelToSnakeCase`: one "_" per lower-then-upper boundary, placed between its two letters,
      every input character lower-cased at its shifted place, and no upper-case letter left. */
  function CamelToSnakeCase(s: string): (r: string)
    ensures |r| == |s| + Boundaries(s)
    ensures NoUpper(r)
    ensures forall i :: 0 <= i < |s| ==> Shifted(s, i) < |r| && r[Shifted(s, i)] == LowerChar(s[i])
    ensures forall i :: 0 <= i < |s| && BoundaryAt(s, i) ==>
              Shifted(s, i) + 1 < |r| && r[Shifted(s, i) + 1] == '_'
  {
    LowerCase(SeparateWords(s))
  }

  /** A lower-case letter at `i` directly followed by an upper-case one. */
  predicate BoundaryAt(s: string, i: int) {
    0 <= i && i + 1 < |s| && IsLower(s[i]) && IsUpper(s[i + 1])
  }

  /** Where the converted text holds `s[i]`: `i`, plus one for each boundary ending at or before `i`. */
  function Shifted(s: string, i: nat): nat
    requires i < |s|
  {
    i + Boundaries(s[..i + 1])
  }

  /** Every character of `s` sits at its shifted place in `r`, and every boundary has its "_". */
  ghost predicate Places(s: string, r: string) {
    && (forall i :: 0 <= i < |s| ==> Shifted(s, i) < |r| && r[Shifted(s, i)] == s[i])
    && (forall i :: 0 <= i < |s| && BoundaryAt(s, i) ==>
          Shifted(s, i) + 1 < |r| && r[Shifted(s, i) + 1] == '_')
  }

  lemma PlacesAfterBoundary(s: string, rest: string)
    requires BoundaryAt(s, 0) && Places(s[2..], rest)
    ensures Places(s, [s[0], '_', s[1]] + rest)
  {
    ShiftedPastBoundary(s);
    var r := [s[0], '_', s[1]] + rest;
    forall i | 2 <= i < |s|
      ensures Shifted(s, i) < |r| && r[Shifted(s, i)] == s[i]
      ensures BoundaryAt(s, i) ==> Shifted(s, i) + 1 < |r| && r[Shifted(s, i) + 1] == '_'
    {
      assert s[i] == s[2..][i - 2];
      assert BoundaryAt(s, i) ==> BoundaryAt(s[2..], i - 2);
    }
  }

  lemma PlacesAfterOther(s: string, rest: string)
    requires |s| > 0 && !BoundaryAt(s, 0) && Places(s[1..], rest)
    ensures Places(s, [s[0]] + rest)
  {
    ShiftedPastOther(s);
    var r := [s[0]] + rest;
    forall i | 1 <= i < |s|
      ensures Shifted(s, i) < |r| && r[Shifted(s, i)] == s[i]
      ensures BoundaryAt(s, i) ==> Shifted(s, i) + 1 < |r| && r[Shifted(s, i) + 1] == '_'
    {
      assert s[i] == s[1..][i - 1];
      assert BoundaryAt(s, i) ==> BoundaryAt(s[1..], i - 1);
    }
  }

  /** Past a leading boundary, a position moves by the three characters "x_Y". */
  lemma ShiftedPastBoundary(s: string)
    requires BoundaryAt(s, 0)
    ensures Shifted(s, 0) == 0 && Shifted(s, 1) == 2
    ensures forall i :: 2 <= i < |s| ==> Shifted(s, i) == 3 + Shifted(s[2..], i - 2)
  {
    assert Boundaries(s[..2]) == 1 + Boundaries(s[..2][1..]);
    forall i | 2 <= i < |s|
      ensures Shifted(s, i) == 3 + Shifted(s[2..], i - 2)
    {
      var p := s[..i + 1];
      assert BoundaryAt(p, 0) && !BoundaryAt(p[1..], 0);
      assert Boundaries(p) == 1 + Boundaries(p[1..]);
      assert Boundaries(p[1..]) == Boundaries(p[1..][1..]);
      assert p[1..][1..] == s[2..][..i - 1];
    }
  }

  /** Past a leading character that starts no boundary, a position moves by one. */
  lemma ShiftedPastOther(s: string)
    requires |s| > 0 && !BoundaryAt(s, 0)
    ensures Shifted(s, 0) == 0
    ensures forall i :: 1 <= i < |s| ==> Shifted(s, i) == 1 + Shifted(s[1..], i - 1)
  {
    forall i | 1 <= i < |s|
      ensures Shifted(s, i) == 1 + Shifted(s[1..], i - 1)
    {
      assert s[..i + 1][1..] == s[1..][..i];
    }
  }

  /** Number of places where a lower-case letter is directly followed by an upper-case one. */
  function Boundaries(s: string): nat
  {
    if |s| < 2 then 0
    else (if BoundaryAt(s, 0) then 1 else 0) + Boundaries(s[1..])
  }

  predicate NoUpper(s: string) {
    forall i :: 0 <= i < |s| ==> !IsUpper(s[i])
  }

  /** Text without upper-case letters has no boundary, so the regex leaves it alone. */
  lemma {:induction false} SeparateWordsNoUpper(s: string)
    requires NoUpper(s)
    ensures SeparateWords(s) == s
  {
    if |s| >= 2 {
      assert !IsUpper(s[1]);
      SeparateWordsNoUpper(s[1..]);
    }
  }

  /** Text without upper-case letters is returned unchanged. */
  lemma SnakeCaseKeepsLowerText(s: string)
    requires NoUpper(s)
    ensures CamelToSnakeCase(s) == s
  {
    SeparateWordsNoUpper(s);
    var r := LowerCase(s);
    assert forall i :: 0 <= i < |s| ==> r[i] == s[i];
  }

  /** Converting twice is the same as converting once. */
  lemma SnakeCaseIdempotent(s: string)
    ensures CamelToSnakeCase(CamelToSnakeCase(s)) == CamelToSnakeCase(s)
  {
    SnakeCaseKeepsLowerText(CamelToSnakeCase(s));
  }

  function WithoutUnderscores(s: string): string {
    if s == [] then [] else (if s[0] == '_' then [] else [s[0]]) + WithoutUnderscores(s[1..])
  }

  lemma {:induction false} WithoutUnderscoresAppend(a: string, b: string)
    ensures WithoutUnderscores(a + b) == WithoutUnderscores(a) + WithoutUnderscores(b)
  {
    if a != [] {
      assert (a + b)[0] == a[0] && (a + b)[1..] == a[1..] + b;
      WithoutUnderscoresAppend(a[1..], b);
    } else {
      assert a + b == b;
    }
  }

  lemma {:induction false} LowerCaseAppend(a: string, b: string)
    ensures LowerCase(a + b) == LowerCase(a) + LowerCase(b)
  {
  }

  /** Apart from the underscores it adds, the conversion only lower-cases: deleting every
      underscore from the result gives the lower-cased input without its underscores. */
  lemma {:induction false} SnakeCaseOnlyAddsUnderscores(s: string)
    ensures WithoutUnderscores(CamelToSnakeCase(s)) == WithoutUnderscores(LowerCase(s))
  {
    if |s| >= 2 {
      if IsLower(s[0]) && IsUpper(s[1]) {
        var head := [s[0], '_', s[1]];
        calc {
          WithoutUnderscores(CamelToSnakeCase(s));
          { LowerCaseAppend(head, SeparateWords(s[2..])); }
          WithoutUnderscores(LowerCase(head) + CamelToSnakeCase(s[2..]));
          { WithoutUnderscoresAppend(LowerCase(head), CamelToSnakeCase(s[2..])); }
          WithoutUnderscores(LowerCase(head)) + WithoutUnderscores(CamelToSnakeCase(s[2..]));
          { SnakeCaseOnlyAddsUnderscores(s[2..]); }
          WithoutUnderscores(LowerCase(head)) + WithoutUnderscores(LowerCase(s[2..]));
          { var u := LowerChar(s[1]);
            assert u != '_';
            assert LowerCase(head) == [s[0]] + ['_', u];
            assert LowerCase(s[..2]) == [s[0]] + [u];
            WithoutUnderscoresAppend([s[0]], ['_', u]);
            WithoutUnderscoresAppend([s[0]], [u]);
            assert WithoutUnderscores(['_', u]) == WithoutUnderscores([u]); }
          WithoutUnderscores(LowerCase(s[..2])) + WithoutUnderscores(LowerCase(s[2..]));
          { WithoutUnderscoresAppend(LowerCase(s[..2]), LowerCase(s[2..]));
            LowerCaseAppend(s[..2], s[2..]); assert s[..2] + s[2..] == s; }
          WithoutUnderscores(LowerCase(s));
        }
      } else {
        var head := [s[0]];
        calc {
          WithoutUnderscores(CamelToSnakeCase(s));
          { LowerCaseAppend(head, SeparateWords(s[1..])); }
          WithoutUnderscores(LowerCase(head) + CamelToSnakeCase(s[1..]));
          { WithoutUnderscoresAppend(LowerCase(head), CamelToSnakeCase(s[1..])); }
          WithoutUnderscores(LowerCase(head)) + WithoutUnderscores(CamelToSnakeCase(s[1..]));
          { SnakeCaseOnlyAddsUnderscores(s[1..]); }
          WithoutUnderscores(LowerCase(head)) + WithoutUnderscores(LowerCase(s[1..]));
          { WithoutUnderscoresAppend(LowerCase(head), LowerCase(s[1..]));
            LowerCaseAppend(head, s[1..]); assert head + s[1..] == s; }
          WithoutUnderscores(LowerCase(s));
        }
      }
    }
  }
}
