/**
 * src/app/dashboard/application-layout.tsx: the contract id and navigation links derived from
 * the current pathname, the sidebar's "current" flags, and `updateToken`, which copies the
 * Clerk token into the token store.
 */
module ApplicationLayout {
  import opened Wrappers
  import opened Strings
  import opened ProfileStore

  const ContractPrefix := "/dashboard/contract/"
  const Dashboard := "/dashboard"

  /** `/\/dashboard\/contract\/([^\/]+)/` matches at position i. */
  predicate MatchesAt(path: string, i: nat) {
    OccursAt(path, ContractPrefix, i) && i + |ContractPrefix| < |path| && path[i + |ContractPrefix|] != '/'
  }

  /** The longest run of characters other than "/" starting at position i. */
  function SegmentFrom(path: string, i: nat): (seg: string)
    requires i <= |path|
    ensures i + |seg| <= |path| && seg == path[i..i + |seg|]
    ensures forall c :: c in seg ==> c != '/'
    ensures i + |seg| == |path| || path[i + |seg|] == '/'
    decreases |path| - i
  {
    if i == |path| || path[i] == '/' then "" else [path[i]] + SegmentFrom(path, i + 1)
  }

  /** The regex's scan from position i onwards: the capture of the leftmost match. */
  function FindContractId(path: string, i: nat): (r: Option<string>)
    requires i <= |path|
    ensures r.None? <==> forall j :: i <= j <= |path| ==> !MatchesAt(path, j)
    ensures r.Some? ==> exists j :: i <= j < |path| && MatchesAt(path, j)
                          && (forall j' :: i <= j' < j ==> !MatchesAt(path, j'))
                          && r.value == SegmentFrom(path, j + |ContractPrefix|)
    decreases |path| - i
  {
    if i == |path| then None
    else if MatchesAt(path, i) then Some(SegmentFrom(path, i + |ContractPrefix|))
    else FindContractId(path, i + 1)
  }

  /** `contractId`: the capture of the leftmost match, absent when the regex does not match. */
  function ContractIdOf(path: string): (r: Option<string>)
    ensures r.Some? ==> |r.value| > 0 && forall c :: c in r.value ==> c != '/'
    ensures r.None? <==> forall j :: 0 <= j <= |path| ==> !MatchesAt(path, j)
  {
    var r := FindContractId(path, 0);
    if r.Some? then
      var j :| 0 <= j < |path| && MatchesAt(path, j) && r.value == SegmentFrom(path, j + |ContractPrefix|);
      assert r.value[0] == path[j + |ContractPrefix|];
      r
    else r
  }

  /** `pathname.startsWith('/dashboard/contract/')`: a contract page lies under the dashboard. */
  predicate IsContractPage(path: string): (b: bool)
    ensures b ==> StartsWith(path, Dashboard) && path != Dashboard
  {
    var b := StartsWith(path, ContractPrefix);
    assert b ==> path[..|Dashboard|] == ContractPrefix[..|Dashboard|];
    b
  }

  /** `baseUrl`. */
  function BaseUrl(path: string): (url: string)
    ensures url == Dashboard || (ContractIdOf(path).Some? && url == ContractPrefix + ContractIdOf(path).value)
    ensures url != Dashboard <==> IsContractPage(path) && ContractIdOf(path).Some?
  {
    var id := ContractIdOf(path);
    if IsContractPage(path) && id.Some? then
      var url := ContractPrefix + id.value;
      assert url[..|Dashboard|] == Dashboard && |url| > |Dashboard|;
      url
    else Dashboard
  }

  /** The sidebar sections reached from the layout. */
  datatype Section = Analytics | History | Alerts

  function Suffix(s: Section): string {
    match s
    case Analytics => "/analytics"
    case History => "/history"
    case Alerts => "/alerts"
  }

  /** `analyticsUrl`, `historyUrl`, `alertsUrl`: both arms of the ternary add the same suffix. */
  function SectionUrl(path: string, s: Section): (url: string)
    ensures url == BaseUrl(path) + Suffix(s)
  {
    BaseUrl(path) + (if IsContractPage(path) then Suffix(s) else Suffix(s))
  }

  /** The sidebar's `current` flags. Home is current only on the dashboard itself, which is no
      contract page, so its links are the dashboard's own. */
  predicate HomeIsCurrent(path: string): (b: bool)
    ensures b ==> !IsContractPage(path) && BaseUrl(path) == Dashboard
  {
    path == Dashboard
  }

  /** A section is current on any path ending in its suffix; never on the dashboard itself. */
  predicate SectionIsCurrent(path: string, s: Section): (b: bool)
    ensures b ==> !HomeIsCurrent(path)
  {
    var b := EndsWith(path, Suffix(s));
    assert b ==> path[|path| - 1] == Suffix(s)[|Suffix(s)| - 1];
    b
  }

  /** A section link, once followed, is marked current, and it is the only section marked. */
  lemma SectionLinkIsCurrent(path: string, s: Section, other: Section)
    ensures SectionIsCurrent(SectionUrl(path, s), s)
    ensures other != s ==> !SectionIsCurrent(SectionUrl(path, s), other)
    ensures !HomeIsCurrent(SectionUrl(path, s))
  {
    SuffixDecidesSection(BaseUrl(path), s, other);
  }

  /** The last two characters of a section suffix tell the sections apart. */
  lemma SuffixDecidesSection(base: string, s: Section, other: Section)
    ensures EndsWith(base + Suffix(s), Suffix(s))
    ensures EndsWith(base + Suffix(s), Suffix(other)) ==> other == s
    ensures base + Suffix(s) != Dashboard
  {
    var url := base + Suffix(s);
    var n := |url|;
    assert url[n - |Suffix(s)|..] == Suffix(s);
    assert url[n - 1] == Suffix(s)[|Suffix(s)| - 1] && url[n - 2] == Suffix(s)[|Suffix(s)| - 2];
    if EndsWith(url, Suffix(other)) {
      var tail := url[n - |Suffix(other)|..];
      assert tail[|tail| - 1] == url[n - 1] && tail[|tail| - 2] == url[n - 2];
    }
  }

  /** The capture of a path that holds the prefix followed by an id and then "/" or the end. */
  lemma ContractIdOfPrefixed(id: string, rest: string)
    requires |id| > 0 && (forall c :: c in id ==> c != '/')
    requires rest == [] || rest[0] == '/'
    ensures ContractIdOf(ContractPrefix + id + rest) == Some(id)
  {
    var path := ContractPrefix + id + rest;
    var n := |ContractPrefix|;
    assert path[..n] == ContractPrefix;
    assert path[n] == id[0] && id[0] in id;
    assert MatchesAt(path, 0);
    SegmentOf(path, n, id);
  }

  lemma {:induction false} SegmentOf(path: string, i: nat, id: string)
    requires i + |id| <= |path| && path[i..i + |id|] == id
    requires forall c :: c in id ==> c != '/'
    requires i + |id| == |path| || path[i + |id|] == '/'
    ensures SegmentFrom(path, i) == id
    decreases |id|
  {
    if id != [] {
      assert path[i] == id[0] && id[0] in id;
      assert path[i + 1..i + |id|] == id[1..];
      assert forall c :: c in id[1..] ==> c in id;
      SegmentOf(path, i + 1, id[1..]);
    }
  }

  /** On a contract page, every section link leads back to the same contract, so the derived
      contract id is preserved by navigating through the sidebar. */
  lemma SectionLinkKeepsContract(path: string, s: Section)
    requires IsContractPage(path) && ContractIdOf(path).Some?
    ensures IsContractPage(SectionUrl(path, s))
    ensures ContractIdOf(SectionUrl(path, s)) == ContractIdOf(path)
    ensures BaseUrl(SectionUrl(path, s)) == BaseUrl(path)
  {
    var id := ContractIdOf(path).value;
    assert BaseUrl(path) == ContractPrefix + id;
    PrefixedUrl(id, Suffix(s));
  }

  /** A link built on a contract's base URL is a contract page of that same contract. */
  lemma PrefixedUrl(id: string, suffix: string)
    requires |id| > 0 && (forall c :: c in id ==> c != '/')
    requires suffix == [] || suffix[0] == '/'
    ensures IsContractPage(ContractPrefix + id + suffix)
    ensures ContractIdOf(ContractPrefix + id + suffix) == Some(id)
    ensures BaseUrl(ContractPrefix + id + suffix) == ContractPrefix + id
  {
    var url := ContractPrefix + id + suffix;
    assert url[..|ContractPrefix|] == ContractPrefix;
    assert IsContractPage(url);
    ContractIdOfPrefixed(id, suffix);
    assert ContractIdOf(url) == Some(id);
  }

  /** Away from a contract page, every link is built on "/dashboard". */
  lemma NonContractPageUsesDashboard(path: string, s: Section)
    requires !IsContractPage(path) || ContractIdOf(path).None?
    ensures SectionUrl(path, s) == Dashboard + Suffix(s)
  {
  }

  // ---- updateToken ----

  /** What Clerk's `getToken()` does when called. */
  datatype TokenOutcome = Throws | Token(token: Option<string>)

  /** `updateToken`, with the Clerk user state and the `getToken` outcome as inputs. */
  method UpdateToken(store: UserTokenStore, isLoaded: bool, hasUser: bool, outcome: TokenOutcome)
    returns (result: Option<string>)
    modifies store
    // with no loaded user, or when getToken throws, the token is cleared
    ensures !(isLoaded && hasUser) || outcome.Throws? ==> result == None && store.sets == old(store.sets) + 1
    // otherwise the fresh token is returned, and the store is written only when it changes
    ensures isLoaded && hasUser && outcome.Token? ==>
              result == outcome.token
              && store.sets == old(store.sets) + (if old(store.userToken) != outcome.token then 1 else 0)
    // on every path the store ends up holding what was returned
    ensures store.userToken == result
  {
    if isLoaded && hasUser {
      if outcome.Throws? {
        store.SetUserToken(None);
        return None;
      }
      var currentToken := store.userToken;
      var newToken := outcome.token;
      if currentToken != newToken {
        store.SetUserToken(newToken);
      }
      return newToken;
    } else {
      store.SetUserToken(None);
      return None;
    }
  }
}
