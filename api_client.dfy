/**
 * The axios instance of src/lib/utils/api.ts: a request interceptor that attaches the bearer
 * token (refreshing it first when the store holds none) and a response interceptor that, on a
 * 401, refreshes the token and re-issues the request through the same instance.
 *
 * The server and the Clerk session are inputs: `replies` lists what the server answers to each
 * request actually sent, and `session(i)` is what the session does on the i-th call of
 * `refreshToken`. When `replies` runs out before the request settles, the outcome is `Unsettled`.
 */
module ApiClient {
  import opened Wrappers
  import opened Strings
  import opened ProfileStore

  const Authorization := "Authorization"

  function Bearer(token: string): string {
    "Bearer " + token
  }

  /** What comes back for one request on the wire. */
  datatype Wire = Answer(status: int) | NoAnswer   // NoAnswer: network error or the 5000 ms timeout

  /** axios's default `validateStatus`. */
  predicate IsSuccessStatus(status: int) {
    200 <= status < 300
  }

  /** The error value an awaited request rejects with. Errors raised by axios carry the request
      config; the one escaping `refreshToken` from the request interceptor does not. */
  datatype ClientError =
    | HttpStatus(status: int)     // a reply outside 2xx: `error.response.status`
    | NoResponse                  // `error.response` is undefined
    | SessionFailure              // the `useClerk()` failure; `error.config` is undefined

  predicate HasConfig(e: ClientError) {
    !e.SessionFailure?
  }

  function ErrorOf(w: Wire): ClientError
    requires !(w.Answer? && IsSuccessStatus(w.status))
  {
    match w
    case Answer(s) => HttpStatus(s)
    case NoAnswer => NoResponse
  }

  datatype Outcome = Fulfilled(status: int) | Failed(error: ClientError) | Unsettled

  /** One pass through the request interceptor: whether the request goes on, its headers, the
      stored token afterwards, whether `refreshToken` was called and whether it called `set`. */
  datatype Intercepted = Intercepted(
    proceed: bool, headers: map<string, string>, stored: Option<string>, refreshed: bool, wrote: bool)

  /** The request interceptor; `next` is what the session does if it is asked for a token. */
  function InterceptRequest(stored: Option<string>, headers: map<string, string>, next: SessionOutcome): (r: Intercepted)
    // refreshToken is called exactly when the store holds no usable token
    ensures r.refreshed <==> !Truthy(stored)
    ensures !r.refreshed ==> r.stored == stored && !r.wrote
    // the request is abandoned only when the refresh itself rejects
    ensures !r.proceed <==> r.refreshed && next.ClerkUnavailable?
    // a Bearer header is set exactly when the token in hand is truthy; otherwise headers are untouched
    ensures r.proceed && Truthy(r.stored) ==> r.headers == headers[Authorization := Bearer(r.stored.value)]
    ensures r.proceed && !Truthy(r.stored) ==> r.headers == headers
    ensures r.refreshed && r.proceed ==> r.stored == Refresh(next, stored).stored
  {
    if Truthy(stored) then
      Intercepted(true, headers[Authorization := Bearer(stored.value)], stored, false, false)
    else
      var step := Refresh(next, stored);
      match step.result
      case Rejected(_) => Intercepted(false, headers, step.stored, true, step.wrote)
      case Resolved(token) =>
        Intercepted(true, if Truthy(token) then headers[Authorization := Bearer(token.value)] else headers,
                    step.stored, true, step.wrote)
  }

  /** The observable course of one call of the instance: how it settles, the token stored at the
      end, the headers of every request put on the wire, and the numbers of `refreshToken` calls
      and of store writes. */
  datatype Trace = Trace(outcome: Outcome, stored: Option<string>, sent: seq<map<string, string>>, refreshes: nat, writes: nat)

  /** One call of the instance, including every re-issue made by the response interceptor. */
  function Exchange(stored: Option<string>, headers: map<string, string>, replies: seq<Wire>,
                    session: nat -> SessionOutcome, k: nat): Trace
    decreases |replies|
  {
    var req := InterceptRequest(stored, headers, session(k));
    var k1 := if req.refreshed then k + 1 else k;
    var n1: nat := if req.refreshed then 1 else 0;
    var w1: nat := if req.wrote then 1 else 0;
    if !req.proceed then
      // the response interceptor sees an error without config and rejects it as it is
      Trace(Failed(SessionFailure), req.stored, [], n1, w1)
    else if |replies| == 0 then
      Trace(Unsettled, req.stored, [], n1, w1)
    else if replies[0].Answer? && IsSuccessStatus(replies[0].status) then
      Trace(Fulfilled(replies[0].status), req.stored, [req.headers], n1, w1)
    else
      var e := ErrorOf(replies[0]);
      if e == HttpStatus(401) then
        var step := Refresh(session(k1), req.stored);
        var w2: nat := if step.wrote then 1 else 0;
        if step.result.Resolved? && Truthy(step.result.value) then
          var rest := Exchange(step.stored, req.headers[Authorization := Bearer(step.result.value.value)],
                               replies[1..], session, k1 + 1);
          Trace(rest.outcome, rest.stored, [req.headers] + rest.sent, n1 + 1 + rest.refreshes, w1 + w2 + rest.writes)
        else
          Trace(Failed(e), step.stored, [req.headers], n1 + 1, w1 + w2)
      else
        Trace(Failed(e), req.stored, [req.headers], n1, w1)
  }

  /** The shape of every call: at most one request per scripted reply, and all of them only when
      the call never settles; only a 2xx fulfils it, the reply to the last request sent; every
      re-issue is paid for by a refresh, and each refresh writes the store at most once; a failed
      refresh in the request interceptor sends nothing. */
  lemma {:induction false} ExchangeShape(stored: Option<string>, headers: map<string, string>, replies: seq<Wire>,
                                         session: nat -> SessionOutcome, k: nat)
    ensures var t := Exchange(stored, headers, replies, session, k);
            && |t.sent| <= |replies|
            && (t.outcome.Unsettled? ==> |t.sent| == |replies|)
            && (t.outcome.Fulfilled? ==>
                  IsSuccessStatus(t.outcome.status) && 0 < |t.sent| && replies[|t.sent| - 1] == Answer(t.outcome.status))
            && |t.sent| <= t.refreshes + 1
            && t.writes <= t.refreshes
            && (t.outcome == Failed(SessionFailure) ==> t.sent == [])
    decreases |replies|
  {
    var req := InterceptRequest(stored, headers, session(k));
    if req.proceed && |replies| > 0 && !(replies[0].Answer? && IsSuccessStatus(replies[0].status))
       && ErrorOf(replies[0]) == HttpStatus(401) {
      var k1 := if req.refreshed then k + 1 else k;
      var step := Refresh(session(k1), req.stored);
      if step.result.Resolved? && Truthy(step.result.value) {
        var h := req.headers[Authorization := Bearer(step.result.value.value)];
        RetryStep(stored, headers, replies, session, k, k1, req.headers, step.stored, h,
                  (if req.refreshed then 1 else 0) + 1, (if req.wrote then 1 else 0) + (if step.wrote then 1 else 0));
        ExchangeShape(step.stored, h, replies[1..], session, k1 + 1);
        var rest := Exchange(step.stored, h, replies[1..], session, k1 + 1);
        if rest.outcome.Fulfilled? {
          assert replies[1..][|rest.sent| - 1] == replies[|rest.sent|];
        }
      }
    }
  }

  /** One retry, unfolded: after a 401 whose refresh yields a token, the call goes on as the
      call that carries it. */
  lemma RetryStep(stored: Option<string>, headers: map<string, string>, replies: seq<Wire>,
                  session: nat -> SessionOutcome, k: nat, k1: nat, first: map<string, string>,
                  stored1: Option<string>, headers1: map<string, string>, n: nat, w: int)
    requires var req := InterceptRequest(stored, headers, session(k));
             var step := Refresh(session(k1), req.stored);
             && req.proceed && |replies| > 0 && replies[0] == Answer(401)
             && k1 == (if req.refreshed then k + 1 else k) && first == req.headers
             && step.result.Resolved? && Truthy(step.result.value) && stored1 == step.stored
             && headers1 == req.headers[Authorization := Bearer(step.result.value.value)]
             && n == (if req.refreshed then 1 else 0) + 1
             && w == (if req.wrote then 1 else 0) + (if step.wrote then 1 else 0)
    ensures var rest := Exchange(stored1, headers1, replies[1..], session, k1 + 1);
            Exchange(stored, headers, replies, session, k)
              == Trace(rest.outcome, rest.stored, [first] + rest.sent, n + rest.refreshes, w + rest.writes)
  {
  }

  /** A request with a usable token that the server answers with 2xx passes through unchanged,
      carrying that token and without any refresh. */
  lemma SuccessPassesThrough(stored: Option<string>, headers: map<string, string>, replies: seq<Wire>,
                             session: nat -> SessionOutcome, k: nat)
    requires Truthy(stored) && |replies| > 0 && replies[0].Answer? && IsSuccessStatus(replies[0].status)
    ensures Exchange(stored, headers, replies, session, k)
         == Trace(Fulfilled(replies[0].status), stored, [headers[Authorization := Bearer(stored.value)]], 0, 0)
  {
  }

  /** An error other than a 401 is rejected as it is, and the response interceptor never
      refreshes for it; the only refresh possible is the request interceptor's. */
  lemma OtherErrorsRejectedAsIs(stored: Option<string>, headers: map<string, string>, replies: seq<Wire>,
                                session: nat -> SessionOutcome, k: nat)
    requires |replies| > 0 && !(replies[0].Answer? && IsSuccessStatus(replies[0].status))
    requires replies[0] != Answer(401)
    requires InterceptRequest(stored, headers, session(k)).proceed
    ensures Exchange(stored, headers, replies, session, k).outcome == Failed(ErrorOf(replies[0]))
    ensures Exchange(stored, headers, replies, session, k).refreshes == if Truthy(stored) then 0 else 1
    ensures |Exchange(stored, headers, replies, session, k).sent| == 1
  {
  }

  /** When the request interceptor's refresh rejects, nothing is sent and that error surfaces. */
  lemma RequestRefreshFailureSurfaces(stored: Option<string>, headers: map<string, string>, replies: seq<Wire>,
                                      session: nat -> SessionOutcome, k: nat)
    requires !Truthy(stored) && session(k).ClerkUnavailable?
    ensures Exchange(stored, headers, replies, session, k) == Trace(Failed(SessionFailure), stored, [], 1, 0)
  {
  }

  /** The index of the session call a 401's refresh makes: the request interceptor has used
      call k when the store held no usable token. */
  function ResponseSessionIndex(stored: Option<string>, k: nat): (i: nat)
    ensures i == k <==> Truthy(stored)
    ensures i <= k + 1
  {
    if Truthy(stored) then k else k + 1
  }

  /** On a 401 whose refresh yields no token (null, empty, a throw inside or outside the try),
      the caller gets the original 401, not the refresh error. This holds whether or not the
      request interceptor refreshed first; the call then makes one refresh more. */
  lemma FailedRefreshKeepsOriginal401(stored: Option<string>, headers: map<string, string>, replies: seq<Wire>,
                                      session: nat -> SessionOutcome, k: nat)
    requires InterceptRequest(stored, headers, session(k)).proceed
    requires |replies| > 0 && replies[0] == Answer(401)
    requires var i := ResponseSessionIndex(stored, k);
             !(session(i).SessionToken? && Truthy(session(i).token))
    ensures Exchange(stored, headers, replies, session, k).outcome == Failed(HttpStatus(401))
    ensures Exchange(stored, headers, replies, session, k).refreshes == if Truthy(stored) then 1 else 2
    ensures Exchange(stored, headers, replies, session, k).sent == [InterceptRequest(stored, headers, session(k)).headers]
    ensures Exchange(stored, headers, replies, session, k).stored
            == if session(ResponseSessionIndex(stored, k)).ClerkUnavailable?
               then InterceptRequest(stored, headers, session(k)).stored else None
  {
  }

  /** On a 401 whose refresh yields a token, the same request goes out again with that token
      as its Bearer header, and its outcome is the outcome of the whole call. This holds whether
      or not the request interceptor refreshed first. */
  lemma RetryCarriesNewToken(stored: Option<string>, headers: map<string, string>, replies: seq<Wire>,
                             session: nat -> SessionOutcome, k: nat)
    requires InterceptRequest(stored, headers, session(k)).proceed
    requires |replies| > 0 && replies[0] == Answer(401)
    requires var i := ResponseSessionIndex(stored, k);
             session(i).SessionToken? && Truthy(session(i).token)
    ensures var req := InterceptRequest(stored, headers, session(k));
            var i := ResponseSessionIndex(stored, k);
            var t := session(i).token;
            var rest := Exchange(t, req.headers[Authorization := Bearer(t.value)], replies[1..], session, i + 1);
            Exchange(stored, headers, replies, session, k)
              == Trace(rest.outcome, rest.stored, [req.headers] + rest.sent,
                       (if Truthy(stored) then 1 else 2) + rest.refreshes,
                       (if req.wrote then 1 else 0) + 1 + rest.writes)
    ensures |replies| > 1 ==>
              Exchange(stored, headers, replies, session, k).sent[1][Authorization]
              == Bearer(session(ResponseSessionIndex(stored, k)).token.value)
  {
    var req := InterceptRequest(stored, headers, session(k));
    var i := ResponseSessionIndex(stored, k);
    var t := session(i).token;
    assert i == if req.refreshed then k + 1 else k;
    var step := Refresh(session(i), req.stored);
    assert step.result == Resolved(t) && step.stored == t && step.wrote;
    RetryStep(stored, headers, replies, session, k, i, req.headers, t, req.headers[Authorization := Bearer(t.value)],
              (if req.refreshed then 1 else 0) + 1, (if req.wrote then 1 else 0) + 1);
    if |replies| > 1 {
      var h := req.headers[Authorization := Bearer(t.value)];
      assert InterceptRequest(t, h, session(i + 1)).headers == h[Authorization := Bearer(t.value)];
    }
  }

  /** There is no retry counter: n consecutive 401s, each followed by a successful refresh, are
      each retried, and the (n+1)-th request's success is the result. */
  lemma {:induction false} RetriesWithoutLimit(n: nat, stored: Option<string>, headers: map<string, string>,
                                               replies: seq<Wire>, session: nat -> SessionOutcome, k: nat)
    requires Truthy(stored)
    requires |replies| == n + 1 && replies[n] == Answer(200)
    requires forall i :: 0 <= i < n ==> replies[i] == Answer(401)
    requires forall i :: k <= i < k + n ==> session(i).SessionToken? && Truthy(session(i).token)
    ensures Exchange(stored, headers, replies, session, k).outcome == Fulfilled(200)
    ensures |Exchange(stored, headers, replies, session, k).sent| == n + 1
    ensures Exchange(stored, headers, replies, session, k).refreshes == n
    ensures n > 0 ==> Exchange(stored, headers, replies, session, k).stored == session(k + n - 1).token
    decreases n
  {
    if n > 0 {
      assert replies[0] == Answer(401);
      var t := session(k).token;
      var first := headers[Authorization := Bearer(stored.value)];
      RetriesWithoutLimit(n - 1, t, first[Authorization := Bearer(t.value)], replies[1..], session, k + 1);
    }
  }

  /** A server that answers every request with 401 while the session keeps producing tokens is
      never given up on: however long the script, the call does not settle. */
  lemma {:induction false} EndlessUnauthorizedNeverSettles(stored: Option<string>, headers: map<string, string>,
                                                           replies: seq<Wire>, session: nat -> SessionOutcome, k: nat)
    requires Truthy(stored)
    requires forall i :: 0 <= i < |replies| ==> replies[i] == Answer(401)
    requires forall i :: k <= i ==> session(i).SessionToken? && Truthy(session(i).token)
    ensures Exchange(stored, headers, replies, session, k).outcome == Unsettled
    ensures |Exchange(stored, headers, replies, session, k).sent| == |replies|
    decreases |replies|
  {
    if |replies| > 0 {
      var t := session(k).token;
      var first := headers[Authorization := Bearer(stored.value)];
      EndlessUnauthorizedNeverSettles(t, first[Authorization := Bearer(t.value)], replies[1..], session, k + 1);
    }
  }

  /** The request config object the interceptors modify in place. */
  class RequestConfig {
    var headers: map<string, string>

    constructor (headers: map<string, string>)
      ensures this.headers == headers
    {
      this.headers := headers;
    }
  }

  /** The configured axios instance, reading and refreshing the global token store. */
  class HttpClient {
    const store: UserTokenStore

    constructor (store: UserTokenStore)
      ensures this.store == store
    {
      this.store := store;
    }

    /** The request interceptor, run on `config` before it is sent. */
    method InterceptRequestOn(config: RequestConfig, next: SessionOutcome) returns (proceed: bool, refreshed: bool)
      modifies config, store
      ensures var r := InterceptRequest(old(store.userToken), old(config.headers), next);
              proceed == r.proceed && refreshed == r.refreshed
              && config.headers == r.headers && store.userToken == r.stored
              && store.sets == old(store.sets) + (if r.wrote then 1 else 0)
    {
      var userToken := store.userToken;
      refreshed := false;
      if !Truthy(userToken) {
        refreshed := true;
        var result := store.RefreshToken(next);
        if result.Rejected? {
          return false, true;
        }
        userToken := result.value;
      }
      if Truthy(userToken) {
        config.headers := config.headers[Authorization := Bearer(userToken.value)];
      }
      proceed := true;
    }

    /** A call of the instance: the request interceptor, the wire, then the response
        interceptor, which on a 401 refreshes the token and calls the instance again. */
    method Request(config: RequestConfig, replies: seq<Wire>, session: nat -> SessionOutcome, k: nat)
      returns (outcome: Outcome, sent: seq<map<string, string>>, refreshes: nat)
      modifies config, store
      ensures var t := Exchange(old(store.userToken), old(config.headers), replies, session, k);
              outcome == t.outcome && sent == t.sent && refreshes == t.refreshes
              && store.userToken == t.stored && store.sets == old(store.sets) + t.writes
      decreases |replies|
    {
      ghost var stored0, headers0, sets0 := store.userToken, config.headers, store.sets;
      var proceed, refreshed := InterceptRequestOn(config, session(k));
      var next := if refreshed then k + 1 else k;
      refreshes := if refreshed then 1 else 0;
      if !proceed {
        return Failed(SessionFailure), [], refreshes;
      }
      if |replies| == 0 {
        return Unsettled, [], refreshes;
      }
      sent := [config.headers];
      var reply := replies[0];
      if reply.Answer? && IsSuccessStatus(reply.status) {
        return Fulfilled(reply.status), sent, refreshes;
      }
      var error := ErrorOf(reply);
      if !(error == HttpStatus(401) && HasConfig(error)) {
        return Failed(error), sent, refreshes;
      }
      var newToken := store.RefreshToken(session(next));
      refreshes := refreshes + 1;
      if !(newToken.Resolved? && Truthy(newToken.value)) {
        return Failed(error), sent, refreshes;
      }
      config.headers := config.headers[Authorization := Bearer(newToken.value.value)];
      RetryStep(stored0, headers0, replies, session, k, next, sent[0], store.userToken, config.headers,
                refreshes, store.sets - sets0);
      var retried, more, n := Request(config, replies[1..], session, next + 1);
      return retried, sent + more, refreshes + n;
    }
  }
}
