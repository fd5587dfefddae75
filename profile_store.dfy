/** The two zustand stores of src/store/profile.store.ts: the user profile and the bearer token. */
module ProfileStore {
  import opened Wrappers
  import opened Strings

  /** src/lib/types/profile.ts */
  datatype UserProfile = UserProfile(
    id: string, firstName: string, lastName: string, fullName: string,
    username: string, email: string, profileImageUrl: string)

  /** What happens when `refreshToken` asks the Clerk session for a token. */
  datatype SessionOutcome =
    | ClerkUnavailable                   // `useClerk()` throws; it runs before the `try`
    | GetTokenThrows                     // `getToken()` rejects; caught and logged
    | SessionToken(token: Option<string>) // resolves; `None` also stands for "no session"

  /** The error `refreshToken` lets escape: only the one raised outside its `try`. */
  datatype RefreshError = ClerkError

  /** How a call of `refreshToken` settles, what the store holds afterwards and whether it
      called `set`. */
  datatype RefreshStep = RefreshStep(result: Settled<Option<string>, RefreshError>, stored: Option<string>, wrote: bool)

  /** `refreshToken`, with the session's behaviour as input and the token held before the call. */
  function Refresh(outcome: SessionOutcome, stored: Option<string>): (step: RefreshStep)
    // only a failure of `useClerk()` escapes; it leaves the store alone
    ensures step.result.Rejected? <==> outcome.ClerkUnavailable?
    ensures step.result.Rejected? ==> step.stored == stored && !step.wrote
    // every path that resolves stores what it returns
    ensures step.result.Resolved? ==> step.wrote && step.stored == step.result.value
    // a token is returned exactly when the session gave a non-empty one, and it is that token
    ensures step.result.Resolved? && step.result.value.Some? <==> outcome.SessionToken? && Truthy(outcome.token)
    ensures step.result.Resolved? && step.result.value.Some? ==> step.result.value == outcome.token
  {
    match outcome
    case ClerkUnavailable => RefreshStep(Rejected(ClerkError), stored, false)
    case GetTokenThrows => RefreshStep(Resolved(None), None, true)
    case SessionToken(t) =>
      if Truthy(t) then RefreshStep(Resolved(t), t, true)
      else RefreshStep(Resolved(None), None, true)
  }

  /** After any call that resolves, the stored token is non-empty or absent, never "". */
  lemma RefreshNeverStoresEmpty(outcome: SessionOutcome, stored: Option<string>)
    requires Refresh(outcome, stored).result.Resolved?
    ensures Refresh(outcome, stored).stored != Some("")
    ensures Truthy(Refresh(outcome, stored).stored) || Refresh(outcome, stored).stored == None
  {
  }

  /** `useUserTokenStore`. `sets` counts the calls of zustand's `set`, each of which notifies the
      store's subscribers. */
  class UserTokenStore {
    var userToken: Option<string>
    var sets: nat

    constructor ()
      ensures userToken == None && sets == 0
    {
      userToken := None;
      sets := 0;
    }

    /** `setUserToken`: replaces the token and nothing else. */
    method SetUserToken(token: Option<string>)
      modifies this
      ensures userToken == token && sets == old(sets) + 1
    {
      userToken := token;
      sets := sets + 1;
    }

    /** `refreshToken`. */
    method RefreshToken(outcome: SessionOutcome) returns (result: Settled<Option<string>, RefreshError>)
      modifies this
      ensures result == Refresh(outcome, old(userToken)).result
      ensures userToken == Refresh(outcome, old(userToken)).stored
      ensures sets == old(sets) + if Refresh(outcome, old(userToken)).wrote then 1 else 0
    {
      if outcome.ClerkUnavailable? {
        return Rejected(ClerkError);
      }
      if outcome.GetTokenThrows? {
        SetUserToken(None);
        return Resolved(None);
      }
      var token := outcome.token;
      if Truthy(token) {
        SetUserToken(token);
        return Resolved(token);
      }
      SetUserToken(None);
      return Resolved(None);
    }
  }

  /** `useUserProfileStore`. */
  class UserProfileStore {
    var userProfile: Option<UserProfile>
    var sets: nat

    constructor ()
      ensures userProfile == None && sets == 0
    {
      userProfile := None;
      sets := 0;
    }

    /** `setUserProfile`: replaces the profile and nothing else. */
    method SetUserProfile(profile: Option<UserProfile>)
      modifies this
      ensures userProfile == profile && sets == old(sets) + 1
    {
      userProfile := profile;
      sets := sets + 1;
    }
  }
}
