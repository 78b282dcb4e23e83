/**
 * The session held by the auth provider: one token, mirrored in the
 * browser's storage under a single key, changed by anonymous session
 * creation, login and logout; and the flags derived from it and from the
 * loaded identity.
 */
module AuthProvider {
  import opened Wrappers

  /** The storage key the token lives under. */
  const TokenKey: string := "poll_token"

  /** `!!token`: a token is present and not the empty string. */
  predicate IsAuthenticated(token: Option<string>) {
    token.Some? && token.value != ""
  }

  /**
   * The session: `token` is the provider's state and `stored` the value kept
   * under `TokenKey`; every operation writes both together.
   */
  class AuthSession {
    var token: Option<string>
    var stored: Option<string>

    /** State and storage agree. */
    predicate Valid()
      reads this
    {
      token == stored
    }

    /** The initial token is whatever storage holds under `TokenKey`. */
    constructor (storedAtStart: Option<string>)
      ensures Valid() && token == storedAtStart
    {
      token := storedAtStart;
      stored := storedAtStart;
    }

    /**
     * Anonymous session creation: runs only while there is no (or an empty)
     * token; when the server creates a user its token is written to storage
     * and state alike, and on failure nothing changes.
     */
    method InitSession(created: Option<string>)
      requires Valid()
      modifies this
      ensures Valid()
      ensures IsAuthenticated(old(token)) ==> token == old(token)
      ensures !IsAuthenticated(old(token)) && created.Some? ==> token == created
      ensures created.None? ==> token == old(token)
    {
      if !IsAuthenticated(token) {
        if created.Some? {
          stored := created;
          token := created;
        }
      }
    }

    /**
     * Logout: the token is removed from storage and state once the server has
     * ended the session; if that call fails it throws first and the token
     * stays.
     */
    method Logout(serverOk: bool)
      requires Valid()
      modifies this
      ensures Valid()
      ensures serverOk ==> token.None? && !IsAuthenticated(token)
      ensures !serverOk ==> token == old(token)
    {
      if serverOk {
        stored := None;
        token := None;
      }
    }

    /**
     * Login: a successful response's token replaces the current one; a
     * failure is rethrown (`failed`) and leaves the token as it was.
     */
    method Login(response: Option<string>) returns (failed: bool)
      requires Valid()
      modifies this
      ensures Valid()
      ensures failed <==> response.None?
      ensures response.Some? ==> token == response
      ensures response.None? ==> token == old(token)
    {
      if response.None? {
        return true;
      }
      stored := response;
      token := response;
      return false;
    }

    /**
     * Register (setting credentials on the current user): reports whether
     * the server call failed and never touches the token.
     */
    method Register(serverOk: bool) returns (failed: bool)
      requires Valid()
      ensures Valid()
      ensures failed <==> !serverOk
    {
      failed := !serverOk;
    }
  }

  /** The part of `GET /users/me` the flags read. */
  datatype Identity = Identity(login: Option<string>, roles: Option<seq<string>>, isRegistered: Option<bool>)

  /** `userMe?.roles?.includes('ADMIN') || false` */
  function IsAdmin(userMe: Option<Identity>): (admin: bool)
    ensures admin <==> (userMe.Some? && userMe.value.roles.Some? && "ADMIN" in userMe.value.roles.value)
  {
    match userMe
    case None => false
    case Some(me) => me.roles.Some? && "ADMIN" in me.roles.value
  }

  /** `userMe?.isRegistered || false` */
  function IsRegistered(userMe: Option<Identity>): (registered: bool)
    ensures registered <==> userMe.Some? && userMe.value.isRegistered == Some(true)
  {
    userMe.Some? && userMe.value.isRegistered.GetOr(false)
  }

  /** `userMe?.login || null`: an absent or empty login is reported as none. */
  function UserLogin(userMe: Option<Identity>): (login: Option<string>)
    ensures login.Some? <==> userMe.Some? && userMe.value.login.Some? && userMe.value.login.value != ""
    ensures login.Some? ==> login == userMe.value.login
  {
    if userMe.Some? && userMe.value.login.Some? && userMe.value.login.value != "" then userMe.value.login else None
  }

  /** What the provider renders: the placeholder, or the app with its context. */
  datatype ProviderView =
    | Initializing
    | WithContext(isAuthenticated: bool, token: Option<string>, isAdmin: bool, isRegistered: bool, userLogin: Option<string>)

  /**
   * "Initializing session..." shows exactly while there is no token and the
   * creation call is pending; otherwise the context carries the token and the
   * derived flags.
   */
  function ProviderViewFor(token: Option<string>, creationPending: bool, userMe: Option<Identity>): (v: ProviderView)
    ensures v.Initializing? <==> !IsAuthenticated(token) && creationPending
    ensures v.WithContext? ==> v.token == token && (v.isAuthenticated <==> IsAuthenticated(token))
    ensures v.WithContext? ==> (v.isAdmin == IsAdmin(userMe) && v.isRegistered == IsRegistered(userMe) &&
      v.userLogin == UserLogin(userMe))
  {
    if !IsAuthenticated(token) && creationPending then Initializing
    else WithContext(IsAuthenticated(token), token, IsAdmin(userMe), IsRegistered(userMe), UserLogin(userMe))
  }

  /**
   * A session that starts without a token and whose creation succeeds with a
   * non-empty token is authenticated. A logout that the server accepts clears
   * the token, and clearing it re-runs the session effect, which depends on
   * `token`: while that creation call is pending the provider shows
   * "Initializing session...", and once it succeeds the user is in a new
   * anonymous session under the new token.
   */
  method LogoutStartsNewAnonymousSession(first: string, second: string)
    returns (before: bool, afterLogout: bool, whilePending: ProviderView, afterEffect: Option<string>)
    requires first != "" && second != ""
    ensures before && !afterLogout
    ensures whilePending == Initializing
    ensures afterEffect == Some(second) && IsAuthenticated(afterEffect)
  {
    var session := new AuthSession(None);
    session.InitSession(Some(first));
    before := IsAuthenticated(session.token);
    session.Logout(true);
    afterLogout := IsAuthenticated(session.token);
    whilePending := ProviderViewFor(session.token, true, None);
    session.InitSession(Some(second));
    afterEffect := session.token;
  }
}
