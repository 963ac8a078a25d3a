/** The authentication store (src/stores/auth.ts): a three-valued
    `authenticated` (null until determined), the user id, and a loading flag,
    driven by login, a confirmed logout and the boot-time validation. */
module Auth {
  import opened Types
  import opened Session
  import opened Api
  import Routing

  datatype AuthState = AuthState(authenticated: Option<bool>, userId: Option<string>)

  /** `{authenticated: null, user_id: null}`. */
  const UNKNOWN := AuthState(None, None)

  /** `{authenticated: false, user_id: null}`. */
  const LOGGED_OUT := AuthState(Some(false), None)

  /** A user id is held exactly while the state says authenticated, and it is
      never the empty string. */
  predicate Consistent(s: AuthState)
  {
    && (s.authenticated == Some(true) <==> s.userId.Some?)
    && (s.userId.Some? ==> s.userId.value != "")
  }

  /** The state `validateAuth` leaves, given the storage and state before it
      and the outcome of the refresh that `useAPI` makes. */
  function StateAfterValidation(items: map<string, string>, outcome: Response<RefreshReply>, current: AuthState): (s: AuthState)
    ensures !Refreshable(items, outcome) ==> s == LOGGED_OUT
    ensures Refreshable(items, outcome) && ProfileOf(StoreAfterRefresh(items, outcome)).None? ==> s == current
    ensures Refreshable(items, outcome) && ProfileOf(StoreAfterRefresh(items, outcome)).Some? ==>
      s == AuthState(Some(true), Some(ProfileOf(StoreAfterRefresh(items, outcome)).value.id))
  {
    if !Refreshable(items, outcome) then LOGGED_OUT
    else match ProfileOf(StoreAfterRefresh(items, outcome))
      case None => current
      case Some(user) => AuthState(Some(true), Some(user.id))
  }

  /** The router path `validateAuth` leaves: the wallets page once
      authenticated, otherwise wherever `useAPI` left it. */
  function PathAfterValidation(items: map<string, string>, outcome: Response<RefreshReply>, path: string): (after: string)
    ensures StateAfterValidation(items, outcome, UNKNOWN).authenticated == Some(true) ==> after == "/wallets"
    ensures StateAfterValidation(items, outcome, UNKNOWN).authenticated != Some(true) ==> after == RouteAfterRefresh(items, path, outcome)
  {
    if Refreshable(items, outcome) && ProfileOf(StoreAfterRefresh(items, outcome)).Some? then "/wallets"
    else RouteAfterRefresh(items, path, outcome)
  }

  /** Validation keeps the state consistent; when it authenticates, the user
      id is the one stored in the session afterwards, and that session holds
      the fresh token pair. */
  lemma ValidationKeepsConsistent(items: map<string, string>, outcome: Response<RefreshReply>, current: AuthState)
    requires Consistent(current)
    ensures Consistent(StateAfterValidation(items, outcome, current))
    ensures var s := StateAfterValidation(items, outcome, current);
      s.authenticated == Some(true) && s != current ==>
        && s.userId == Lookup(StoreAfterRefresh(items, outcome), USER_ID)
        && Lookup(StoreAfterRefresh(items, outcome), JWT_TOKEN) == Some(outcome.data.token)
  {
    if Refreshable(items, outcome) {
      ProfileAfterRefresh(items, outcome);
    }
  }

  /** Validation authenticates exactly when the refresh succeeds and the four
      identity keys are stored non-empty; the premium flag needs no check
      because the refresh has just written it. */
  lemma ValidationAuthenticates(items: map<string, string>, outcome: Response<RefreshReply>)
    ensures StateAfterValidation(items, outcome, UNKNOWN).authenticated == Some(true) <==>
      && Refreshable(items, outcome)
      && Truthy(items, USER_ID) && Truthy(items, USER_EMAIL) && Truthy(items, USER_NAME) && Truthy(items, USER_PHOTO)
    ensures StateAfterValidation(items, outcome, UNKNOWN).authenticated == Some(true) ==>
      StateAfterValidation(items, outcome, UNKNOWN).userId == Some(items[USER_ID])
  {
    if Refreshable(items, outcome) {
      ProfileAfterRefresh(items, outcome);
    }
  }

  class AuthStore {
    var authState: AuthState
    var isLoading: bool

    constructor ()
      ensures authState == UNKNOWN && !isLoading
    {
      authState := UNKNOWN;
      isLoading := false;
    }

    /** Starts the login; the redirect to the identity provider that follows
        leaves the page. */
    method OnLogin()
      modifies this
      ensures isLoading && authState == old(authState)
    {
      isLoading := true;
    }

    /** `confirmed` is the answer to the confirmation dialog. */
    method OnLogout(confirmed: bool, session: SessionStore, router: Routing.Router)
      modifies this, session, router
      ensures isLoading == old(isLoading)
      ensures !confirmed ==>
        authState == old(authState) && session.items == old(session.items) && router.path == old(router.path)
      ensures confirmed ==>
        authState == LOGGED_OUT && session.items == old(session.items) - DELETED_KEYS && router.path == "/"
    {
      if !confirmed {
        return;
      }
      session.DeleteAll();
      authState := LOGGED_OUT;
      router.Replace("/");
    }

    method ValidateAuth(session: SessionStore, client: ApiClient, router: Routing.Router, outcome: Response<RefreshReply>)
      modifies this, session, client, router
      ensures !isLoading
      ensures authState == StateAfterValidation(old(session.items), outcome, old(authState))
      ensures session.items == StoreAfterRefresh(old(session.items), outcome)
      ensures client.authorization == HeaderAfterRefresh(old(session.items), old(client.authorization), outcome)
      ensures router.path == PathAfterValidation(old(session.items), outcome, old(router.path))
    {
      isLoading := true;
      var api := UseApi(session, client, router, outcome);
      if api {
        var user := session.GetUserProfile();
        if user.None? {
          isLoading := false;
          return;
        }
        authState := AuthState(Some(true), Some(user.value.id));
        router.Replace("/wallets");
      } else {
        authState := LOGGED_OUT;
      }
      isLoading := false;
    }

    method GetUserProfile(session: SessionStore) returns (p: Option<UserProfile>)
      ensures p == ProfileOf(session.items)
    {
      p := session.GetUserProfile();
    }
  }
}
