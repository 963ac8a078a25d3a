/** `useAPI` (src/composables/useApi.ts) and the client it configures
    (src/api/config.ts): every authenticated call first exchanges the stored
    refresh token for a new token pair. The refresh request's outcome is an
    input; the client's `Authorization` default header is a field. */
module Api {
  import opened Types
  import opened Session
  import Routing

  /** The body of a successful `GET /refresh/`. */
  datatype RefreshReply = RefreshReply(token: string, refreshToken: string, isPremium: bool)

  /** The header value `API.setTokenAuth(token)` installs. */
  function Bearer(token: string): (h: string)
    ensures |h| == |token| + 7 && h[..7] == "Bearer " && h[7..] == token
  {
    "Bearer " + token
  }

  /** `setItem` stores a boolean as its string conversion. */
  function BoolString(b: bool): (s: string)
    ensures s != ""
    ensures (s == "true") == b
  {
    if b then "true" else "false"
  }

  /** `useAPI` hands back a client exactly when a refresh token is stored and
      the refresh request succeeds. */
  predicate Refreshable(items: map<string, string>, outcome: Response<RefreshReply>)
  {
    Truthy(items, JWT_REFRESH_TOKEN) && outcome.Ok?
  }

  /** The session is given up: no refresh token, or the refresh was refused
      with 401. */
  predicate SessionRejected(items: map<string, string>, outcome: Response<RefreshReply>)
  {
    !Truthy(items, JWT_REFRESH_TOKEN) || outcome == Err(HttpError(Some(401)))
  }

  /** The storage after `useAPI`. */
  function StoreAfterRefresh(items: map<string, string>, outcome: Response<RefreshReply>): (after: map<string, string>)
    ensures SessionRejected(items, outcome) ==> after == items - DELETED_KEYS
    ensures Refreshable(items, outcome) ==>
      && Lookup(after, JWT_TOKEN) == Some(outcome.data.token)
      && Lookup(after, JWT_REFRESH_TOKEN) == Some(outcome.data.refreshToken)
      && Lookup(after, IS_PREMIUM) == Some(BoolString(outcome.data.isPremium))
      && (forall k :: k !in {JWT_TOKEN, JWT_REFRESH_TOKEN, IS_PREMIUM} ==> Lookup(after, k) == Lookup(items, k))
    ensures !SessionRejected(items, outcome) && outcome.Err? ==> after == items
  {
    if !Truthy(items, JWT_REFRESH_TOKEN) then items - DELETED_KEYS
    else match outcome
      case Ok(reply) =>
        items[JWT_TOKEN := reply.token][JWT_REFRESH_TOKEN := reply.refreshToken][IS_PREMIUM := BoolString(reply.isPremium)]
      case Err(error) =>
        if error == HttpError(Some(401)) then items - DELETED_KEYS else items
  }

  /** The client's `Authorization` header after `useAPI`. */
  function HeaderAfterRefresh(items: map<string, string>, header: Option<string>, outcome: Response<RefreshReply>): (after: Option<string>)
    ensures !Truthy(items, JWT_REFRESH_TOKEN) ==> after == header
    ensures Refreshable(items, outcome) ==> after == Some(Bearer(outcome.data.token))
    ensures Truthy(items, JWT_REFRESH_TOKEN) && outcome.Err? ==> after == Some(Bearer(items[JWT_REFRESH_TOKEN]))
  {
    if !Truthy(items, JWT_REFRESH_TOKEN) then header
    else match outcome
      case Ok(reply) => Some(Bearer(reply.token))
      case Err(_) => Some(Bearer(items[JWT_REFRESH_TOKEN]))
  }

  /** The router path after `useAPI`: back to the landing page when the
      session is given up. */
  function RouteAfterRefresh(items: map<string, string>, path: string, outcome: Response<RefreshReply>): (after: string)
    ensures SessionRejected(items, outcome) ==> after == "/"
    ensures !SessionRejected(items, outcome) ==> after == path
  {
    if SessionRejected(items, outcome) then "/" else path
  }

  /** Whatever the outcome, a rejected session leaves no token and no profile
      behind and keeps only the premium flag of the old identity; a refresh
      that fails otherwise keeps every credential. */
  lemma RejectedSessionIsLoggedOut(items: map<string, string>, outcome: Response<RefreshReply>)
    requires SessionRejected(items, outcome)
    ensures var after := StoreAfterRefresh(items, outcome);
      && Lookup(after, JWT_TOKEN).None? && Lookup(after, JWT_REFRESH_TOKEN).None?
      && ProfileOf(after).None?
      && Lookup(after, IS_PREMIUM) == Lookup(items, IS_PREMIUM)
  {
    DeleteAllForgetsProfile(items);
  }

  /** After a successful refresh the premium flag decodes to the one the
      server sent, and a profile can be read exactly when the four identity
      keys are stored non-empty. */
  lemma ProfileAfterRefresh(items: map<string, string>, outcome: Response<RefreshReply>)
    requires Refreshable(items, outcome)
    ensures var after := StoreAfterRefresh(items, outcome);
      && PremiumOf(after) == Some(outcome.data.isPremium)
      && (ProfileOf(after).Some? <==>
            Truthy(items, USER_ID) && Truthy(items, USER_EMAIL) && Truthy(items, USER_NAME) && Truthy(items, USER_PHOTO))
      && (ProfileOf(after).Some? ==>
            (ProfileOf(after).value.id == items[USER_ID] && ProfileOf(after).value.isPremium == outcome.data.isPremium))
  {
    var after := StoreAfterRefresh(items, outcome);
    assert Truthy(after, IS_PREMIUM);
    forall k | k in {USER_ID, USER_EMAIL, USER_NAME, USER_PHOTO}
      ensures Truthy(after, k) == Truthy(items, k)
    {
      assert Lookup(after, k) == Lookup(items, k);
    }
    if ProfileOf(after).Some? {
      assert Truthy(after, USER_ID) && Truthy(after, USER_EMAIL) && Truthy(after, USER_NAME) && Truthy(after, USER_PHOTO);
    }
  }

  /** The shared HTTP client; only its default `Authorization` header is
      state. */
  class ApiClient {
    var authorization: Option<string>

    constructor ()
      ensures authorization == None
    {
      authorization := None;
    }

    method SetTokenAuth(token: string)
      modifies this
      ensures authorization == Some(Bearer(token))
    {
      authorization := Some(Bearer(token));
    }
  }

  /** Deletes the session (all but the premium flag) and returns to the
      landing page. */
  method HandleInvalidSession(session: SessionStore, router: Routing.Router)
    modifies session, router
    ensures session.items == old(session.items) - DELETED_KEYS
    ensures router.path == "/"
  {
    session.DeleteAll();
    router.Replace("/");
  }

  /** A 401 ends the session like `HandleInvalidSession`; any other error is
      only logged. */
  method HandleRefreshError(session: SessionStore, router: Routing.Router, error: Failure)
    modifies session, router
    ensures error == HttpError(Some(401)) ==> session.items == old(session.items) - DELETED_KEYS && router.path == "/"
    ensures error != HttpError(Some(401)) ==> session.items == old(session.items) && router.path == old(router.path)
  {
    if error.HttpError? && error.status == Some(401) {
      session.DeleteAll();
      router.Replace("/");
    }
  }

  /** `useAPI()`: `usable` is true where the source returns the client and
      false where it returns undefined. */
  method UseApi(session: SessionStore, client: ApiClient, router: Routing.Router, outcome: Response<RefreshReply>)
    returns (usable: bool)
    modifies session, client, router
    ensures usable == Refreshable(old(session.items), outcome)
    ensures session.items == StoreAfterRefresh(old(session.items), outcome)
    ensures client.authorization == HeaderAfterRefresh(old(session.items), old(client.authorization), outcome)
    ensures router.path == RouteAfterRefresh(old(session.items), old(router.path), outcome)
  {
    var jwtRefreshToken := session.GetRefreshJWT();
    if jwtRefreshToken.None? || jwtRefreshToken.value == "" {
      HandleInvalidSession(session, router);
      return false;
    }

    client.SetTokenAuth(jwtRefreshToken.value);

    match outcome {
      case Ok(reply) =>
        session.SetJWT(reply.token);
        session.SetRefreshJWT(reply.refreshToken);
        session.SetIsPremium(BoolString(reply.isPremium));
        client.SetTokenAuth(reply.token);
        return true;
      case Err(error) =>
        HandleRefreshError(session, router, error);
        return false;
    }
  }
}
