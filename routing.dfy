/** The router of src/router/index.ts: the declared routes, the
    `beforeEach` guard, and `router.replace` as the current path. */
module Routing {
  import opened Types

  datatype Route = Route(path: string, name: string, requiresAuth: bool)

  const CALLBACK_PATH := "/auth/callback"

  /** The route table. No route sets `meta.requiresAuth`. */
  const ROUTES: seq<Route> := [
    Route("/", "Home", false),
    Route("/wallets", "Wallets", false),
    Route(CALLBACK_PATH, "OAuthCallback", false)
  ]

  /** `to.meta.requiresAuth` for a path: the flag of the first declared route
      with that path, and false (undefined) when none matches. */
  function RequiresAuth(routes: seq<Route>, path: string): bool
  {
    if routes == [] then false
    else if routes[0].path == path then routes[0].requiresAuth
    else RequiresAuth(routes[1..], path)
  }

  /** The `beforeEach` guard: `Some("/")` is `next('/')`, `None` is `next()`.
      `authenticated` is `authState.authenticated`, whose `null` is falsy. */
  function BeforeEach(toPath: string, requiresAuth: bool, authenticated: Option<bool>): (redirect: Option<string>)
    ensures redirect.Some? ==> redirect.value == "/"
    ensures toPath == CALLBACK_PATH ==> redirect.None?
    ensures !requiresAuth ==> redirect.None?
    ensures requiresAuth && toPath != CALLBACK_PATH ==> (redirect.Some? <==> authenticated != Some(true))
  {
    if toPath != CALLBACK_PATH && requiresAuth && !(authenticated == Some(true)) then Some("/") else None
  }

  /** A table in which no route sets the flag protects no path. */
  lemma {:induction false} NoFlagNoAuth(routes: seq<Route>, path: string)
    requires forall i :: 0 <= i < |routes| ==> !routes[i].requiresAuth
    ensures !RequiresAuth(routes, path)
  {
    if routes != [] {
      NoFlagNoAuth(routes[1..], path);
    }
  }

  /** None of the declared routes asks for authentication, so the guard lets
      every navigation through, whatever the authentication state. */
  lemma GuardPassesEveryPath(path: string, authenticated: Option<bool>)
    ensures BeforeEach(path, RequiresAuth(ROUTES, path), authenticated) == None
  {
    NoFlagNoAuth(ROUTES, path);
  }

  /** The browser location as `router.replace` leaves it. */
  class Router {
    var path: string

    constructor (initial: string)
      ensures path == initial
    {
      path := initial;
    }

    method Replace(to: string)
      modifies this
      ensures path == to
    {
      path := to;
    }
  }
}
