/** `useWallets` (src/composables/useWallets.ts): the user's wallets and a
    loading flag, replaced by `loadWallets` from `GET /api/wallet`. */
module Wallets {
  import opened Types
  import opened Session
  import opened Api
  import Routing

  /** A wallet is opaque to this code beyond its identity. */
  datatype Wallet = Wallet(id: int, name: string)

  /** The wallet list after a load that got past the token check. */
  function WalletsAfterLoad(wallets: seq<Wallet>, usable: bool, response: Response<seq<Wallet>>): (after: seq<Wallet>)
    ensures !usable ==> after == wallets
    ensures usable && response.Ok? ==> after == response.data
    ensures usable && response.Err? && response.failure == HttpError(Some(404)) ==> after == []
    ensures usable && response.Err? && response.failure != HttpError(Some(404)) ==> after == wallets
  {
    if !usable then wallets
    else match response
      case Ok(list) => list
      case Err(HttpError(status)) => if status == Some(404) then [] else wallets
      case Err(OtherError) => wallets
  }

  class WalletsView {
    var wallets: seq<Wallet>
    var isLoadingWallets: bool

    /** The refs as `useWallets()` creates them, before its first load. */
    constructor ()
      ensures wallets == [] && !isLoadingWallets
    {
      wallets := [];
      isLoadingWallets := false;
    }

    /** `loadWallets()`. Without a stored access token it does nothing at
        all; otherwise it refreshes, lists the wallets, and always clears the
        loading flag. */
    method LoadWallets(session: SessionStore, client: ApiClient, router: Routing.Router,
                       refresh: Response<RefreshReply>, response: Response<seq<Wallet>>)
      modifies this, session, client, router
      ensures !Truthy(old(session.items), JWT_TOKEN) ==>
        && wallets == old(wallets) && isLoadingWallets == old(isLoadingWallets)
        && session.items == old(session.items)
        && client.authorization == old(client.authorization) && router.path == old(router.path)
      ensures Truthy(old(session.items), JWT_TOKEN) ==>
        && !isLoadingWallets
        && wallets == WalletsAfterLoad(old(wallets), Refreshable(old(session.items), refresh), response)
        && session.items == StoreAfterRefresh(old(session.items), refresh)
        && client.authorization == HeaderAfterRefresh(old(session.items), old(client.authorization), refresh)
        && router.path == RouteAfterRefresh(old(session.items), old(router.path), refresh)
    {
      var token := session.GetJWT();
      if token.None? || token.value == "" {
        return;
      }
      isLoadingWallets := true;
      var api := UseApi(session, client, router, refresh);
      if !api {
        isLoadingWallets := false;
        return;
      }
      match response {
        case Ok(list) =>
          wallets := list;
        case Err(error) =>
          if error.HttpError? {
            if error.status == Some(404) {
              wallets := [];
            }
          }
      }
      isLoadingWallets := false;
    }
  }
}
