/** The transactions store (src/stores/transactions.ts): the transactions up
    to today and those after today of the selected wallet, a loading flag,
    and the wallet id. Both lists are replaced wholesale by a fetch. */
module Transactions {
  import opened Types
  import opened Session
  import opened Api
  import Routing

  /** The body of `GET /api/transaction`: its `transactions` list. */
  type Listing = seq<Transaction>

  /** What a fetch raises, given the outcomes of its two requests: the first
      failure, if any; the after-today request is only made once the
      until-today one has succeeded. */
  function FetchError(untilToday: Response<Listing>, afterToday: Response<Listing>): (raised: Option<Failure>)
    ensures untilToday.Err? ==> raised == Some(untilToday.failure)
    ensures untilToday.Ok? && afterToday.Err? ==> raised == Some(afterToday.failure)
    ensures raised.None? <==> untilToday.Ok? && afterToday.Ok?
  {
    if untilToday.Err? then Some(untilToday.failure)
    else if afterToday.Err? then Some(afterToday.failure)
    else None
  }

  class TransactionStore {
    var isTransactionsLoading: bool
    var myTransactions: seq<Transaction>
    var futureTransactions: seq<Transaction>
    var walletId: Option<int>

    constructor ()
      ensures !isTransactionsLoading && myTransactions == [] && futureTransactions == [] && walletId == None
    {
      isTransactionsLoading := false;
      myTransactions := [];
      futureTransactions := [];
      walletId := None;
    }

    /** `fetchTransactions()`. `refresh` is the outcome of the refresh made
        by `useAPI`; `untilToday` and `afterToday` those of the two listing
        requests. `raised` is the error the call rethrows. The guard tests
        the `walletId` ref itself, which is always truthy, so an unset wallet
        id does not stop the fetch: the request goes out with a null
        `wallet_id`. */
    method FetchTransactions(session: SessionStore, client: ApiClient, router: Routing.Router,
                             refresh: Response<RefreshReply>,
                             untilToday: Response<Listing>, afterToday: Response<Listing>)
      returns (raised: Option<Failure>)
      modifies this, session, client, router
      ensures session.items == StoreAfterRefresh(old(session.items), refresh)
      ensures client.authorization == HeaderAfterRefresh(old(session.items), old(client.authorization), refresh)
      ensures router.path == RouteAfterRefresh(old(session.items), old(router.path), refresh)
      ensures walletId == old(walletId)
      ensures !Refreshable(old(session.items), refresh) ==>
        && raised.None?
        && isTransactionsLoading == old(isTransactionsLoading)
        && myTransactions == old(myTransactions) && futureTransactions == old(futureTransactions)
      ensures Refreshable(old(session.items), refresh) ==>
        && !isTransactionsLoading
        && raised == FetchError(untilToday, afterToday)
        && (raised.None? ==> myTransactions == untilToday.data && futureTransactions == afterToday.data)
        && (raised.Some? ==> myTransactions == old(myTransactions) && futureTransactions == old(futureTransactions))
    {
      var api := UseApi(session, client, router, refresh);
      if !api {
        return None;
      }
      isTransactionsLoading := true;
      match untilToday {
        case Err(error) =>
          raised := Some(error);
        case Ok(transactions) =>
          match afterToday {
            case Err(error) =>
              raised := Some(error);
            case Ok(futureTransactionsResponse) =>
              futureTransactions := futureTransactionsResponse;
              myTransactions := transactions;
              raised := None;
          }
      }
      isTransactionsLoading := false;
    }

    method SetWalletToProvider(id: int)
      modifies this
      ensures walletId == Some(id)
      ensures isTransactionsLoading == old(isTransactionsLoading)
      ensures myTransactions == old(myTransactions) && futureTransactions == old(futureTransactions)
    {
      walletId := Some(id);
    }

    /** `refetchTransactions()`: the same fetch, started without waiting for
        it, so what it raises is not handled by the caller. */
    method RefetchTransactions(session: SessionStore, client: ApiClient, router: Routing.Router,
                               refresh: Response<RefreshReply>,
                               untilToday: Response<Listing>, afterToday: Response<Listing>)
      modifies this, session, client, router
      ensures session.items == StoreAfterRefresh(old(session.items), refresh)
      ensures client.authorization == HeaderAfterRefresh(old(session.items), old(client.authorization), refresh)
      ensures router.path == RouteAfterRefresh(old(session.items), old(router.path), refresh)
      ensures walletId == old(walletId)
      ensures !Refreshable(old(session.items), refresh) ==>
        myTransactions == old(myTransactions) && futureTransactions == old(futureTransactions)
        && isTransactionsLoading == old(isTransactionsLoading)
      ensures Refreshable(old(session.items), refresh) ==> !isTransactionsLoading
      ensures Refreshable(old(session.items), refresh) && untilToday.Ok? && afterToday.Ok? ==>
        myTransactions == untilToday.data && futureTransactions == afterToday.data
      ensures untilToday.Err? || afterToday.Err? ==>
        myTransactions == old(myTransactions) && futureTransactions == old(futureTransactions)
    {
      var _ := FetchTransactions(session, client, router, refresh, untilToday, afterToday);
    }
  }
}
