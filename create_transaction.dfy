/** `useCreateTransaction` (src/composables/useCreateTransaction.ts): the
    create-transaction form, which posts either one transaction or a
    recurring series, and the date suffix the API expects. */
module CreateTransaction {
  import opened Types
  import opened JsBuiltins
  import opened Session
  import opened Api
  import Routing

  /** Midnight UTC, appended to a `YYYY-MM-DD` date for the API. */
  const API_TIME := "00:00:00.000Z"

  /** `formatDateToApi(date)`. */
  function FormatDateToApi(date: string): (r: string)
    ensures |r| == |date| + 14
    ensures r[..|date|] == date && r[|date|..] == "T" + API_TIME
  {
    date + "T00:00:00.000Z"
  }

  /** `s.split("T")[0]`, which `formatDateToRef` applies to an ISO time
      stamp to get its date. */
  function DatePart(s: string): string
  {
    Split(s, 'T')[0]
  }

  /** `formatDateToRef`'s way of reading a date out of a time stamp undoes
      `formatDateToApi` for every date without a `T` in it. */
  lemma DatePartOfApiDate(date: string)
    requires 'T' !in date
    ensures DatePart(FormatDateToApi(date)) == date
  {
    assert FormatDateToApi(date) == date + ['T'] + API_TIME;
    SplitConcat(date, API_TIME, 'T');
  }

  /** The body posted to `/api/transaction/single` or
      `/api/transaction/recurrent`. `walletId` is `parseInt(wallet_id)`,
      read without a radix, so a `0x` prefix makes it hexadecimal; NaN (sent
      as null) is `None`. */
  datatype Payload =
    | Single(name: string, kind: string, amount: string, transactionDate: string, subtype: string,
             description: string, proofUrl: Option<string>, walletId: Option<int>)
    | Recurrent(name: string, kind: string, amount: string, startDate: string, endDate: string, subtype: string,
                description: string, proofUrl: Option<string>, walletId: Option<int>)

  /** What JavaScript's `<` compares when both operands are objects: their
      string conversion. */
  const OBJECT_STRING := "[object Object]"

  /** `recurrenceEnd < recurrenceStart` as written: the comparison is on the
      two ref objects, not on their dates. */
  predicate RecurrenceRefsLess()
  {
    StringLess(OBJECT_STRING, OBJECT_STRING)
  }

  /** The recurrence guard never rejects, whatever dates were chosen. */
  lemma RecurrenceGuardNeverFires()
    ensures !RecurrenceRefsLess()
  {
    StringLessIrreflexive(OBJECT_STRING);
  }

  class TransactionForm {
    /** The `wallet_id` route parameter the form was opened with. */
    const walletParam: string
    var isCreatingTransaction: bool
    var nameTransaction: string
    var description: string
    var typeTransaction: string
    var subtypeTransaction: string
    var amountTransaction: string
    var isRecurring: bool
    var transactionDate: string
    var recurrenceStart: string
    var recurrenceEnd: string
    var proofUrl: Option<string>

    /** The refs as `useCreateTransaction` creates them; `today` is today's
        date as `YYYY-MM-DD`. */
    constructor (walletParam: string, today: string)
      ensures this.walletParam == walletParam
      ensures !isCreatingTransaction && !isRecurring && proofUrl == None
      ensures nameTransaction == "" && description == "" && amountTransaction == ""
      ensures typeTransaction == INCOME && subtypeTransaction == "FOOD"
      ensures transactionDate == today && recurrenceStart == today && recurrenceEnd == today
    {
      this.walletParam := walletParam;
      isCreatingTransaction := false;
      nameTransaction := "";
      description := "";
      typeTransaction := INCOME;
      subtypeTransaction := "FOOD";
      amountTransaction := "";
      isRecurring := false;
      transactionDate := today;
      recurrenceStart := today;
      recurrenceEnd := today;
      proofUrl := None;
    }

    /** The body of a single creation, from the current field values. */
    function SinglePayload(): (p: Payload)
      reads this
      ensures p.Single? && p.proofUrl == proofUrl && p.walletId == ParseIntNoRadix(walletParam)
      ensures p.transactionDate == FormatDateToApi(transactionDate)
    {
      Single(nameTransaction, typeTransaction, amountTransaction, FormatDateToApi(transactionDate),
             subtypeTransaction, description, proofUrl, ParseIntNoRadix(walletParam))
    }

    /** The body of a recurring creation: never any proof URL. */
    function RecurrentPayload(): (p: Payload)
      reads this
      ensures p.Recurrent? && p.proofUrl == None && p.walletId == ParseIntNoRadix(walletParam)
      ensures p.startDate == FormatDateToApi(recurrenceStart) && p.endDate == FormatDateToApi(recurrenceEnd)
    {
      Recurrent(nameTransaction, typeTransaction, amountTransaction, FormatDateToApi(recurrenceStart),
                FormatDateToApi(recurrenceEnd), subtypeTransaction, description, None, ParseIntNoRadix(walletParam))
    }

    /** The name/amount check: the alert it raises does not stop creation. */
    predicate NeedsWarning()
      reads this
    {
      |nameTransaction| < 3 || |amountTransaction| < 1
    }

    method HandleGetProofUrl(url: string)
      modifies this`proofUrl
      ensures proofUrl == Some(url)
    {
      proofUrl := Some(url);
    }

    /** Posts one transaction; `post` is the outcome of the request.
        `refetch` says whether `refetchTransactions()` was started. */
    method CreateSingleTransaction(post: Response<()>) returns (sent: Payload, refetch: bool)
      modifies this`isCreatingTransaction
      ensures sent == SinglePayload()
      ensures refetch == post.Ok?
      ensures !isCreatingTransaction
    {
      isCreatingTransaction := true;
      sent := SinglePayload();
      match post {
        case Ok(_) =>
          refetch := true;
        case Err(_) =>
          refetch := false;
      }
      isCreatingTransaction := false;
    }

    /** Posts a recurring series. Whether the post succeeds decides only
        what is logged or alerted, so its outcome is no input here. The
        refetch at the end is only named, not called, so none starts. */
    method CreateRecurrentTransaction() returns (sent: Option<Payload>)
      modifies this`isCreatingTransaction
      ensures sent == Some(RecurrentPayload())
      ensures !isCreatingTransaction
    {
      if RecurrenceRefsLess() {
        RecurrenceGuardNeverFires();
        assert false;
        return None;
      }
      isCreatingTransaction := true;
      sent := Some(RecurrentPayload());
      isCreatingTransaction := false;
    }

    /** `handleCreateTransaction()`: `refresh` is the outcome of the refresh
        `useAPI` makes and `post` that of the single creation request. `warned`
        says whether the name/amount alert was shown, `sent` what was
        posted, `refetch` whether a refetch was started. */
    method HandleCreateTransaction(session: SessionStore, client: ApiClient, router: Routing.Router,
                                   refresh: Response<RefreshReply>, post: Response<()>)
      returns (warned: bool, sent: Option<Payload>, refetch: bool)
      modifies this`isCreatingTransaction, session, client, router
      ensures warned == NeedsWarning()
      ensures session.items == StoreAfterRefresh(old(session.items), refresh)
      ensures client.authorization == HeaderAfterRefresh(old(session.items), old(client.authorization), refresh)
      ensures router.path == RouteAfterRefresh(old(session.items), old(router.path), refresh)
      ensures !Refreshable(old(session.items), refresh) ==>
        sent.None? && !refetch && isCreatingTransaction == old(isCreatingTransaction)
      ensures Refreshable(old(session.items), refresh) ==> !isCreatingTransaction
      ensures Refreshable(old(session.items), refresh) && !isRecurring ==>
        sent == Some(SinglePayload()) && refetch == post.Ok?
      ensures Refreshable(old(session.items), refresh) && isRecurring ==>
        sent == Some(RecurrentPayload()) && !refetch
    {
      warned := NeedsWarning();
      var api := UseApi(session, client, router, refresh);
      if !api {
        return warned, None, false;
      }

      if !isRecurring {
        var single;
        single, refetch := CreateSingleTransaction(post);
        sent := Some(single);
        return;
      }
      sent := CreateRecurrentTransaction();
      refetch := false;
    }
  }
}
