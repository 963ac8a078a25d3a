/** Shared value types: the `Transaction` record of src/types/transactions.ts,
    an Option for the source's `T | null`, and the outcome of a remote request. */
module Types {

  /** `T | null` (and `undefined`) in the source. */
  datatype Option<+T> = None | Some(value: T)

  /** What a rejected request raises. `HttpError` is an `AxiosError`, with the
      status of the response when there was one; `OtherError` is any other
      thrown value (a network failure before a response, a programming error). */
  datatype Failure = HttpError(status: Option<int>) | OtherError

  /** The outcome of one remote request, given to the model as an input. */
  datatype Response<+T> = Ok(data: T) | Err(failure: Failure)

  /** One transaction as the API returns it. `kind` is the JSON field `type`;
      it is declared `"INCOME" | "OUTCOME"` but nothing checks that at run
      time, so it is any string here. `amount` is the decimal string of the
      API read as an exact number of cents. */
  datatype Transaction = Transaction(
    id: int,
    name: string,
    kind: string,
    description: string,
    insertedAt: string,
    updatedAt: string,
    amount: int,
    transactionDate: string,
    subtype: string,
    proofUrl: Option<string>,
    walletId: int)

  const INCOME := "INCOME"
  const OUTCOME := "OUTCOME"
}
