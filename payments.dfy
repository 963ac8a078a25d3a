/** `usePayments` (src/composables/usePayments.ts): which transactions the
    payments view lists, chosen by a method: all, the future ones, or those
    of one type. */
module Payments {
  import opened Types
  import opened JsBuiltins
  import Transactions

  /** The `Methods` enum. */
  datatype Method = All | Income | Outcome | Future

  /** The string value of each enum member. */
  function MethodValue(m: Method): (v: string)
    ensures v == "" <==> m == All
    ensures v == "FUTURE" <==> m == Future
  {
    match m
    case All => ""
    case Income => INCOME
    case Outcome => OUTCOME
    case Future => "FUTURE"
  }

  /** The transactions whose `type` is `kind`. */
  function OfType(kind: string): Transaction -> bool
  {
    (t: Transaction) => t.kind == kind
  }

  /** What `filterTransactionsByType(transactions)` assigns to
      `selectedTransactions` under method `m`, given the store's two lists. */
  function Selection(m: Method, my: seq<Transaction>, future: seq<Transaction>, transactions: seq<Transaction>): (r: seq<Transaction>)
    ensures m == All ==> r == my
    ensures m == Future ==> r == future
    ensures m == Income || m == Outcome ==>
      && (forall x :: x in r ==> x in transactions && x.kind == MethodValue(m))
      && (forall i :: 0 <= i < |transactions| && transactions[i].kind == MethodValue(m) ==> transactions[i] in r)
  {
    var value := MethodValue(m);
    if value == "" then my
    else if value == "FUTURE" then future
    else Filter(transactions, OfType(value))
  }

  /** For a type method the selection is pinned down: it keeps the input
      order, and holds every transaction of that type exactly as often as
      the input does and nothing else. */
  lemma TypeSelectionIsExact(m: Method, my: seq<Transaction>, future: seq<Transaction>, transactions: seq<Transaction>)
    requires m == Income || m == Outcome
    ensures IsSubsequence(Selection(m, my, future, transactions), transactions)
    ensures forall x :: multiset(Selection(m, my, future, transactions))[x] ==
                          if x.kind == MethodValue(m) then multiset(transactions)[x] else 0
  {
    var p := OfType(MethodValue(m));
    FilterIsSubsequence(transactions, p);
    forall x
      ensures multiset(Selection(m, my, future, transactions))[x] ==
                if x.kind == MethodValue(m) then multiset(transactions)[x] else 0
    {
      FilterCounts(transactions, p, x);
    }
  }

  /** The INCOME and OUTCOME selections of one list split it: together they
      hold the list's INCOME and OUTCOME transactions, and share none. */
  lemma IncomeAndOutcomeAreDisjoint(my: seq<Transaction>, future: seq<Transaction>, transactions: seq<Transaction>)
    ensures forall x :: x in Selection(Income, my, future, transactions) ==> x !in Selection(Outcome, my, future, transactions)
    ensures |Selection(Income, my, future, transactions)| + |Selection(Outcome, my, future, transactions)| <= |transactions|
  {
    var inc := Selection(Income, my, future, transactions);
    var out := Selection(Outcome, my, future, transactions);
    var both := Filter(transactions, (t: Transaction) => t.kind == INCOME || t.kind == OUTCOME);
    forall x
      ensures multiset(inc)[x] + multiset(out)[x] == multiset(both)[x]
    {
      FilterCounts(transactions, OfType(INCOME), x);
      FilterCounts(transactions, OfType(OUTCOME), x);
      FilterCounts(transactions, (t: Transaction) => t.kind == INCOME || t.kind == OUTCOME, x);
    }
    assert multiset(inc) + multiset(out) == multiset(both);
    assert |multiset(inc) + multiset(out)| == |multiset(both)|;
  }

  class PaymentsView {
    /** The transactions store the view reads its lists from. */
    const store: Transactions.TransactionStore
    var paymentsMethods: Method
    var selectedTransactions: seq<Transaction>

    constructor (store: Transactions.TransactionStore)
      ensures this.store == store
      ensures paymentsMethods == All && selectedTransactions == store.myTransactions
    {
      this.store := store;
      paymentsMethods := All;
      selectedTransactions := store.myTransactions;
    }

    method HandlePaymentsMethods(m: Method)
      modifies this`paymentsMethods
      ensures paymentsMethods == m
    {
      paymentsMethods := m;
    }

    method FilterTransactionsByType(transactions: seq<Transaction>)
      modifies this`selectedTransactions
      ensures selectedTransactions == Selection(paymentsMethods, store.myTransactions, store.futureTransactions, transactions)
    {
      if MethodValue(paymentsMethods) == "" {
        selectedTransactions := store.myTransactions;
        return;
      } else if MethodValue(paymentsMethods) == "FUTURE" {
        selectedTransactions := store.futureTransactions;
        return;
      } else {
        var filteredTransactions := Filter(transactions, OfType(MethodValue(paymentsMethods)));
        selectedTransactions := filteredTransactions;
      }
    }
  }
}
