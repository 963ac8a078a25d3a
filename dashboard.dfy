/** `useDashboard` (src/composables/useDashboard.ts): the current balance of a
    list of transactions, and the transactions grouped under a
    "<MonthName> <Year>" label. */
module Dashboard {
  import opened Types
  import opened JsBuiltins

  // --------------------------------------------------------------- balance

  /** One step of the `reduce`: INCOME adds its amount, OUTCOME subtracts it,
      any other type leaves the running total as it is. */
  function Step(acc: int, t: Transaction): int
  {
    if t.kind == INCOME then acc + t.amount
    else if t.kind == OUTCOME then acc - t.amount
    else acc
  }

  /** `transactions.reduce(Step, 0)`: a fold from the left. */
  function Balance(ts: seq<Transaction>): int
  {
    if ts == [] then 0 else Step(Balance(ts[..|ts| - 1]), ts[|ts| - 1])
  }

  /** What one transaction adds to the total of a kind. */
  function KindAmount(t: Transaction, kind: string): int
  {
    if t.kind == kind then t.amount else 0
  }

  /** The sum of the amounts of the transactions of one type. */
  function SumOfKind(ts: seq<Transaction>, kind: string): int
  {
    if ts == [] then 0 else KindAmount(ts[0], kind) + SumOfKind(ts[1..], kind)
  }

  lemma {:induction false} SumOfKindAppend(a: seq<Transaction>, b: seq<Transaction>, kind: string)
    ensures SumOfKind(a + b, kind) == SumOfKind(a, kind) + SumOfKind(b, kind)
  {
    if a == [] {
      assert a + b == b;
    } else {
      SumOfKindAppend(a[1..], b, kind);
      assert (a + b)[1..] == a[1..] + b;
    }
  }

  /** The balance is the income total minus the outcome total; transactions
      of any other type do not count. */
  lemma {:induction false} BalanceIsIncomeMinusOutcome(ts: seq<Transaction>)
    ensures Balance(ts) == SumOfKind(ts, INCOME) - SumOfKind(ts, OUTCOME)
  {
    if ts != [] {
      var init, last := ts[..|ts| - 1], ts[|ts| - 1];
      BalanceIsIncomeMinusOutcome(init);
      assert init + [last] == ts;
      SumOfKindAppend(init, [last], INCOME);
      SumOfKindAppend(init, [last], OUTCOME);
    }
  }

  /** Taking one transaction out of the list takes its amount out of the
      kind total. */
  lemma SumOfKindRemove(b: seq<Transaction>, k: nat, kind: string)
    requires k < |b|
    ensures SumOfKind(b, kind) == KindAmount(b[k], kind) + SumOfKind(b[..k] + b[k + 1..], kind)
  {
    assert b == b[..k] + [b[k]] + b[k + 1..];
    SumOfKindAppend(b[..k] + [b[k]], b[k + 1..], kind);
    SumOfKindAppend(b[..k], [b[k]], kind);
    SumOfKindAppend(b[..k], b[k + 1..], kind);
  }

  lemma MultisetRemove(b: seq<Transaction>, k: nat)
    requires k < |b|
    ensures multiset(b[..k] + b[k + 1..]) == multiset(b) - multiset{b[k]}
  {
    assert b == b[..k] + [b[k]] + b[k + 1..];
  }

  /** An element of the multiset of a sequence sits at some index of it. */
  lemma IndexOf(b: seq<Transaction>, x: Transaction) returns (k: nat)
    requires x in multiset(b)
    ensures k < |b| && b[k] == x
  {
    assert x in b;
    k :| 0 <= k < |b| && b[k] == x;
  }

  /** The kind total does not depend on the order of the transactions. */
  lemma {:induction false} SumOfKindPermutation(a: seq<Transaction>, b: seq<Transaction>, kind: string)
    requires multiset(a) == multiset(b)
    ensures SumOfKind(a, kind) == SumOfKind(b, kind)
  {
    if a == [] {
      assert |multiset(b)| == 0;
    } else {
      var k := IndexOf(b, a[0]);
      var rest := b[..k] + b[k + 1..];
      MultisetRemove(b, k);
      assert a == [a[0]] + a[1..];
      assert multiset(a[1..]) == multiset(rest);
      SumOfKindPermutation(a[1..], rest, kind);
      SumOfKindRemove(b, k, kind);
    }
  }

  /** The balance is the same in whatever order the transactions arrive. */
  lemma BalanceIsOrderIndependent(a: seq<Transaction>, b: seq<Transaction>)
    requires multiset(a) == multiset(b)
    ensures Balance(a) == Balance(b)
  {
    BalanceIsIncomeMinusOutcome(a);
    BalanceIsIncomeMinusOutcome(b);
    SumOfKindPermutation(a, b, INCOME);
    SumOfKindPermutation(a, b, OUTCOME);
  }

  class BalanceView {
    /** `currentBalance`. */
    var currentBalance: int

    constructor ()
      ensures currentBalance == 0
    {
      currentBalance := 0;
    }

    method CalculateCurrentBalance(transactions: seq<Transaction>)
      modifies this
      ensures currentBalance == Balance(transactions)
      ensures currentBalance == SumOfKind(transactions, INCOME) - SumOfKind(transactions, OUTCOME)
    {
      BalanceIsIncomeMinusOutcome(transactions);
      currentBalance := Balance(transactions);
    }
  }

  // -------------------------------------------------------------- grouping

  /** What `new Date(transaction_date)` gives for `getMonth() + 1` and
      `getFullYear()` when the date is valid. */
  datatype MonthYear = MonthYear(month: int, year: int)

  /** The label of every Invalid Date: its month and year are NaN, and
      `MONTHS[NaN]` is undefined. */
  const INVALID_DATE_LABEL := "undefined NaN"

  /** The label of a transaction: `${MONTHS[month]} ${year}`. `calendar`
      stands for the date parsing, `None` being an Invalid Date, and
      `monthName` for the MONTHS table. */
  function MonthLabel(calendar: string -> Option<MonthYear>, monthName: int -> string): Transaction -> string
  {
    (t: Transaction) =>
      match calendar(t.transactionDate)
      case None => INVALID_DATE_LABEL
      case Some(my) => monthName(my.month) + " " + IntToString(my.year)
  }

  /** The pieces of a label either side of its blank: the month name and
      the year, both "undefined" and "NaN" for an Invalid Date. */
  function LabelPieces(calendar: string -> Option<MonthYear>, monthName: int -> string, t: Transaction): seq<string>
  {
    match calendar(t.transactionDate)
    case None => ["undefined", "NaN"]
    case Some(my) => [monthName(my.month), IntToString(my.year)]
  }

  /** With blank-free month names, a label splits at its blank into its
      month name and its year. */
  lemma LabelSplits(calendar: string -> Option<MonthYear>, monthName: int -> string, t: Transaction)
    requires forall m :: ' ' !in monthName(m)
    ensures Split(MonthLabel(calendar, monthName)(t), ' ') == LabelPieces(calendar, monthName, t)
  {
    var pieces := LabelPieces(calendar, monthName, t);
    match calendar(t.transactionDate)
    case None =>
      assert INVALID_DATE_LABEL == "undefined" + [' '] + "NaN";
      SplitConcat("undefined", "NaN", ' ');
      SplitNoSeparator("NaN", ' ');
    case Some(my) =>
      IntToStringHasNoBlank(my.year);
      JoinSplit(pieces, ' ');
      assert Join(pieces, ' ') == MonthLabel(calendar, monthName)(t);
  }

  /** Two transactions share a label only if both dates are invalid, or
      both are valid and of the same year, whatever the month names. */
  lemma LabelsSeparateYears(calendar: string -> Option<MonthYear>, monthName: int -> string, s: Transaction, t: Transaction)
    requires MonthLabel(calendar, monthName)(s) == MonthLabel(calendar, monthName)(t)
    requires forall m :: ' ' !in monthName(m)
    ensures calendar(s.transactionDate).None? <==> calendar(t.transactionDate).None?
    ensures calendar(s.transactionDate).Some? && calendar(t.transactionDate).Some? ==>
      calendar(s.transactionDate).value.year == calendar(t.transactionDate).value.year
  {
    LabelSplits(calendar, monthName, s);
    LabelSplits(calendar, monthName, t);
    var ps, pt := LabelPieces(calendar, monthName, s), LabelPieces(calendar, monthName, t);
    assert ps[1] == pt[1];
    if calendar(s.transactionDate).Some? {
      IntToStringIsNotNaN(calendar(s.transactionDate).value.year);
    }
    if calendar(t.transactionDate).Some? {
      IntToStringIsNotNaN(calendar(t.transactionDate).value.year);
    }
    if calendar(s.transactionDate).Some? && calendar(t.transactionDate).Some? {
      IntToStringInjective(calendar(s.transactionDate).value.year, calendar(t.transactionDate).value.year);
    }
  }

  /** A printed year is never "NaN": it starts with a digit or a minus. */
  lemma IntToStringIsNotNaN(n: int)
    ensures IntToString(n) != "NaN"
  {
    var d := NatToString(if n < 0 then -n else n);
    assert IsDigit(d[0]);
    if n < 0 {
      assert IntToString(n)[0] == '-';
    } else {
      assert IntToString(n)[0] == d[0];
    }
  }

  lemma IntToStringHasNoBlank(n: int)
    ensures ' ' !in IntToString(n)
  {
    var d := NatToString(if n < 0 then -n else n);
    assert forall i :: 0 <= i < |d| ==> IsDigit(d[i]);
    if n < 0 {
      assert IntToString(n) == "-" + d;
    }
  }

  lemma IntToStringInjective(m: int, n: int)
    requires IntToString(m) == IntToString(n)
    ensures m == n
  {
    ParseIntOfIntToString(m);
    ParseIntOfIntToString(n);
  }

  /** A JavaScript object used as a dictionary: the entries, and the order in
      which their keys were first inserted (the order the object iterates
      in, since these labels are not array indices). */
  datatype Record = Record(groups: map<string, seq<Transaction>>, order: seq<string>)

  /** One step of the `reduce`: create the label's list if it is missing,
      then push the transaction on it. */
  function Push(acc: Record, tag: string, t: Transaction): Record
  {
    if tag in acc.groups then Record(acc.groups[tag := acc.groups[tag] + [t]], acc.order)
    else Record(acc.groups[tag := [t]], acc.order + [tag])
  }

  /** The object the `reduce` builds from `{}`. */
  function GroupsOf(ts: seq<Transaction>, key: Transaction -> string): Record
  {
    if ts == [] then Record(map[], [])
    else Push(GroupsOf(ts[..|ts| - 1], key), key(ts[|ts| - 1]), ts[|ts| - 1])
  }

  /** The transactions that carry label `k`. */
  function HasKey(key: Transaction -> string, k: string): Transaction -> bool
  {
    (t: Transaction) => key(t) == k
  }

  /** Some transaction of `ts` carries label `k`. */
  predicate Labelled(ts: seq<Transaction>, key: Transaction -> string, k: string)
  {
    exists i :: 0 <= i < |ts| && key(ts[i]) == k
  }

  predicate Distinct(order: seq<string>)
  {
    forall i, j :: 0 <= i < j < |order| ==> order[i] != order[j]
  }

  lemma LabelledSnoc(init: seq<Transaction>, t: Transaction, key: Transaction -> string, k: string)
    ensures Labelled(init + [t], key, k) <==> Labelled(init, key, k) || key(t) == k
  {
    var ts := init + [t];
    if Labelled(ts, key, k) && key(t) != k {
      var i :| 0 <= i < |ts| && key(ts[i]) == k;
      assert ts[i] == init[i];
    }
    if Labelled(init, key, k) {
      var i :| 0 <= i < |init| && key(init[i]) == k;
      assert ts[i] == init[i];
    }
    if key(t) == k {
      assert ts[|init|] == t;
    }
  }

  /** Filtering for a label keeps something exactly when some transaction
      carries that label. */
  lemma FilterNonEmptyIffLabelled(ts: seq<Transaction>, key: Transaction -> string, k: string)
    ensures Filter(ts, HasKey(key, k)) != [] <==> Labelled(ts, key, k)
  {
    var r := Filter(ts, HasKey(key, k));
    if r != [] {
      assert r[0] in r;
      var i :| 0 <= i < |ts| && ts[i] == r[0];
      assert key(ts[i]) == k;
    }
    if Labelled(ts, key, k) {
      var i :| 0 <= i < |ts| && key(ts[i]) == k;
      assert HasKey(key, k)(ts[i]);
      assert ts[i] in r;
    }
  }

  /** The keys of the grouping are exactly the labels of the transactions,
      and the insertion order lists each of them once. */
  lemma {:induction false} GroupsOfKeys(ts: seq<Transaction>, key: Transaction -> string)
    ensures forall k :: k in GroupsOf(ts, key).groups <==> Labelled(ts, key, k)
    ensures forall k :: k in GroupsOf(ts, key).order <==> k in GroupsOf(ts, key).groups
    ensures Distinct(GroupsOf(ts, key).order)
  {
    if ts != [] {
      var init, t := ts[..|ts| - 1], ts[|ts| - 1];
      assert ts == init + [t];
      GroupsOfKeys(init, key);
      forall k
        ensures k in GroupsOf(ts, key).groups <==> Labelled(ts, key, k)
      {
        LabelledSnoc(init, t, key, k);
      }
    }
  }

  /** Each group holds the transactions with its label, in input order. */
  lemma {:induction false} GroupsOfValues(ts: seq<Transaction>, key: Transaction -> string)
    ensures forall k :: k in GroupsOf(ts, key).groups ==> GroupsOf(ts, key).groups[k] == Filter(ts, HasKey(key, k))
  {
    if ts != [] {
      var init, t := ts[..|ts| - 1], ts[|ts| - 1];
      assert ts == init + [t];
      GroupsOfValues(init, key);
      var acc := GroupsOf(init, key);
      var r := GroupsOf(ts, key);
      forall k | k in r.groups
        ensures r.groups[k] == Filter(ts, HasKey(key, k))
      {
        FilterAppend(init, [t], HasKey(key, k));
        assert [t][1..] == [];
        if k == key(t) && k !in acc.groups {
          GroupsOfKeys(init, key);
          FilterNonEmptyIffLabelled(init, key, k);
        }
      }
    }
  }

  /** Every member of a group carries that group's label. */
  lemma MembersCarryLabel(ts: seq<Transaction>, key: Transaction -> string)
    ensures forall k, x :: k in GroupsOf(ts, key).groups && x in GroupsOf(ts, key).groups[k] ==> key(x) == k
  {
    GroupsOfValues(ts, key);
  }

  /** Every transaction lands in the group of its own label and in no other. */
  lemma InExactlyOneGroup(ts: seq<Transaction>, key: Transaction -> string, i: nat)
    requires i < |ts|
    ensures var r := GroupsOf(ts, key);
      && key(ts[i]) in r.groups && ts[i] in r.groups[key(ts[i])]
      && forall k :: k in r.groups && ts[i] in r.groups[k] ==> k == key(ts[i])
  {
    GroupsOfKeys(ts, key);
    GroupsOfValues(ts, key);
    MembersCarryLabel(ts, key);
    assert HasKey(key, key(ts[i]))(ts[i]);
  }

  /** No group is empty, and a group keeps the input order of its members. */
  lemma GroupsAreOrderedAndNonEmpty(ts: seq<Transaction>, key: Transaction -> string, k: string)
    requires k in GroupsOf(ts, key).groups
    ensures GroupsOf(ts, key).groups[k] != []
    ensures IsSubsequence(GroupsOf(ts, key).groups[k], ts)
  {
    GroupsOfKeys(ts, key);
    GroupsOfValues(ts, key);
    FilterNonEmptyIffLabelled(ts, key, k);
    FilterIsSubsequence(ts, HasKey(key, k));
  }

  /** The sum of the sizes of the groups named in `order`. */
  function SumSizes(groups: map<string, seq<Transaction>>, order: seq<string>): nat
  {
    if order == [] then 0
    else (if order[0] in groups then |groups[order[0]]| else 0) + SumSizes(groups, order[1..])
  }

  /** The groups laid out one after the other in `order`, as iterating the
      object and concatenating its lists would give. */
  function Flatten(groups: map<string, seq<Transaction>>, order: seq<string>): seq<Transaction>
  {
    if order == [] then []
    else (if order[0] in groups then groups[order[0]] else []) + Flatten(groups, order[1..])
  }

  lemma {:induction false} SumSizesIsFlattenLength(groups: map<string, seq<Transaction>>, order: seq<string>)
    ensures SumSizes(groups, order) == |Flatten(groups, order)|
  {
    if order != [] {
      SumSizesIsFlattenLength(groups, order[1..]);
    }
  }

  lemma {:induction false} FlattenAppend(groups: map<string, seq<Transaction>>, a: seq<string>, b: seq<string>)
    ensures Flatten(groups, a + b) == Flatten(groups, a) + Flatten(groups, b)
  {
    if a == [] {
      assert a + b == b;
    } else {
      FlattenAppend(groups, a[1..], b);
      assert (a + b)[1..] == a[1..] + b;
    }
  }

  /** Changing a group not listed in `order` does not change the layout. */
  lemma {:induction false} FlattenIgnoresOthers(groups: map<string, seq<Transaction>>, order: seq<string>, k: string, v: seq<Transaction>)
    requires k !in order
    ensures Flatten(groups[k := v], order) == Flatten(groups, order)
  {
    if order != [] {
      FlattenIgnoresOthers(groups, order[1..], k, v);
    }
  }

  /** Pushing one transaction on a listed group adds it, as a multiset, to
      the layout. */
  lemma {:induction false} FlattenBump(groups: map<string, seq<Transaction>>, order: seq<string>, k: string, t: Transaction)
    requires k in groups && k in order && Distinct(order)
    ensures multiset(Flatten(groups[k := groups[k] + [t]], order)) == multiset(Flatten(groups, order)) + multiset{t}
  {
    var rest := order[1..];
    assert Distinct(rest) by {
      forall i, j | 0 <= i < j < |rest| ensures rest[i] != rest[j] {
        assert rest[i] == order[i + 1] && rest[j] == order[j + 1];
      }
    }
    if order[0] == k {
      assert k !in rest by {
        forall j | 0 <= j < |rest| ensures rest[j] != k {
          assert rest[j] == order[j + 1];
        }
      }
      FlattenIgnoresOthers(groups, rest, k, groups[k] + [t]);
    } else {
      FlattenBump(groups, rest, k, t);
    }
  }

  /** The layout of the groups holds every transaction of the input exactly
      as often as the input does. */
  lemma {:induction false} FlattenIsPermutation(ts: seq<Transaction>, key: Transaction -> string)
    ensures var r := GroupsOf(ts, key); multiset(Flatten(r.groups, r.order)) == multiset(ts)
  {
    if ts != [] {
      var init, t := ts[..|ts| - 1], ts[|ts| - 1];
      assert ts == init + [t];
      FlattenIsPermutation(init, key);
      GroupsOfKeys(init, key);
      var acc := GroupsOf(init, key);
      var r := GroupsOf(ts, key);
      if key(t) in acc.groups {
        FlattenBump(acc.groups, acc.order, key(t), t);
      } else {
        FlattenIgnoresOthers(acc.groups, acc.order, key(t), [t]);
        FlattenAppend(r.groups, acc.order, [key(t)]);
        assert Flatten(r.groups, [key(t)]) == [t];
      }
    }
  }

  /** The group sizes add up to the number of transactions. */
  lemma GroupSizesAddUp(ts: seq<Transaction>, key: Transaction -> string)
    ensures var r := GroupsOf(ts, key); SumSizes(r.groups, r.order) == |ts|
  {
    var r := GroupsOf(ts, key);
    FlattenIsPermutation(ts, key);
    SumSizesIsFlattenLength(r.groups, r.order);
    assert |multiset(Flatten(r.groups, r.order))| == |multiset(ts)|;
  }

  /** Filtering a group whose members all carry `tag` for label `k` keeps
      all of it or nothing. */
  lemma FilterOneGroup(g: seq<Transaction>, key: Transaction -> string, tag: string, k: string)
    requires forall x :: x in g ==> key(x) == tag
    ensures Filter(g, HasKey(key, k)) == if tag == k then g else []
  {
    assert forall i :: 0 <= i < |g| ==> g[i] in g;
    if tag == k {
      FilterAll(g, HasKey(key, k));
    } else {
      FilterNone(g, HasKey(key, k));
    }
  }

  /** Filtering the layout for one label gives that label's group back, when
      each group holds only its own label and no label repeats. */
  lemma {:induction false} FilterFlatten(groups: map<string, seq<Transaction>>, order: seq<string>, key: Transaction -> string, k: string)
    requires forall j :: 0 <= j < |order| ==> order[j] in groups
    requires forall j, x :: 0 <= j < |order| && x in groups[order[j]] ==> key(x) == order[j]
    requires Distinct(order)
    ensures Filter(Flatten(groups, order), HasKey(key, k)) == if k in order then groups[k] else []
  {
    if order != [] {
      var g, rest := groups[order[0]], order[1..];
      assert forall j :: 0 <= j < |rest| ==> rest[j] == order[j + 1];
      assert Distinct(rest);
      FilterFlatten(groups, rest, key, k);
      FilterAppend(g, Flatten(groups, rest), HasKey(key, k));
      FilterOneGroup(g, key, order[0], k);
      assert k in order <==> order[0] == k || k in rest;
      assert order[0] == k ==> k !in rest;
    }
  }

  /** One label of the regrouped layout: present exactly when it was a
      label before, and with the same group. */
  lemma RegroupedLabel(ts: seq<Transaction>, key: Transaction -> string, k: string)
    ensures var r := GroupsOf(ts, key);
      var again := GroupsOf(Flatten(r.groups, r.order), key);
      && (k in again.groups <==> k in r.groups)
      && (k in again.groups ==> again.groups[k] == r.groups[k])
  {
    var r := GroupsOf(ts, key);
    var flat := Flatten(r.groups, r.order);
    GroupsOfKeys(ts, key);
    MembersCarryLabel(ts, key);
    assert forall j :: 0 <= j < |r.order| ==> r.order[j] in r.order;
    FilterFlatten(r.groups, r.order, key, k);
    GroupsOfKeys(flat, key);
    GroupsOfValues(flat, key);
    FilterNonEmptyIffLabelled(flat, key, k);
    if k in r.groups {
      GroupsAreOrderedAndNonEmpty(ts, key, k);
    }
  }

  /** Grouping the groups again, laid out in insertion order, gives the same
      groups. */
  lemma GroupingIsIdempotent(ts: seq<Transaction>, key: Transaction -> string)
    ensures var r := GroupsOf(ts, key); GroupsOf(Flatten(r.groups, r.order), key).groups == r.groups
  {
    var r := GroupsOf(ts, key);
    var again := GroupsOf(Flatten(r.groups, r.order), key);
    forall k
      ensures k in again.groups <==> k in r.groups
      ensures k in again.groups ==> again.groups[k] == r.groups[k]
    {
      RegroupedLabel(ts, key, k);
    }
  }

  /** `groupTransactionsByMonth`: the `reduce` as a loop over the
      transactions, creating a label's list on first sight and pushing each
      transaction on its label's list. */
  method GroupTransactionsByMonth(transactions: seq<Transaction>, calendar: string -> Option<MonthYear>, monthName: int -> string)
    returns (acc: Record)
    ensures acc == GroupsOf(transactions, MonthLabel(calendar, monthName))
    ensures forall k :: k in acc.groups ==> acc.groups[k] == Filter(transactions, HasKey(MonthLabel(calendar, monthName), k))
  {
    var key := MonthLabel(calendar, monthName);
    acc := Record(map[], []);
    var i := 0;
    while i < |transactions|
      invariant 0 <= i <= |transactions|
      invariant acc == GroupsOf(transactions[..i], key)
    {
      var transaction := transactions[i];
      var tag := key(transaction);
      ghost var before := acc;
      if tag !in acc.groups {
        acc := Record(acc.groups[tag := []], acc.order + [tag]);
        assert acc.groups[tag] + [transaction] == [transaction];
      }
      acc := acc.(groups := acc.groups[tag := acc.groups[tag] + [transaction]]);
      assert acc == Push(before, tag, transaction);
      assert transactions[..i + 1][..i] == transactions[..i];
      i := i + 1;
    }
    assert transactions[..i] == transactions;
    GroupsOfValues(transactions, key);
  }
}
