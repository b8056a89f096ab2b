/**
 * The transaction history page: a fixed list of transactions, a
 * case-insensitive search over description, category and merchant combined
 * with a type filter, and the credit and debit totals with the net balance.
 */
module TransactionHistory {
  import opened Wrappers
  import opened JsString

  datatype TxType = Credit | Debit

  datatype Status = Completed | Pending | Failed

  function TypeName(t: TxType): string {
    match t
    case Credit => "credit"
    case Debit => "debit"
  }

  function StatusName(s: Status): string {
    match s
    case Completed => "completed"
    case Pending => "pending"
    case Failed => "failed"
  }

  datatype Transaction = Transaction(
    id: string, txType: TxType, amount: int, description: string, category: string,
    date: string, status: Status, merchant: Option<string>)

  /** The page's sample data. */
  const Sample: seq<Transaction> := [
    Transaction("1", Debit, 1250, "Grocery Shopping", "Food & Dining", "2024-01-15", Completed, Some("Fresh Mart")),
    Transaction("2", Credit, 5000, "Salary Deposit", "Income", "2024-01-14", Completed, None),
    Transaction("3", Debit, 850, "Uber Ride", "Transportation", "2024-01-14", Completed, Some("Uber")),
    Transaction("4", Debit, 2500, "Online Shopping", "Shopping", "2024-01-13", Completed, Some("Amazon")),
    Transaction("5", Debit, 450, "Netflix Subscription", "Entertainment", "2024-01-12", Completed, Some("Netflix")),
    Transaction("6", Debit, 3200, "Restaurant Dinner", "Food & Dining", "2024-01-11", Completed, Some("The Gourmet Kitchen")),
    Transaction("7", Debit, 1200, "Electricity Bill", "Bills & Utilities", "2024-01-10", Completed, None),
    Transaction("8", Credit, 2000, "Freelance Payment", "Income", "2024-01-09", Completed, None)
  ]

  /** `text.toLowerCase().includes(query.toLowerCase())`. */
  predicate FieldMatches(text: string, query: string) {
    Contains(ToLower(text), ToLower(query))
  }

  /** The search test: description, category, or the merchant when there is one. */
  predicate MatchesSearch(t: Transaction, query: string) {
    || FieldMatches(t.description, query)
    || FieldMatches(t.category, query)
    || (t.merchant.Some? && FieldMatches(t.merchant.value, query))
  }

  /** The type test: `"all"` or the transaction's own type. */
  predicate MatchesFilter(t: Transaction, filterType: string) {
    filterType == "all" || TypeName(t.txType) == filterType
  }

  predicate Keep(t: Transaction, query: string, filterType: string) {
    MatchesSearch(t, query) && MatchesFilter(t, filterType)
  }

  /** `a` is `b` with some elements deleted and the rest in their order. */
  ghost predicate Sublist<T>(a: seq<T>, b: seq<T>)
    decreases |b|
  {
    if a == [] then true
    else if b == [] then false
    else if a[0] == b[0] then Sublist(a[1..], b[1..])
    else Sublist(a, b[1..])
  }

  /** `filteredTransactions`: the kept transactions, in their order. */
  function Filtered(ts: seq<Transaction>, query: string, filterType: string): (r: seq<Transaction>)
    ensures |r| <= |ts|
    ensures forall t :: t in r <==> t in ts && Keep(t, query, filterType)
    decreases |ts|
  {
    if ts == [] then []
    else if Keep(ts[0], query, filterType) then [ts[0]] + Filtered(ts[1..], query, filterType)
    else Filtered(ts[1..], query, filterType)
  }

  /** The filtered list is an order-preserving sub-list of the transactions. */
  lemma {:induction false} FilteredIsSublist(ts: seq<Transaction>, query: string, filterType: string)
    ensures Sublist(Filtered(ts, query, filterType), ts)
    decreases |ts|
  {
    if ts != [] {
      FilteredIsSublist(ts[1..], query, filterType);
      var r := Filtered(ts, query, filterType);
      if !Keep(ts[0], query, filterType) {
        SublistSkip(r, ts[0], ts[1..]);
      } else {
        assert r[1..] == Filtered(ts[1..], query, filterType);
      }
    }
  }

  /**
   * A kept transaction is kept as often as it occurs, a dropped one not at
   * all; with `FilteredIsSublist` this fixes the filtered list.
   */
  lemma {:induction false} FilteredCounts(ts: seq<Transaction>, query: string, filterType: string)
    ensures forall t :: multiset(Filtered(ts, query, filterType))[t] ==
              if Keep(t, query, filterType) then multiset(ts)[t] else 0
    decreases |ts|
  {
    if ts != [] {
      FilteredCounts(ts[1..], query, filterType);
      assert ts == [ts[0]] + ts[1..];
      assert multiset(ts) == multiset([ts[0]]) + multiset(ts[1..]);
    }
  }

  /** Deleting one more element in front keeps a sub-list a sub-list. */
  lemma {:induction false} SublistSkip<T>(a: seq<T>, x: T, b: seq<T>)
    requires Sublist(a, b)
    ensures Sublist(a, [x] + b)
    decreases |b|, 1
  {
    assert ([x] + b)[1..] == b;
    if a != [] && a[0] == x {
      SublistDropHead(a, b);
    }
  }

  /** Dropping the first element of a sub-list keeps it a sub-list. */
  lemma {:induction false} SublistDropHead<T>(a: seq<T>, b: seq<T>)
    requires a != [] && Sublist(a, b)
    ensures Sublist(a[1..], b)
    decreases |b|, 0
  {
    assert b == [b[0]] + b[1..];
    if a[0] != b[0] {
      SublistDropHead(a, b[1..]);
    }
    SublistSkip(a[1..], b[0], b[1..]);
  }

  /** Every string matches the empty query. */
  lemma EmptyQueryMatches(t: Transaction)
    ensures MatchesSearch(t, "")
  {
    assert ToLower("") == "";
    ContainsEmpty(ToLower(t.description));
  }

  /** An empty query with the `"all"` filter keeps every transaction. */
  lemma {:induction false} EmptyQueryKeepsAll(ts: seq<Transaction>)
    ensures Filtered(ts, "", "all") == ts
    decreases |ts|
  {
    if ts != [] {
      EmptyQueryMatches(ts[0]);
      EmptyQueryKeepsAll(ts[1..]);
    }
  }

  /** Filtering on a type keeps only transactions of that type. */
  lemma TypeFilterKeepsType(ts: seq<Transaction>, query: string, ty: TxType)
    ensures forall t :: t in Filtered(ts, query, TypeName(ty)) ==> t.txType == ty
  {
  }

  /** Filtering on a type name that is neither `"all"` nor a type keeps nothing. */
  lemma {:induction false} UnknownFilterKeepsNothing(ts: seq<Transaction>, query: string, filterType: string)
    requires filterType !in {"all", "credit", "debit"}
    ensures Filtered(ts, query, filterType) == []
    decreases |ts|
  {
    if ts != [] {
      assert !MatchesFilter(ts[0], filterType);
      UnknownFilterKeepsNothing(ts[1..], query, filterType);
    }
  }

  /** The sum of the amounts of the transactions of one type (`filter` then `reduce`). */
  function TotalOf(ts: seq<Transaction>, ty: TxType): int
    decreases |ts|
  {
    if ts == [] then 0
    else (if ts[0].txType == ty then ts[0].amount else 0) + TotalOf(ts[1..], ty)
  }

  /** The sum of all amounts. */
  function Total(ts: seq<Transaction>): int
    decreases |ts|
  {
    if ts == [] then 0 else ts[0].amount + Total(ts[1..])
  }

  function TotalCredit(ts: seq<Transaction>): int {
    TotalOf(ts, Credit)
  }

  function TotalDebit(ts: seq<Transaction>): int {
    TotalOf(ts, Debit)
  }

  /** The net balance the page shows: total credits minus total debits. */
  function NetBalance(ts: seq<Transaction>): int {
    TotalCredit(ts) - TotalDebit(ts)
  }

  /** A one-pass reference: each credit adds its amount and each debit subtracts it. */
  function SignedSum(ts: seq<Transaction>): int
    decreases |ts|
  {
    if ts == [] then 0
    else (if ts[0].txType == Credit then ts[0].amount else -ts[0].amount) + SignedSum(ts[1..])
  }

  /** The net balance is the signed sum of the amounts. */
  lemma {:induction false} NetIsSignedSum(ts: seq<Transaction>)
    ensures NetBalance(ts) == SignedSum(ts)
    decreases |ts|
  {
    if ts != [] {
      NetIsSignedSum(ts[1..]);
    }
  }

  /** The net balance of a concatenation is the sum of the net balances. */
  lemma NetAppend(a: seq<Transaction>, b: seq<Transaction>)
    ensures NetBalance(a + b) == NetBalance(a) + NetBalance(b)
  {
    TotalOfAppend(a, b, Credit);
    TotalOfAppend(a, b, Debit);
  }

  /** Credits and debits together are all the money that moved. */
  lemma {:induction false} CreditPlusDebit(ts: seq<Transaction>)
    ensures TotalCredit(ts) + TotalDebit(ts) == Total(ts)
    decreases |ts|
  {
    if ts != [] {
      CreditPlusDebit(ts[1..]);
    }
  }

  /** Totals over a concatenation add up. */
  lemma {:induction false} TotalOfAppend(a: seq<Transaction>, b: seq<Transaction>, ty: TxType)
    ensures TotalOf(a + b, ty) == TotalOf(a, ty) + TotalOf(b, ty)
    decreases |a|
  {
    if a == [] {
      assert a + b == b;
    } else {
      assert (a + b)[1..] == a[1..] + b;
      TotalOfAppend(a[1..], b, ty);
    }
  }

  /** The totals of the sample data: 7000 in, 9450 out, a net balance of -2450. */
  lemma SampleTotals()
    ensures TotalCredit(Sample) == 7000
    ensures TotalDebit(Sample) == 9450
    ensures NetBalance(Sample) == -2450
  {
    assert Sample == Sample[..4] + Sample[4..];
    TotalOfAppend(Sample[..4], Sample[4..], Credit);
    TotalOfAppend(Sample[..4], Sample[4..], Debit);
  }

  /** The class of the net balance figure. */
  function NetClass(net: int): (c: string)
    ensures c == "text-success" <==> net >= 0
    ensures c == "text-destructive" <==> net < 0
  {
    if net >= 0 then "text-success" else "text-destructive"
  }

  /** `getStatusColor`: one class per status, the muted class for any other string. */
  function StatusColor(status: string): (c: string)
    ensures status == "completed" <==> c == "bg-success text-success-foreground"
    ensures status == "pending" <==> c == "bg-warning text-warning-foreground"
    ensures status == "failed" <==> c == "bg-destructive text-destructive-foreground"
    ensures status !in {"completed", "pending", "failed"} <==> c == "bg-muted text-muted-foreground"
  {
    if status == "completed" then "bg-success text-success-foreground"
    else if status == "pending" then "bg-warning text-warning-foreground"
    else if status == "failed" then "bg-destructive text-destructive-foreground"
    else "bg-muted text-muted-foreground"
  }

  /** The three statuses get three different classes, none of them the fallback. */
  lemma StatusColorsDistinct(s1: Status, s2: Status)
    ensures StatusColor(StatusName(s1)) != "bg-muted text-muted-foreground"
    ensures s1 != s2 ==> StatusColor(StatusName(s1)) != StatusColor(StatusName(s2))
  {
  }
}
