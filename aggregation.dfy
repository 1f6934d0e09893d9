/** calculateTotal and calculateBalance (script.js:153-164): filter, then reduce. */
module Aggregation {
  import opened LedgerTypes

  /** `ts.filter(t => t.type === k)`, in the original order. */
  function OfType(ts: seq<Tx>, k: TxType): (r: seq<Tx>)
    ensures |r| <= |ts|
    ensures forall t :: t in r <==> t in ts && t.kind == k
  {
    if ts == [] then []
    else (if ts[0].kind == k then [ts[0]] else []) + OfType(ts[1..], k)
  }

  /** `ts.reduce((sum, t) => sum + t.amount, 0)`: a left fold from 0. */
  function SumAmounts(ts: seq<Tx>): int
  {
    if ts == [] then 0 else SumAmounts(ts[..|ts| - 1]) + ts[|ts| - 1].amount
  }

  /** calculateTotal(transactions, type). */
  function Total(ts: seq<Tx>, k: TxType): int
  {
    SumAmounts(OfType(ts, k))
  }

  /** calculateBalance(transactions): income minus expense, never clamped. */
  function Balance(ts: seq<Tx>): int
  {
    Total(ts, Income) - Total(ts, Expense)
  }

  /** Reference definition of a total: one pass, adding each matching amount. */
  function MatchingSum(ts: seq<Tx>, k: TxType): int
  {
    if ts == [] then 0 else (if ts[0].kind == k then ts[0].amount else 0) + MatchingSum(ts[1..], k)
  }

  /** Reference definition of a balance: income counts up, expense counts down. */
  function SignedSum(ts: seq<Tx>): int
  {
    if ts == [] then 0 else (if ts[0].kind == Income then ts[0].amount else -ts[0].amount) + SignedSum(ts[1..])
  }

  lemma {:induction false} OfTypeAppend(a: seq<Tx>, b: seq<Tx>, k: TxType)
    ensures OfType(a + b, k) == OfType(a, k) + OfType(b, k)
  {
    if a == [] {
      assert a + b == b;
    } else {
      assert (a + b)[0] == a[0];
      assert (a + b)[1..] == a[1..] + b;
      OfTypeAppend(a[1..], b, k);
    }
  }

  lemma {:induction false} SumAppend(a: seq<Tx>, b: seq<Tx>)
    ensures SumAmounts(a + b) == SumAmounts(a) + SumAmounts(b)
  {
    if b == [] {
      assert a + b == a;
    } else {
      var c := a + b;
      assert c[..|c| - 1] == a + b[..|b| - 1];
      assert c[|c| - 1] == b[|b| - 1];
      SumAppend(a, b[..|b| - 1]);
    }
  }

  /** The total of a concatenation is the sum of the totals. */
  lemma TotalAppend(a: seq<Tx>, b: seq<Tx>, k: TxType)
    ensures Total(a + b, k) == Total(a, k) + Total(b, k)
  {
    OfTypeAppend(a, b, k);
    SumAppend(OfType(a, k), OfType(b, k));
  }

  /** The filter-then-reduce total agrees with the one-pass reference sum. */
  lemma {:induction false} TotalIsMatchingSum(ts: seq<Tx>, k: TxType)
    ensures Total(ts, k) == MatchingSum(ts, k)
  {
    if ts != [] {
      assert ts == [ts[0]] + ts[1..];
      TotalAppend([ts[0]], ts[1..], k);
      assert SumAmounts([ts[0]]) == ts[0].amount;
      TotalIsMatchingSum(ts[1..], k);
    }
  }

  /** Zero when nothing matches, in particular for an empty list. */
  lemma TotalNoMatch(ts: seq<Tx>, k: TxType)
    requires forall t :: t in ts ==> t.kind != k
    ensures Total(ts, k) == 0
  {
    var r := OfType(ts, k);
    assert forall i :: 0 <= i < |r| ==> r[i] in ts && r[i].kind == k;
  }

  /** With non-negative amounts (what the form is meant to supply) totals are non-negative. */
  lemma {:induction false} TotalNonNegative(ts: seq<Tx>, k: TxType)
    requires forall t :: t in ts ==> t.amount >= 0
    ensures Total(ts, k) >= 0
  {
    TotalIsMatchingSum(ts, k);
    MatchingSumNonNegative(ts, k);
  }

  lemma {:induction false} MatchingSumNonNegative(ts: seq<Tx>, k: TxType)
    requires forall t :: t in ts ==> t.amount >= 0
    ensures MatchingSum(ts, k) >= 0
  {
    if ts != [] {
      assert ts[0] in ts;
      assert forall t :: t in ts[1..] ==> t in ts;
      MatchingSumNonNegative(ts[1..], k);
    }
  }

  /** Every record is either income or expense, so the two totals add up to the sum of all amounts. */
  lemma {:induction false} TotalsPartition(ts: seq<Tx>)
    ensures Total(ts, Income) + Total(ts, Expense) == SumAmounts(ts)
  {
    if ts != [] {
      var init := ts[..|ts| - 1];
      var last := ts[|ts| - 1];
      assert ts == init + [last];
      TotalAppend(init, [last], Income);
      TotalAppend(init, [last], Expense);
      assert SumAmounts([last]) == last.amount;
      SumAppend(init, [last]);
      TotalsPartition(init);
    }
  }

  /** The balance is the signed sum of the amounts: it is income minus expense and may be negative. */
  lemma {:induction false} BalanceIsSignedSum(ts: seq<Tx>)
    ensures Balance(ts) == SignedSum(ts)
  {
    if ts != [] {
      assert ts == [ts[0]] + ts[1..];
      TotalAppend([ts[0]], ts[1..], Income);
      TotalAppend([ts[0]], ts[1..], Expense);
      assert SumAmounts([ts[0]]) == ts[0].amount;
      BalanceIsSignedSum(ts[1..]);
    }
  }

  /** The balance of a concatenation is the sum of the balances. */
  lemma BalanceAppend(a: seq<Tx>, b: seq<Tx>)
    ensures Balance(a + b) == Balance(a) + Balance(b)
  {
    TotalAppend(a, b, Income);
    TotalAppend(a, b, Expense);
  }

  /** A day with only an expense has a negative balance: nothing clamps it at zero. */
  lemma BalanceNotClamped(t: Tx)
    requires t.kind == Expense && t.amount > 0
    ensures Balance([t]) == -t.amount < 0
  {
    BalanceIsSignedSum([t]);
  }
}
