/** The folds behind the budget figures: sums of amounts over the
    transaction list and over the goals' funded amounts. */
module Ledger {
  import opened Records

  /** The sum of a sequence of amounts (DoubleStream.sum, on reals). */
  function Sum(xs: seq<real>): real
  {
    if xs == [] then 0.0 else xs[0] + Sum(xs[1..])
  }

  lemma {:induction false} SumAppend(xs: seq<real>, ys: seq<real>)
    ensures Sum(xs + ys) == Sum(xs) + Sum(ys)
  {
    if xs == [] {
      assert xs + ys == ys;
    } else {
      assert (xs + ys)[1..] == xs[1..] + ys;
      SumAppend(xs[1..], ys);
    }
  }

  /** Changing one entry changes the sum by exactly the difference. */
  lemma {:induction false} SumUpdate(xs: seq<real>, i: nat, v: real)
    requires i < |xs|
    ensures Sum(xs[i := v]) == Sum(xs) - xs[i] + v
  {
    if i > 0 {
      assert xs[i := v][1..] == xs[1..][i - 1 := v];
      SumUpdate(xs[1..], i - 1, v);
    }
  }

  lemma {:induction false} SumOfZeros(xs: seq<real>)
    requires forall i :: 0 <= i < |xs| ==> xs[i] == 0.0
    ensures Sum(xs) == 0.0
  {
    if xs != [] {
      SumOfZeros(xs[1..]);
    }
  }

  lemma {:induction false} SumNonnegative(xs: seq<real>)
    requires forall i :: 0 <= i < |xs| ==> xs[i] >= 0.0
    ensures Sum(xs) >= 0.0
  {
    if xs != [] {
      SumNonnegative(xs[1..]);
    }
  }

  /** The filter step of the day's spending: the expenses dated `today`,
      each as often as it occurs. Income and expenses of other days are dropped. */
  function ExpensesOn(tx: seq<Transaction>, today: int): (r: seq<Transaction>)
    ensures |r| <= |tx|
    ensures forall t :: t in r <==> t in tx && t.isExpense && t.date == today
  {
    if tx == [] then []
    else (if tx[0].isExpense && tx[0].date == today then [tx[0]] else []) + ExpensesOn(tx[1..], today)
  }

  /** The filter keeps every expense dated `today` as often as it occurs in
      `tx` and nothing else, so equal records are not merged. */
  lemma {:induction false} ExpensesOnCounts(tx: seq<Transaction>, today: int, t: Transaction)
    ensures multiset(ExpensesOn(tx, today))[t] == if t.isExpense && t.date == today then multiset(tx)[t] else 0
  {
    if tx != [] {
      ExpensesOnCounts(tx[1..], today, t);
      assert tx == [tx[0]] + tx[1..];
    }
  }

  /** The map step: each transaction's amount. */
  function Amounts(tx: seq<Transaction>): (r: seq<real>)
    ensures |r| == |tx|
    ensures forall i :: 0 <= i < |tx| ==> r[i] == tx[i].amount
  {
    if tx == [] then [] else [tx[0].amount] + Amounts(tx[1..])
  }

  /** What one transaction adds to the spending of `today`. */
  function Contribution(t: Transaction, today: int): real
  {
    if t.isExpense && t.date == today then t.amount else 0.0
  }

  /** Every transaction's contribution to the spending of `today`, position by position. */
  function Contributions(tx: seq<Transaction>, today: int): (r: seq<real>)
    ensures |r| == |tx|
    ensures forall i :: 0 <= i < |tx| ==> r[i] == Contribution(tx[i], today)
  {
    if tx == [] then [] else [Contribution(tx[0], today)] + Contributions(tx[1..], today)
  }

  /** The day's spending computed as filter, map and sum equals the sum over
      all transactions in which everything but today's expenses counts zero. */
  lemma {:induction false} FilteredSumIsMaskedSum(tx: seq<Transaction>, today: int)
    ensures Sum(Amounts(ExpensesOn(tx, today))) == Sum(Contributions(tx, today))
  {
    if tx != [] {
      FilteredSumIsMaskedSum(tx[1..], today);
      var head := if tx[0].isExpense && tx[0].date == today then [tx[0]] else [];
      var rest := ExpensesOn(tx[1..], today);
      assert ExpensesOn(tx, today) == head + rest;
      assert Amounts(head + rest) == Amounts(head) + Amounts(rest);
      SumAppend(Amounts(head), Amounts(rest));
      assert Contributions(tx, today)[1..] == Contributions(tx[1..], today);
    }
  }

  /** Appending a transaction adds its contribution and nothing else. */
  lemma {:induction false} ContributionsAppend(tx: seq<Transaction>, t: Transaction, today: int)
    ensures Sum(Contributions(tx + [t], today)) == Sum(Contributions(tx, today)) + Contribution(t, today)
  {
    assert Contributions(tx + [t], today) == Contributions(tx, today) + [Contribution(t, today)];
    SumAppend(Contributions(tx, today), [Contribution(t, today)]);
  }

  /** Each goal's funded amount, in list order. */
  function Fundings(es: seq<Event>): (r: seq<real>)
    reads es
    ensures |r| == |es|
    ensures forall i :: 0 <= i < |es| ==> r[i] == es[i].funded
  {
    if es == [] then [] else [es[0].funded] + Fundings(es[1..])
  }

  /** Appending a goal appends its funded amount. */
  lemma FundingsAppend(es: seq<Event>, e: Event)
    ensures Fundings(es + [e]) == Fundings(es) + [e.funded]
  {
  }
}
