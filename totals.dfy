/** The three totals folds of the tracker. All are the same left fold
    `reduce((sum, x) => sum + x.amount, 0)`; the month total appears in the
    tracker header (ExpenseTracker.tsx:125), the summary report
    (App.tsx:52) and the closing handler (App.tsx:275), the grand total in
    the history list (TripHistory.tsx:16). */
module Totals {
  import opened Types

  /** Sum of the amounts, added left to right from 0. */
  function SumAmounts(es: seq<Expense>): int
  {
    if es == [] then 0 else SumAmounts(es[..|es| - 1]) + es[|es| - 1].amount
  }

  /** Sum of the stored `total` of each record, added left to right from 0;
      the records' expense lists are never looked at. */
  function GrandTotal(rs: seq<BudgetRecord>): int
  {
    if rs == [] then 0 else GrandTotal(rs[..|rs| - 1]) + rs[|rs| - 1].total
  }

  /** The month total splits over a concatenation: the total of a longer
      list is the total of its parts. */
  lemma {:induction false} SumAmountsConcat(a: seq<Expense>, b: seq<Expense>)
    ensures SumAmounts(a + b) == SumAmounts(a) + SumAmounts(b)
    decreases |b|
  {
    if b == [] {
      assert a + b == a;
    } else {
      var b' := b[..|b| - 1];
      assert (a + b)[..|a + b| - 1] == a + b';
      SumAmountsConcat(a, b');
    }
  }

  /** A running total: adding one expense adds exactly its amount, and a
      list of one expense totals to that amount. */
  lemma SumAmountsAppend(es: seq<Expense>, e: Expense)
    ensures SumAmounts(es + [e]) == SumAmounts(es) + e.amount
    ensures SumAmounts([e]) == e.amount
  {
    assert (es + [e])[..|es + [e]| - 1] == es;
    assert [e][..0] == [];
  }

  /** An entry in front of a list adds its amount as well. */
  lemma {:induction false} SumAmountsPrepend(e: Expense, es: seq<Expense>)
    ensures SumAmounts([e] + es) == e.amount + SumAmounts(es)
  {
    SumAmountsAppend([], e);
    SumAmountsConcat([e], es);
  }

  /** The grand total splits over a concatenation. */
  lemma {:induction false} GrandTotalConcat(a: seq<BudgetRecord>, b: seq<BudgetRecord>)
    ensures GrandTotal(a + b) == GrandTotal(a) + GrandTotal(b)
    decreases |b|
  {
    if b == [] {
      assert a + b == a;
    } else {
      var b' := b[..|b| - 1];
      assert (a + b)[..|a + b| - 1] == a + b';
      GrandTotalConcat(a, b');
    }
  }

  /** Closing a period adds exactly the new record's stored total. */
  lemma GrandTotalAppend(rs: seq<BudgetRecord>, r: BudgetRecord)
    ensures GrandTotal(rs + [r]) == GrandTotal(rs) + r.total
  {
    assert (rs + [r])[..|rs + [r]| - 1] == rs;
  }

  /** The grand total is a sum of the stored totals, not a recomputation:
      two histories whose records carry the same totals, position by
      position, have the same grand total whatever their expense lists hold. */
  lemma {:induction false} GrandTotalUsesStoredTotals(a: seq<BudgetRecord>, b: seq<BudgetRecord>)
    requires |a| == |b|
    requires forall i :: 0 <= i < |a| ==> a[i].total == b[i].total
    ensures GrandTotal(a) == GrandTotal(b)
    decreases |a|
  {
    if a != [] {
      GrandTotalUsesStoredTotals(a[..|a| - 1], b[..|b| - 1]);
    }
  }
}
