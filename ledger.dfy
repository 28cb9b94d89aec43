/** The per-week expense records shared by the summary and the expenses
    screens, the expense total both of them compute, and the key-value store
    that holds one week document per week number. */
module Ledger {
  import opened Wrappers

  /** One expense of a week: an opaque id, a description, an amount and the
      name of the day it belongs to. */
  datatype Expense = Expense(id: string, description: string, amount: real, day: string)

  /** The in-memory week record: a week number and its ordered expense list. */
  datatype WeekData = WeekData(week: int, expenses: seq<Expense>)

  /** A week document as read back from storage: the `expenses` field may be
      missing from the stored JSON. */
  datatype StoredWeek = StoredWeek(week: int, expenses: Option<seq<Expense>>)

  /** The key-value store, reduced to its week documents: `weekData_<n>` is
      the entry for week `n`. */
  class Store {
    var docs: map<int, StoredWeek>

    constructor (initial: map<int, StoredWeek>)
      ensures docs == initial
    {
      docs := initial;
    }
  }

  /** The stored document of `week`, if any. */
  function Stored(docs: map<int, StoredWeek>, week: int): Option<StoredWeek> {
    if week in docs then Some(docs[week]) else None
  }

  /** The expense list a stored document stands for: no document and a
      document without `expenses` both give the empty list. */
  function StoredExpenses(stored: Option<StoredWeek>): (r: seq<Expense>)
    ensures stored.None? ==> r == []
    ensures stored.Some? && stored.value.expenses.None? ==> r == []
    ensures stored.Some? && stored.value.expenses.Some? ==> r == stored.value.expenses.value
  {
    match stored
    case None => []
    case Some(doc) => doc.expenses.GetOr([])
  }

  /** The sum of the amounts, folded from the left starting at 0 as
      `reduce((sum, e) => sum + e.amount, 0)` does. With positive amounts it
      is never negative, and positive for a non-empty list. */
  function TotalAmount(s: seq<Expense>): (r: real)
    ensures AllPositive(s) ==> r >= 0.0
    ensures AllPositive(s) && s != [] ==> r > 0.0
  {
    if s == [] then 0.0 else TotalAmount(s[..|s| - 1]) + s[|s| - 1].amount
  }

  /** Every amount is strictly positive (what validation guarantees of
      every expense the expenses screen adds). */
  predicate AllPositive(s: seq<Expense>) {
    forall i :: 0 <= i < |s| ==> s[i].amount > 0.0
  }

  /** The total of the empty list is 0 and appending one expense raises the
      total by exactly its amount. */
  lemma TotalAmountAppend(s: seq<Expense>, e: Expense)
    ensures TotalAmount([]) == 0.0
    ensures TotalAmount(s + [e]) == TotalAmount(s) + e.amount
  {
    assert (s + [e])[..|s|] == s;
  }

  /** The total is additive over concatenation, so it does not depend on
      how the list is split. */
  lemma {:induction false} TotalAmountConcat(a: seq<Expense>, b: seq<Expense>)
    ensures TotalAmount(a + b) == TotalAmount(a) + TotalAmount(b)
    decreases |b|
  {
    if b == [] {
      assert a + b == a;
    } else {
      var b' := b[..|b| - 1];
      var x := b[|b| - 1];
      assert b == b' + [x];
      assert a + b == (a + b') + [x];
      TotalAmountAppend(a + b', x);
      TotalAmountAppend(b', x);
      TotalAmountConcat(a, b');
    }
  }
}
