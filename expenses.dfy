/** The expense bookkeeping of the expenses screen: validating and appending
    a new expense, deleting by id, clearing the week, loading with defaults,
    and grouping the week's expenses by day name. */
module Expenses {
  import opened Wrappers
  import opened Ledger

  /** Why an add is rejected. */
  datatype AddError =
    | MissingField   // the description, the amount text or the day is empty
    | InvalidAmount  // the amount does not parse as a number, or is not positive

  // ---------------------------------------------------------------------------
  // Add

  /** Validation of the add form. `parsed` is the number the amount text
      parses to, `None` when it parses to NaN. The empty-field check comes
      first; a success carries the positive amount. */
  function ValidateExpense(description: string, amountText: string, day: string, parsed: Option<real>): (r: Result<real, AddError>)
    ensures r == Err(MissingField) <==> description == "" || amountText == "" || day == ""
    ensures r == Err(InvalidAmount) <==>
      description != "" && amountText != "" && day != "" && (parsed.None? || parsed.value <= 0.0)
    ensures r.Ok? <==> description != "" && amountText != "" && day != "" && parsed.Some? && parsed.value > 0.0
    ensures r.Ok? ==> r.value == parsed.value && r.value > 0.0
  {
    if description == "" || amountText == "" || day == "" then Err(MissingField)
    else if parsed.None? || parsed.value <= 0.0 then Err(InvalidAmount)
    else Ok(parsed.value)
  }

  /** The week document written by a successful add: the previously stored
      list (empty when nothing or no list was stored) followed by the new
      expense, under the current week. */
  function AppendExpense(stored: Option<StoredWeek>, week: int, e: Expense): (r: WeekData)
    ensures r.week == week
    ensures |r.expenses| == |StoredExpenses(stored)| + 1
    ensures r.expenses[..|r.expenses| - 1] == StoredExpenses(stored) && r.expenses[|r.expenses| - 1] == e
    ensures stored.None? ==> r.expenses == [e]
  {
    match stored
    case None => WeekData(week, [e])
    case Some(doc) => WeekData(week, doc.expenses.GetOr([]) + [e])
  }

  /** An append raises the total by exactly the new amount, and keeps every
      amount positive when the new one is. */
  lemma AppendExpenseTotal(stored: Option<StoredWeek>, week: int, e: Expense)
    ensures TotalAmount(AppendExpense(stored, week, e).expenses) == TotalAmount(StoredExpenses(stored)) + e.amount
    ensures AllPositive(StoredExpenses(stored)) && e.amount > 0.0 ==> AllPositive(AppendExpense(stored, week, e).expenses)
  {
    assert AppendExpense(stored, week, e).expenses == StoredExpenses(stored) + [e];
    TotalAmountAppend(StoredExpenses(stored), e);
  }

  // ---------------------------------------------------------------------------
  // Delete

  /** The list without the expenses whose id is `id`, the others kept in
      their order (the `filter` of a delete). */
  function RemoveById(s: seq<Expense>, id: string): (r: seq<Expense>)
    ensures |r| <= |s|
    ensures forall i :: 0 <= i < |r| ==> r[i].id != id && r[i] in s
    ensures forall i :: 0 <= i < |s| && s[i].id != id ==> s[i] in r
  {
    if s == [] then []
    else
      var last := s[|s| - 1];
      RemoveById(s[..|s| - 1], id) + (if last.id != id then [last] else [])
  }

  /** Deleting keeps each other expense exactly as often as it occurred and
      drops every occurrence of the id. */
  lemma {:induction false} RemoveByIdCounts(s: seq<Expense>, id: string, e: Expense)
    ensures multiset(RemoveById(s, id))[e] == if e.id == id then 0 else multiset(s)[e]
    decreases |s|
  {
    if s != [] {
      var s' := s[..|s| - 1];
      assert s == s' + [s[|s| - 1]];
      RemoveByIdCounts(s', id, e);
    }
  }

  /** Deleting works piecewise, so the relative order of the kept expenses is
      the original one. */
  lemma {:induction false} RemoveByIdConcat(a: seq<Expense>, b: seq<Expense>, id: string)
    ensures RemoveById(a + b, id) == RemoveById(a, id) + RemoveById(b, id)
    decreases |b|
  {
    if b == [] {
      assert a + b == a;
    } else {
      var b' := b[..|b| - 1];
      assert (a + b)[..|a + b| - 1] == a + b';
      RemoveByIdConcat(a, b', id);
    }
  }

  /** An id that no expense carries leaves the list unchanged. */
  lemma {:induction false} RemoveByIdUnknown(s: seq<Expense>, id: string)
    requires forall i :: 0 <= i < |s| ==> s[i].id != id
    ensures RemoveById(s, id) == s
    decreases |s|
  {
    if s != [] {
      RemoveByIdUnknown(s[..|s| - 1], id);
      assert s[..|s| - 1] + [s[|s| - 1]] == s;
    }
  }

  /** With positive amounts a delete keeps them positive and never raises
      the total. */
  lemma {:induction false} RemoveByIdTotal(s: seq<Expense>, id: string)
    requires AllPositive(s)
    ensures AllPositive(RemoveById(s, id))
    ensures TotalAmount(RemoveById(s, id)) <= TotalAmount(s)
    decreases |s|
  {
    if s != [] {
      var s' := s[..|s| - 1];
      var last := s[|s| - 1];
      RemoveByIdTotal(s', id);
      if last.id != id {
        TotalAmountAppend(RemoveById(s', id), last);
      } else {
        assert RemoveById(s, id) == RemoveById(s', id);
      }
    }
  }

  // ---------------------------------------------------------------------------
  // Load

  /** The week record a load produces: the route's week, and the stored list
      with a missing list or missing document read as empty. */
  function LoadedWeek(stored: Option<StoredWeek>, week: int): (r: WeekData)
    ensures r.week == week
    ensures stored.None? ==> r.expenses == []
    ensures stored.Some? ==> r.expenses == stored.value.expenses.GetOr([])
  {
    WeekData(week, StoredExpenses(stored))
  }

  // ---------------------------------------------------------------------------
  // Grouping by day

  /** The expenses of day `day`, in list order. */
  function OnDay(s: seq<Expense>, day: string): (r: seq<Expense>)
    ensures |r| <= |s|
    ensures forall i :: 0 <= i < |r| ==> r[i].day == day && r[i] in s
    ensures forall i :: 0 <= i < |s| && s[i].day == day ==> s[i] in r
  {
    if s == [] then []
    else
      var last := s[|s| - 1];
      OnDay(s[..|s| - 1], day) + (if last.day == day then [last] else [])
  }

  /** The distinct day names of the list in order of first occurrence: the
      order in which the grouping object gains its keys. The day of every
      expense is listed; `DayOrderKeys` proves that no day repeats. */
  function DayOrder(s: seq<Expense>): (r: seq<string>)
    ensures |r| <= |s|
    ensures forall i :: 0 <= i < |s| ==> s[i].day in r
  {
    if s == [] then []
    else
      var prev := DayOrder(s[..|s| - 1]);
      if s[|s| - 1].day in prev then prev else prev + [s[|s| - 1].day]
  }

  /** No day name repeats. */
  predicate Distinct(ds: seq<string>) {
    forall i, j :: 0 <= i < j < |ds| ==> ds[i] != ds[j]
  }

  /** Grouping keeps order within a group: the group of a concatenation is
      the concatenation of the groups. */
  lemma {:induction false} OnDayConcat(a: seq<Expense>, b: seq<Expense>, day: string)
    ensures OnDay(a + b, day) == OnDay(a, day) + OnDay(b, day)
    decreases |b|
  {
    if b == [] {
      assert a + b == a;
    } else {
      var b' := b[..|b| - 1];
      assert (a + b)[..|a + b| - 1] == a + b';
      OnDayConcat(a, b', day);
    }
  }

  /** The keys are exactly the days that occur, each once, and no group is
      empty. */
  lemma {:induction false} DayOrderKeys(s: seq<Expense>)
    ensures Distinct(DayOrder(s))
    ensures forall i :: 0 <= i < |s| ==> s[i].day in DayOrder(s)
    ensures forall d :: d in DayOrder(s) <==> OnDay(s, d) != []
    decreases |s|
  {
    if s != [] {
      var s' := s[..|s| - 1];
      var last := s[|s| - 1];
      DayOrderKeys(s');
      forall i | 0 <= i < |s|
        ensures s[i].day in DayOrder(s)
      {
        if i < |s| - 1 {
          assert s[i] == s'[i];
        }
      }
      forall d
        ensures d in DayOrder(s) <==> OnDay(s, d) != []
      {
        if d == last.day {
          assert last in OnDay(s, d);
        }
      }
    }
  }

  /** `order` and `grouped` are the keys, in insertion order, and the groups
      of the list `p`. */
  ghost predicate GroupedAs(p: seq<Expense>, order: seq<string>, grouped: map<string, seq<Expense>>) {
    && order == DayOrder(p)
    && grouped.Keys == (set d | d in order)
    && forall d :: d in grouped ==> grouped[d] == OnDay(p, d)
  }

  /** One step of the grouping loop: creating the group of a new day and
      pushing the expense onto its day's group groups one more expense. */
  lemma GroupStep(p: seq<Expense>, e: Expense, order: seq<string>, grouped: map<string, seq<Expense>>)
    requires GroupedAs(p, order, grouped)
    ensures
      var order' := if e.day in grouped then order else order + [e.day];
      var created := if e.day in grouped then grouped else grouped[e.day := []];
      GroupedAs(p + [e], order', created[e.day := created[e.day] + [e]])
  {
    var q := p + [e];
    assert q[..|p|] == p;
    var order' := if e.day in grouped then order else order + [e.day];
    var created := if e.day in grouped then grouped else grouped[e.day := []];
    var grouped' := created[e.day := created[e.day] + [e]];
    if e.day !in grouped {
      OnDayAbsent(p, e.day);
    }
    assert order' == DayOrder(q);
    assert grouped'.Keys == (set d | d in order');
    forall d | d in grouped'
      ensures grouped'[d] == OnDay(q, d)
    {
      assert OnDay(q, d) == OnDay(p, d) + (if e.day == d then [e] else []);
    }
  }

  /** A day that is not a key has an empty group. */
  lemma OnDayAbsent(s: seq<Expense>, d: string)
    requires d !in DayOrder(s)
    ensures OnDay(s, d) == []
  {
    DayOrderKeys(s);
  }

  /** How often `d` occurs in `ds`. */
  function Occurrences(ds: seq<string>, d: string): nat {
    if ds == [] then 0
    else Occurrences(ds[..|ds| - 1], d) + (if ds[|ds| - 1] == d then 1 else 0)
  }

  lemma {:induction false} OccurrencesDistinct(ds: seq<string>, d: string)
    requires Distinct(ds)
    ensures Occurrences(ds, d) == if d in ds then 1 else 0
    decreases |ds|
  {
    if ds != [] {
      var ds' := ds[..|ds| - 1];
      OccurrencesDistinct(ds', d);
      assert ds == ds' + [ds[|ds| - 1]];
    }
  }

  /** The sum of the sizes of the groups of the days `ds`. */
  function GroupSizes(s: seq<Expense>, ds: seq<string>): nat {
    if ds == [] then 0
    else GroupSizes(s, ds[..|ds| - 1]) + |OnDay(s, ds[|ds| - 1])|
  }

  /** One more expense adds one to the group sizes for each time its day is
      listed. */
  lemma {:induction false} GroupSizesAppend(s: seq<Expense>, e: Expense, ds: seq<string>)
    ensures GroupSizes(s + [e], ds) == GroupSizes(s, ds) + Occurrences(ds, e.day)
    decreases |ds|
  {
    if ds != [] {
      GroupSizesAppend(s, e, ds[..|ds| - 1]);
      assert (s + [e])[..|s|] == s;
    }
  }

  /** The groups partition the list: their sizes sum to its length. */
  lemma {:induction false} GroupSizesTotal(s: seq<Expense>)
    ensures GroupSizes(s, DayOrder(s)) == |s|
    decreases |s|
  {
    if s != [] {
      var s' := s[..|s| - 1];
      var last := s[|s| - 1];
      assert s == s' + [last];
      GroupSizesTotal(s');
      DayOrderKeys(s');
      DayOrderKeys(s);
      OccurrencesDistinct(DayOrder(s), last.day);
      GroupSizesAppend(s', last, DayOrder(s));
      if last.day !in DayOrder(s') {
        assert DayOrder(s)[..|DayOrder(s)| - 1] == DayOrder(s');
        assert OnDay(s', last.day) == [];
      }
    }
  }

  // ---------------------------------------------------------------------------
  // The screen

  /** The expenses screen's state for the week given by the route. */
  class ExpensesScreen {
    const week: int
    var weekData: WeekData
    var totalAmount: real

    /** The shown record always belongs to the screen's week. */
    ghost predicate Valid()
      reads this
    {
      weekData.week == week
    }

    /** The shown record and total are those a load from `store` gives. */
    ghost predicate InSync(store: Store)
      reads this, store
    {
      weekData == LoadedWeek(Stored(store.docs, week), week) && totalAmount == TotalAmount(weekData.expenses)
    }

    /** The week is the route's number, 1 when the route has none; the
        screen starts with no expenses and a total of 0. */
    constructor (routeWeek: Option<int>)
      ensures week == routeWeek.GetOr(1)
      ensures weekData == WeekData(week, []) && totalAmount == 0.0 && Valid()
    {
      week := routeWeek.GetOr(1);
      weekData := WeekData(routeWeek.GetOr(1), []);
      totalAmount := 0.0;
    }

    /** Reloads the week from the store and recomputes the total. */
    method LoadData(store: Store)
      modifies this
      ensures Valid() && InSync(store)
    {
      var stored := Stored(store.docs, week);
      weekData := LoadedWeek(stored, week);
      totalAmount := TotalAmount(weekData.expenses);
    }

    /** Stores the given record under the screen's week and reloads. */
    method SaveData(store: Store, updated: WeekData)
      modifies this, store
      ensures store.docs == old(store.docs)[week := StoredWeek(updated.week, Some(updated.expenses))]
      ensures weekData == WeekData(week, updated.expenses)
      ensures Valid() && InSync(store)
    {
      store.docs := store.docs[week := StoredWeek(updated.week, Some(updated.expenses))];
      LoadData(store);
    }

    /** Deletes every expense with id `id` from the shown list and saves the
        result. */
    method DeleteExpense(store: Store, id: string)
      requires Valid()
      modifies this, store
      ensures weekData == WeekData(week, RemoveById(old(weekData.expenses), id))
      ensures store.docs == old(store.docs)[week := StoredWeek(week, Some(weekData.expenses))]
      ensures Valid() && InSync(store)
    {
      var updatedExpenses := RemoveById(weekData.expenses, id);
      var updatedWeekData := weekData.(expenses := updatedExpenses);
      SaveData(store, updatedWeekData);
    }

    /** Validates the form and, on success, appends the new expense to the
        stored list, saves it and reloads. A rejection changes nothing. */
    method AddExpense(store: Store, description: string, amountText: string, day: string, parsed: Option<real>, newId: string)
      returns (r: Result<Expense, AddError>)
      requires Valid()
      modifies this, store
      ensures ValidateExpense(description, amountText, day, parsed).Err? ==>
        r == Err(ValidateExpense(description, amountText, day, parsed).error)
      ensures ValidateExpense(description, amountText, day, parsed).Ok? ==>
        r == Ok(Expense(newId, description, parsed.value, day)) && r.value.amount > 0.0
      ensures r.Err? ==>
        store.docs == old(store.docs) && weekData == old(weekData) && totalAmount == old(totalAmount)
      ensures r.Ok? ==>
        var appended := AppendExpense(Stored(old(store.docs), week), week, r.value);
        && store.docs == old(store.docs)[week := StoredWeek(week, Some(appended.expenses))]
        && weekData == appended
        && totalAmount == TotalAmount(StoredExpenses(Stored(old(store.docs), week))) + r.value.amount
      ensures r.Ok? && old(InSync(store)) ==> totalAmount == old(totalAmount) + r.value.amount
      ensures Valid()
    {
      var valid := ValidateExpense(description, amountText, day, parsed);
      if valid.Err? {
        return Err(valid.error);
      }
      var amount := valid.value;
      var newExpense := Expense(newId, description, amount, day);
      var currentData := Stored(store.docs, week);
      var updatedWeekData := AppendExpense(currentData, week, newExpense);
      store.docs := store.docs[week := StoredWeek(updatedWeekData.week, Some(updatedWeekData.expenses))];
      weekData := updatedWeekData;
      totalAmount := totalAmount + amount;
      LoadData(store);
      AppendExpenseTotal(currentData, week, newExpense);
      r := Ok(newExpense);
    }

    /** Empties the week, in the store and on screen, whatever it held. */
    method ClearWeekData(store: Store)
      modifies this, store
      ensures store.docs == old(store.docs)[week := StoredWeek(week, Some([]))]
      ensures weekData == WeekData(week, []) && totalAmount == 0.0
      ensures Valid() && InSync(store)
    {
      var updatedWeekData := WeekData(week, []);
      store.docs := store.docs[week := StoredWeek(updatedWeekData.week, Some(updatedWeekData.expenses))];
      weekData := updatedWeekData;
      totalAmount := 0.0;
    }

    /** Groups the shown expenses by day: `order` lists the day keys in the
        order the grouping object gains them, and each group holds that day's
        expenses in list order. */
    method GroupExpensesByDay() returns (order: seq<string>, grouped: map<string, seq<Expense>>)
      ensures order == DayOrder(weekData.expenses)
      ensures grouped.Keys == set d | d in order
      ensures forall d :: d in grouped ==> grouped[d] == OnDay(weekData.expenses, d)
    {
      var s := weekData.expenses;
      order, grouped := [], map[];
      var i := 0;
      while i < |s|
        invariant 0 <= i <= |s|
        invariant GroupedAs(s[..i], order, grouped)
      {
        var expense := s[i];
        GroupStep(s[..i], expense, order, grouped);
        if expense.day !in grouped {
          grouped := grouped[expense.day := []];
          order := order + [expense.day];
        }
        grouped := grouped[expense.day := grouped[expense.day] + [expense]];
        assert GroupedAs(s[..i] + [expense], order, grouped);
        assert s[..i + 1] == s[..i] + [expense];
        i := i + 1;
      }
      assert s[..i] == s;
    }
  }

  /** What the grouping promises: every expense sits in its own day's group,
      no group is empty, and the group sizes sum to the list length. */
  lemma GroupingPartitions(s: seq<Expense>)
    ensures forall i :: 0 <= i < |s| ==> s[i].day in DayOrder(s) && s[i] in OnDay(s, s[i].day)
    ensures forall d :: d in DayOrder(s) ==> OnDay(s, d) != []
    ensures GroupSizes(s, DayOrder(s)) == |s|
  {
    DayOrderKeys(s);
    GroupSizesTotal(s);
  }
}
