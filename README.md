# Timesheet bookkeeping: week totals and per-week expenses

This project models the bookkeeping inside the two screens of a mobile
timesheet app. One is the weekly summary, which shows each person's
attendance and expenses. The other is the expenses screen, which manages one
week's expense list.

- **Attendance** (module `Summary`, `summary.dfy`). A person's schedule
  maps the string key `"<week>-<day>"` to an entry. Each entry has an
  optional status (full or half), an optional overtime flag and an optional
  overtime value. The summary screen turns a possibly missing entry into
  defaulted cell details. It also adds up a week over the seven fixed day
  names: 1 per full day, plus the overtime value when overtime is set and the
  value is non-zero, and 0.5 per half day. The accumulating loop is
  `RenderWeekTotal`, proved against the specification function `WeekTotal`.
- **Expense ledger** (module `Ledger`, `ledger.dfy`). This module holds the
  `Expense`, `WeekData` and stored-document shapes, the expense total (a
  left fold of `amount` from 0), and the key-value store. The store is
  reduced to a map from week number to the stored week document.
- **Expenses screen** (module `Expenses`, `expenses.dfy`). This module models
  add-form validation, append-on-add, delete-by-id as a filter, clear-week,
  load with defaults, and grouping by day name. The screen's state
  (`weekData`, `totalAmount`) is the class `ExpensesScreen`. Its methods
  update that state and the store.
- `wrappers.dfy` holds `Option` and `Result`.

Amounts and overtime values are `real`. The code only adds them, and in
reals the half-day arithmetic is exact. Week numbers in schedule keys are
`nat`, printed in decimal. This assumes weeks below 10^21, where a
JavaScript number would print in exponent form; the app only uses weeks 1 to 4. `DayKeyInjective` proves that the key encoding is
injective: the week part never contains `-`.

Notes on the code's behaviour:
- `calculateDayDetails` defaults a missing overtime value to 0.
- Both tables print `+v` in any cell whose overtime flag is set, whatever its status. The week total counts the overtime value only on a full day.
- A week's expenses are an ordered list. Grouping and deleting keep their order.
- The summary screen keeps the stored document's own `week` field after a load.
  The expenses screen replaces it with the route's week.

## Model

| member | source | states |
|---|---|---|
| `Ledger.TotalAmountAppend` | app/summary.tsx:56 | The total of no expenses is 0. Appending one expense raises the total by exactly its amount. |
| `Ledger.TotalAmountConcat` | app/summary.tsx:56 | The total is additive over concatenation. |
| `Ledger.TotalAmount` | app/expenses.tsx:58 | The left fold of `amount` from 0 that both screens' `reduce` computes. With positive amounts it is never negative, and it is positive for a non-empty list. `TotalAmountAppend` and `TotalAmountConcat` prove how it grows. |
| `Ledger.StoredExpenses` | app/expenses.tsx:55 | The list a stored document stands for, as `data.expenses \|\| []` reads it: a missing document or missing list gives `[]`, otherwise the stored list. |
| `Ledger.Store.constructor` | app/expenses.tsx:48 | The store, reduced to one document per week number: the entry for week n stands for the key `weekData_<n>`. It starts with the given documents. |
| `Summary.NatToString` | app/summary.tsx:77 | A week number prints as a non-empty string of decimal digits, at least two digits from 10 up. |
| `Summary.DayKey` | app/summary.tsx:77 | The key `"<week>-<day>"`: the week's decimal digits, then `-`, then the day name, with the stated length. `DayKeyInjective` proves the encoding injective. |
| `Summary.NatToStringInjective` | app/summary.tsx:77 | Distinct week numbers print differently. |
| `Summary.DayKeyInjective` | app/summary.tsx:77 | Equal `"<week>-<day>"` keys have equal weeks and equal day names. |
| `Summary.CalculateDayDetails` | app/summary.tsx:64-72 | A missing entry gives status none, no overtime, value 0. Each missing field of a present entry gets that same default, and each present field is kept. |
| `Summary.Contribution` | app/summary.tsx:79-87 | One day's step of the week-total loop, read off the raw entry. It equals the value of the entry's defaulted details (none 0, half 0.5, full 1 or 1 + overtime value), and it lies between 0 and 1 unless overtime is set on a full day. `ContributionTable` gives its cases. |
| `Summary.ContributionTable` | app/summary.tsx:79-87 | Per day: absent or unmarked 0, half 0.5, full 1, full with overtime and a value v gives 1 + v. |
| `Summary.OvertimeOnlyOnFullDays` | app/summary.tsx:80-86 | On a half or unmarked entry the overtime fields do not change the contribution. |
| `Summary.ContributionMatchesDetails` | app/summary.tsx:64-87 | A day's contribution to the total equals the value of its defaulted details (none 0, half 0.5, full 1 or 1 + overtime value). |
| `Summary.RenderWeekTotal` | app/summary.tsx:74-91 | The loop over the seven days returns the sum of the per-day contributions of that week's keys. |
| `Summary.DaysTotal` | app/summary.tsx:75-89 | The sum of the per-day contributions over a list of day names, in list order. When none of those days' keys has an overtime flag, each day adds at most 1. |
| `Summary.DaysTotalNoEntries` | app/summary.tsx:79 | Days without an entry add nothing, so a week with no entries totals 0. |
| `Summary.WeekTotal` | app/summary.tsx:74-91 | The sum over the seven day names. A week without entries totals 0, and when none of the week's seven keys has an overtime flag the total is at most 7, whatever other weeks hold. `RenderWeekTotal` computes it, and the frame and bound rows prove its properties. |
| `Summary.DaysTotalFrame` | app/summary.tsx:76-78 | A sum over days depends only on the entries under those days' keys of the given week. |
| `Summary.WeekTotalFrame` | app/summary.tsx:76-78 | Two schedules that agree on the seven keys of a week have the same week total. |
| `Summary.WeekTotalIgnoresOtherKeys` | app/summary.tsx:76-78 | Writing or removing an entry of another week, or under a day name not among the seven, leaves the week total unchanged. |
| `Summary.DaysTotalNoOvertime` | app/summary.tsx:75-89 | When none of the listed days' keys has an overtime flag, a sum over n days equals k/2 for a count of half days k between 0 and 2n. |
| `Summary.WeekTotalBounds` | app/summary.tsx:74-91 | When none of the week's seven keys has an overtime flag, the week total is a multiple of 0.5 between 0 and 7, whatever other weeks hold. |
| `Summary.WeekTotalExample` | app/summary.tsx:74-91 | Monday full, Tuesday half and Wednesday full with overtime 2 give a week total of 4.5. |
| `Summary.SummaryScreen.constructor` | app/summary.tsx:43-44 | Before loading, the state is the current week with no expenses and a total of 0. |
| `Summary.SummaryScreen.LoadExpenseData` | app/summary.tsx:50-62 | With nothing stored the state is unchanged. Otherwise the stored document becomes the week record and the total becomes the sum of its amounts. A document without an expense list leaves the total as it was, because the sum throws and is caught. |
| `Expenses.ValidateExpense` | app/expenses.tsx:92-101 | An empty description, amount text or day is rejected first. A NaN or non-positive amount is rejected next. Otherwise the result is accepted and carries the parsed amount, which is > 0. |
| `Expenses.AppendExpense` | app/expenses.tsx:114-125 | The new document has the current week and the stored list (empty if nothing was stored) followed by exactly the new expense. With nothing stored it is the new expense alone. |
| `Expenses.AppendExpenseTotal` | app/expenses.tsx:114-133 | An append raises the total by exactly the new amount and keeps all amounts positive. |
| `Expenses.RemoveById` | app/expenses.tsx:85 | The result is no longer than the input. It contains no expense with the id, and it contains exactly the input's expenses with another id. |
| `Expenses.RemoveByIdCounts` | app/expenses.tsx:85 | Every expense with another id keeps its number of occurrences. Every expense with the id is dropped. |
| `Expenses.RemoveByIdConcat` | app/expenses.tsx:85 | The filter works piecewise over concatenation, so the kept expenses keep their relative order. |
| `Expenses.RemoveByIdUnknown` | app/expenses.tsx:85 | An id that no expense carries leaves the list unchanged. |
| `Expenses.RemoveByIdTotal` | app/expenses.tsx:84-88 | With positive amounts, a delete keeps them positive and never raises the total. |
| `Expenses.LoadedWeek` | app/expenses.tsx:51-66 | A load takes the week from the route. It reads a missing document or a missing expense list as the empty list, and otherwise takes the stored list. |
| `Expenses.OnDay` | app/expenses.tsx:153-159 | A day's group holds only expenses of that day from the list, and it holds every one of them. |
| `Expenses.DayOrder` | app/expenses.tsx:154-155 | The day keys in the order the grouping object gains them, which is first occurrence. It lists the day of every expense and is no longer than the list. `DayOrderKeys` proves the keys distinct and exactly the days that occur. |
| `Expenses.OnDayConcat` | app/expenses.tsx:153-159 | The group of a concatenation is the concatenation of the groups, so order within a group is the list order. |
| `Expenses.DayOrderKeys` | app/expenses.tsx:153-159 | The group keys are distinct and are exactly the days that occur. A day is a key if and only if its group is non-empty. |
| `Expenses.GroupSizesTotal` | app/expenses.tsx:153-159 | The group sizes sum to the length of the list. |
| `Expenses.GroupStep` | app/expenses.tsx:155-156 | One loop step: creating the missing group of the expense's day, then pushing the expense onto it, gives the keys and groups of the list with one more expense. |
| `Expenses.GroupingPartitions` | app/expenses.tsx:153-159 | Every expense lands in its own day's group, no group is empty, and the group sizes sum to the list length. |
| `Expenses.ExpensesScreen.constructor` | app/expenses.tsx:33-36 | The week is the route's number, or 1 without one. The screen starts with no expenses and a total of 0. |
| `Expenses.ExpensesScreen.LoadData` | app/expenses.tsx:46-72 | After a load the record is the loaded week and the total is the sum of its amounts. |
| `Expenses.ExpensesScreen.SaveData` | app/expenses.tsx:74-82 | The store gets the record under the screen's week. The screen then shows the reloaded record. |
| `Expenses.ExpensesScreen.DeleteExpense` | app/expenses.tsx:84-88 | The shown list loses exactly the expenses with the id, and the store holds the same list. The total is re-summed. |
| `Expenses.ExpensesScreen.AddExpense` | app/expenses.tsx:90-145 | A rejection returns the validation error and changes neither the store nor the screen. A success stores and shows the stored list plus the new expense, whose amount is > 0. The total becomes the previous total plus the new amount when the screen was in sync with the store. |
| `Expenses.ExpensesScreen.ClearWeekData` | app/expenses.tsx:161-190 | Whatever the week held, the store and the screen hold the week with no expenses, and the total is 0. |
| `Expenses.ExpensesScreen.GroupExpensesByDay` | app/expenses.tsx:153-159 | The loop builds the day keys in first-occurrence order, and for each key the group `OnDay` of that day. |

## Left out

- Rendering, styles, modals, alert dialogs and navigation are not modelled. `ClearWeekData` models the confirmed press of the clear dialog.
- The key-value store is a map from week number to the stored document, standing for the storage key `weekData_<n>`. Asynchronous sequencing, storage failures and their catch branches are not modelled. Neither are JSON parse errors, apart from the summary's failing sum over a missing expense list.
- Number parsing is an input: the parsed amount is an `Option<real>`, with `None` for NaN. The route week of the expenses screen is an `Option<int>`; a non-numeric route value (NaN) is not modelled. The summary's week is a `nat`, so negative or NaN weeks are not modelled.
- The new expense's id (a timestamp in the app) is a parameter. Its uniqueness is not assumed: delete removes every expense with the id.
- Amounts and overtime values are exact reals. Floating-point rounding, a NaN overtime value, and an infinite amount (which `parseFloat` can return and the `isNaN(amount) || amount <= 0` check lets through) are not modelled.
- The stored document's `week` field is assumed present.
- PDF and image export, sharing, currency and `toFixed` formatting, and the decoding of the people list from the route are not modelled. They are foreign library calls, file I/O and formatting. `src/types/react-native-html-to-pdf.d.ts` declares only the PDF library's types.
- The attendance toggle, clearing a week's schedule, and adding and removing people are in `app/(tabs)/index.tsx`. That file is not part of this model. Neither modelled file has a status or overtime picker, or a total across weeks.
- Schedule entries are modelled as objects with optional `status`, `overtime` and `overtimeValue` fields, as `app/summary.tsx` reads them. `app/(tabs)/index.tsx` stores plain strings (`'none'`, `'half'`, `'full'`) as schedule values. On such a string entry `renderWeekTotal` adds 0 and `calculateDayDetails` gives status `'none'`. `ScheduleEntry` cannot represent a string entry.
- Expenses.ExpensesScreen.GroupExpensesByDay and Expenses.DayOrder assume the day names are the seven `DAYS` names, the only ones the add form offers. For a day named after an `Object.prototype` property (such as `constructor`), the source's `push` would throw. For an array-index-like name (such as `"0"`), `Object.entries` would list that key first, not in first-occurrence order.
- Summary.NatToString assumes weeks below 10^21; JavaScript prints larger numbers in exponent form.
