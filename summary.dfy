/** The attendance bookkeeping of the summary screen: the per-day cell
    details, the weekly total of worked days (with overtime), and the loading
    of the week's expense document with its total. */
module Summary {
  import opened Wrappers
  import opened Ledger

  /** The attendance mark a schedule entry may carry. */
  datatype Status = Full | Half

  /** A schedule entry: every field may be missing from the stored object. */
  datatype ScheduleEntry = ScheduleEntry(status: Option<Status>, overtime: Option<bool>, overtimeValue: Option<real>)

  /** A schedule maps the composite key `"<week>-<day>"` to an entry. */
  type Schedule = map<string, ScheduleEntry>

  datatype Person = Person(id: int, name: string, schedule: Schedule)

  /** The fixed seven day names, Monday first. */
  const Days: seq<string> := ["Pazartesi", "Salı", "Çarşamba", "Perşembe", "Cuma", "Cumartesi", "Pazar"]

  /** The status shown in a cell: the entry's status, or `'none'`. */
  datatype DayStatus = NoneDay | HalfDay | FullDay

  /** A fully defaulted cell record. */
  datatype DayDetails = DayDetails(status: DayStatus, overtime: bool, overtimeValue: real)

  // ---------------------------------------------------------------------------
  // Schedule keys

  /** The decimal digit for `n`. */
  function Digit(n: nat): (c: char)
    requires n < 10
    ensures '0' <= c <= '9'
  {
    (48 + n) as char
  }

  /** The decimal rendering of a week number, as a template literal prints it. */
  function NatToString(n: nat): (r: string)
    ensures |r| > 0
    ensures forall i :: 0 <= i < |r| ==> '0' <= r[i] <= '9'
    ensures n >= 10 ==> |r| >= 2
    decreases n
  {
    if n < 10 then [Digit(n)] else NatToString(n / 10) + [Digit(n % 10)]
  }

  /** Distinct week numbers print differently. */
  lemma {:induction false} NatToStringInjective(a: nat, b: nat)
    requires NatToString(a) == NatToString(b)
    ensures a == b
    decreases a
  {
    var s := NatToString(a);
    if a < 10 && b < 10 {
      assert s[0] == Digit(a) && s[0] == Digit(b);
    } else if a >= 10 && b >= 10 {
      assert s[|s| - 1] == Digit(a % 10) && s[|s| - 1] == Digit(b % 10);
      assert s[..|s| - 1] == NatToString(a / 10);
      assert s[..|s| - 1] == NatToString(b / 10);
      NatToStringInjective(a / 10, b / 10);
    }
  }

  /** The schedule key of a day of a week: `"<week>-<day>"`, that is, the
      week's digits, then a '-', then the day name. */
  function DayKey(week: nat, day: string): (r: string)
    ensures |r| == |NatToString(week)| + 1 + |day|
    ensures r[..|NatToString(week)|] == NatToString(week)
    ensures r[|NatToString(week)|] == '-' && r[|NatToString(week)| + 1..] == day
  {
    NatToString(week) + "-" + day
  }

  /** The key encoding is injective: the week part contains no '-', so the
      first '-' of a key ends the week part. */
  lemma DayKeyInjective(w1: nat, d1: string, w2: nat, d2: string)
    requires DayKey(w1, d1) == DayKey(w2, d2)
    ensures w1 == w2 && d1 == d2
  {
    var x, y := NatToString(w1), NatToString(w2);
    var k := DayKey(w1, d1);
    assert k[|x|] == '-' && k[|y|] == '-';
    assert x == k[..|x|] == y;
    NatToStringInjective(w1, w2);
    assert d1 == k[|x| + 1..] == d2;
  }

  /** The entry stored under `key`, if any. */
  function Entry(s: Schedule, key: string): Option<ScheduleEntry> {
    if key in s then Some(s[key]) else None
  }

  // ---------------------------------------------------------------------------
  // Per-day cell details and contributions

  /** The defaulted details of a possibly missing entry. */
  function DetailsOf(e: Option<ScheduleEntry>): DayDetails {
    match e
    case None => DayDetails(NoneDay, false, 0.0)
    case Some(x) =>
      DayDetails(
        match x.status { case None => NoneDay case Some(Half) => HalfDay case Some(Full) => FullDay },
        x.overtime.GetOr(false),
        x.overtimeValue.GetOr(0.0))
  }

  /** The cell details of `day` in week `week`: every missing part is
      defaulted to status none, no overtime and overtime value 0. */
  function CalculateDayDetails(p: Person, week: nat, day: string): (d: DayDetails)
    ensures DayKey(week, day) !in p.schedule ==> d == DayDetails(NoneDay, false, 0.0)
    ensures DayKey(week, day) in p.schedule ==>
      var x := p.schedule[DayKey(week, day)];
      && (d.status == NoneDay <==> x.status.None?)
      && (d.status == HalfDay <==> x.status == Some(Half))
      && (d.status == FullDay <==> x.status == Some(Full))
      && d.overtime == (x.overtime == Some(true))
      && d.overtimeValue == (if x.overtimeValue.Some? then x.overtimeValue.value else 0.0)
  {
    DetailsOf(Entry(p.schedule, DayKey(week, day)))
  }

  /** What one day adds to the week total, read off the raw entry: 1 for a
      full day plus a non-zero overtime value when overtime is set, 0.5 for a
      half day, and nothing otherwise. It is the value of the entry's
      defaulted details, and it lies between 0 and 1 unless overtime is set
      on a full day. */
  function Contribution(e: Option<ScheduleEntry>): (r: real)
    ensures r == DayValue(DetailsOf(e))
    ensures 0.0 <= r <= 1.0 || (e.Some? && e.value.status == Some(Full) && e.value.overtime == Some(true))
  {
    match e
    case None => 0.0
    case Some(x) =>
      if x.status == Some(Full) then
        1.0 + (if x.overtime == Some(true) && x.overtimeValue.Some? && x.overtimeValue.value != 0.0
               then x.overtimeValue.value else 0.0)
      else if x.status == Some(Half) then 0.5
      else 0.0
  }

  /** The value of a cell's details: none 0, half 0.5, full 1, plus the
      overtime value when overtime is set on a full day. */
  function DayValue(d: DayDetails): real {
    match d.status
    case NoneDay => 0.0
    case HalfDay => 0.5
    case FullDay => if d.overtime then 1.0 + d.overtimeValue else 1.0
  }

  /** The table of per-day contributions: absent or unmarked 0, half 0.5
      whatever its overtime fields say, full 1, full with overtime 1 plus the
      overtime value. */
  lemma ContributionTable(x: ScheduleEntry)
    ensures Contribution(None) == 0.0
    ensures x.status.None? ==> Contribution(Some(x)) == 0.0
    ensures x.status == Some(Half) ==> Contribution(Some(x)) == 0.5
    ensures x.status == Some(Full) && x.overtime != Some(true) ==> Contribution(Some(x)) == 1.0
    ensures x.status == Some(Full) && x.overtimeValue.None? ==> Contribution(Some(x)) == 1.0
    ensures x.status == Some(Full) && x.overtime == Some(true) && x.overtimeValue.Some? ==>
      Contribution(Some(x)) == 1.0 + x.overtimeValue.value
  {
  }

  /** The overtime fields count only on a full day: on a half or unmarked
      entry they may be anything without changing the contribution. */
  lemma OvertimeOnlyOnFullDays(st: Option<Status>, o1: Option<bool>, v1: Option<real>, o2: Option<bool>, v2: Option<real>)
    requires st != Some(Full)
    ensures Contribution(Some(ScheduleEntry(st, o1, v1))) == Contribution(Some(ScheduleEntry(st, o2, v2)))
  {
  }

  /** The total computation and the cell details agree: the contribution of
      an entry is the value of its defaulted details. */
  lemma ContributionMatchesDetails(p: Person, week: nat, day: string)
    ensures Contribution(Entry(p.schedule, DayKey(week, day))) == DayValue(CalculateDayDetails(p, week, day))
  {
  }

  // ---------------------------------------------------------------------------
  // Week total

  /** The sum of the contributions of `days` in week `week`, in list order.
      Without overtime on those days each day adds at most 1. */
  function DaysTotal(s: Schedule, week: nat, days: seq<string>): (r: real)
    ensures NoOvertimeOn(s, week, days) ==> 0.0 <= r <= |days| as real
  {
    if days == [] then 0.0
    else
      NoOvertimeOnPrefix(s, week, days);
      DaysTotal(s, week, days[..|days| - 1]) + Contribution(Entry(s, DayKey(week, days[|days| - 1])))
  }

  /** Days without an entry add nothing. */
  lemma {:induction false} DaysTotalNoEntries(s: Schedule, week: nat, days: seq<string>)
    ensures (forall i :: 0 <= i < |days| ==> DayKey(week, days[i]) !in s) ==> DaysTotal(s, week, days) == 0.0
    decreases |days|
  {
    if days != [] {
      DaysTotalNoEntries(s, week, days[..|days| - 1]);
    }
  }

  /** The week total of a person: the sum over the seven days. A week
      without entries totals 0; without overtime in that week the total is
      at most 7. */
  function WeekTotal(p: Person, week: nat): (r: real)
    ensures (forall d :: d in Days ==> DayKey(week, d) !in p.schedule) ==> r == 0.0
    ensures NoOvertimeOn(p.schedule, week, Days) ==> 0.0 <= r <= 7.0
  {
    DaysTotalNoEntries(p.schedule, week, Days);
    DaysTotal(p.schedule, week, Days)
  }

  /** The accumulating loop of the summary screen computes the week total. */
  method RenderWeekTotal(p: Person, week: nat) returns (weekTotal: real)
    ensures weekTotal == WeekTotal(p, week)
  {
    weekTotal := 0.0;
    var i := 0;
    while i < |Days|
      invariant 0 <= i <= |Days|
      invariant weekTotal == DaysTotal(p.schedule, week, Days[..i])
    {
      var day := Days[i];
      var dayKey := DayKey(week, day);
      if dayKey in p.schedule {
        var dayData := p.schedule[dayKey];
        if dayData.status == Some(Full) {
          weekTotal := weekTotal + 1.0;
          if dayData.overtime == Some(true) && dayData.overtimeValue.Some? && dayData.overtimeValue.value != 0.0 {
            weekTotal := weekTotal + dayData.overtimeValue.value;
          }
        } else if dayData.status == Some(Half) {
          weekTotal := weekTotal + 0.5;
        }
      }
      assert Days[..i + 1][..i] == Days[..i];
      i := i + 1;
    }
    assert Days[..i] == Days;
  }

  /** The sum over `days` depends only on the entries under those days' keys
      of week `week`. */
  lemma {:induction false} DaysTotalFrame(s1: Schedule, s2: Schedule, week: nat, days: seq<string>)
    requires forall i :: 0 <= i < |days| ==> Entry(s1, DayKey(week, days[i])) == Entry(s2, DayKey(week, days[i]))
    ensures DaysTotal(s1, week, days) == DaysTotal(s2, week, days)
    decreases |days|
  {
    if days != [] {
      DaysTotalFrame(s1, s2, week, days[..|days| - 1]);
    }
  }

  /** The week total reads only the seven keys of that week. */
  lemma WeekTotalFrame(p1: Person, p2: Person, week: nat)
    requires forall d :: d in Days ==> Entry(p1.schedule, DayKey(week, d)) == Entry(p2.schedule, DayKey(week, d))
    ensures WeekTotal(p1, week) == WeekTotal(p2, week)
  {
    DaysTotalFrame(p1.schedule, p2.schedule, week, Days);
  }

  /** Writing or removing the entry of another week, or of a day name that
      is not one of the seven, leaves the week total unchanged. */
  lemma WeekTotalIgnoresOtherKeys(p: Person, week: nat, otherWeek: nat, day: string, e: ScheduleEntry)
    requires otherWeek != week || day !in Days
    ensures WeekTotal(p.(schedule := p.schedule[DayKey(otherWeek, day) := e]), week) == WeekTotal(p, week)
    ensures WeekTotal(p.(schedule := p.schedule - {DayKey(otherWeek, day)}), week) == WeekTotal(p, week)
  {
    var k := DayKey(otherWeek, day);
    forall d | d in Days
      ensures k != DayKey(week, d)
    {
      if k == DayKey(week, d) {
        DayKeyInjective(otherWeek, day, week, d);
        assert false;
      }
    }
    WeekTotalFrame(p.(schedule := p.schedule[k := e]), p, week);
    WeekTotalFrame(p.(schedule := p.schedule - {k}), p, week);
  }

  /** No entry under the keys of `days` in week `week` has its overtime
      flag set; entries of other weeks and days may have it. */
  predicate NoOvertimeOn(s: Schedule, week: nat, days: seq<string>) {
    forall i :: 0 <= i < |days| ==> Entry(s, DayKey(week, days[i])).Some? ==> Entry(s, DayKey(week, days[i])).value.overtime != Some(true)
  }

  /** The condition carries over to every prefix of the day list. */
  lemma NoOvertimeOnPrefix(s: Schedule, week: nat, days: seq<string>)
    requires days != []
    ensures NoOvertimeOn(s, week, days) ==> NoOvertimeOn(s, week, days[..|days| - 1])
  {
    var prefix := days[..|days| - 1];
    if NoOvertimeOn(s, week, days) {
      forall i | 0 <= i < |prefix|
        ensures Entry(s, DayKey(week, prefix[i])).Some? ==> Entry(s, DayKey(week, prefix[i])).value.overtime != Some(true)
      {
        assert prefix[i] == days[i];
      }
    }
  }

  /** The number of half days worked over `days`: 2 per full day, 1 per half day. */
  function HalfUnits(s: Schedule, week: nat, days: seq<string>): int {
    if days == [] then 0
    else
      var e := Entry(s, DayKey(week, days[|days| - 1]));
      HalfUnits(s, week, days[..|days| - 1]) +
        (if e.Some? && e.value.status == Some(Full) then 2 else if e.Some? && e.value.status == Some(Half) then 1 else 0)
  }

  /** Without overtime the sum over `days` counts half days: it is a whole
      number of halves between 0 and the number of days. */
  lemma {:induction false} DaysTotalNoOvertime(s: Schedule, week: nat, days: seq<string>)
    requires NoOvertimeOn(s, week, days)
    ensures 0 <= HalfUnits(s, week, days) <= 2 * |days|
    ensures DaysTotal(s, week, days) == HalfUnits(s, week, days) as real / 2.0
    decreases |days|
  {
    if days != [] {
      NoOvertimeOnPrefix(s, week, days);
      DaysTotalNoOvertime(s, week, days[..|days| - 1]);
    }
  }

  /** Without overtime in the week a week total is a multiple of 0.5
      between 0 and 7, whatever other weeks hold. */
  lemma WeekTotalBounds(p: Person, week: nat)
    requires NoOvertimeOn(p.schedule, week, Days)
    ensures 0.0 <= WeekTotal(p, week) <= 7.0
    ensures WeekTotal(p, week) == HalfUnits(p.schedule, week, Days) as real / 2.0
  {
    DaysTotalNoOvertime(p.schedule, week, Days);
  }

  /** A key of week 1 is the day name behind "1-". */
  lemma WeekOneKey(day: string)
    ensures DayKey(1, day) == "1-" + day
  {
    assert NatToString(1) == "1";
  }

  /** The schedule of the worked week below: Monday full, Tuesday half,
      Wednesday full with overtime 2. */
  function ExampleSchedule(): Schedule {
    map[
      DayKey(1, "Pazartesi") := ScheduleEntry(Some(Full), None, None),
      DayKey(1, "Salı") := ScheduleEntry(Some(Half), None, None),
      DayKey(1, "Çarşamba") := ScheduleEntry(Some(Full), Some(true), Some(2.0))]
  }

  /** The other four days of week 1 have no entry in the worked week. */
  lemma ExampleFreeDays()
    ensures DayKey(1, "Perşembe") !in ExampleSchedule() && DayKey(1, "Cuma") !in ExampleSchedule()
    ensures DayKey(1, "Cumartesi") !in ExampleSchedule() && DayKey(1, "Pazar") !in ExampleSchedule()
  {
    WeekOneKey("Pazartesi");
    WeekOneKey("Salı");
    WeekOneKey("Çarşamba");
    WeekOneKey("Perşembe");
    WeekOneKey("Cuma");
    WeekOneKey("Cumartesi");
    WeekOneKey("Pazar");
    assert "1-" + "Pazartesi" == "1-Pazartesi" && "1-" + "Salı" == "1-Salı";
    assert "1-" + "Çarşamba" == "1-Çarşamba";
    assert ExampleSchedule().Keys == {"1-Pazartesi", "1-Salı", "1-Çarşamba"};
    assert "1-Perşembe"[2] != "1-Çarşamba"[2];
    assert "1-Cuma"[2] != "1-Salı"[2];
    assert "1-Cumartesi"[2] != "1-Pazartesi"[2];
  }

  /** Monday to Wednesday of the worked week add up to 1 + 0.5 + (1 + 2). */
  lemma ExampleMarkedDays()
    ensures DaysTotal(ExampleSchedule(), 1, Days[..3]) == 4.5
  {
    var s := ExampleSchedule();
    var d := Days;
    assert d[..1][..0] == [] && d[..2][..1] == d[..1] && d[..3][..2] == d[..2];
    assert DaysTotal(s, 1, d[..1]) == 1.0;
    assert DaysTotal(s, 1, d[..2]) == 1.5;
  }

  /** A worked week: Monday full, Tuesday half, Wednesday full with overtime
      2, nothing else, gives 1 + 0.5 + (1 + 2) = 4.5. */
  lemma WeekTotalExample(id: int, name: string)
    ensures WeekTotal(Person(id, name, map[
      DayKey(1, "Pazartesi") := ScheduleEntry(Some(Full), None, None),
      DayKey(1, "Salı") := ScheduleEntry(Some(Half), None, None),
      DayKey(1, "Çarşamba") := ScheduleEntry(Some(Full), Some(true), Some(2.0))]), 1) == 4.5
  {
    var s := ExampleSchedule();
    ExampleMarkedDays();
    ExampleFreeDays();
    var d := Days;
    assert d[..4][..3] == d[..3] && d[..5][..4] == d[..4] && d[..6][..5] == d[..5];
    assert d[..6] == d[..|d| - 1];
    assert DaysTotal(s, 1, d[..4]) == 4.5;
    assert DaysTotal(s, 1, d[..5]) == 4.5;
    assert DaysTotal(s, 1, d[..6]) == 4.5;
  }

  // ---------------------------------------------------------------------------
  // The screen's expense state

  /** The summary screen's expense state for the week it shows. */
  class SummaryScreen {
    const currentWeek: nat
    var weekData: StoredWeek
    var totalExpenseAmount: real

    /** Before loading, the week has no expenses and the total is 0. */
    constructor (week: nat)
      ensures currentWeek == week
      ensures weekData == StoredWeek(week, Some([])) && totalExpenseAmount == 0.0
    {
      currentWeek := week;
      weekData := StoredWeek(week, Some([]));
      totalExpenseAmount := 0.0;
    }

    /** Loads the week's document: with nothing stored the state is left as
        it was; otherwise the document replaces the week record as stored,
        and the total becomes the sum of its amounts, unless the document has
        no expense list, in which case summing fails and the total keeps its
        previous value. */
    method LoadExpenseData(store: Store)
      modifies this
      ensures Stored(store.docs, currentWeek).None? ==>
        weekData == old(weekData) && totalExpenseAmount == old(totalExpenseAmount)
      ensures Stored(store.docs, currentWeek).Some? ==> weekData == store.docs[currentWeek]
      ensures Stored(store.docs, currentWeek).Some? && weekData.expenses.Some? ==>
        totalExpenseAmount == TotalAmount(weekData.expenses.value)
      ensures Stored(store.docs, currentWeek).Some? && weekData.expenses.None? ==>
        totalExpenseAmount == old(totalExpenseAmount)
    {
      if currentWeek in store.docs {
        var data := store.docs[currentWeek];
        weekData := data;
        if data.expenses.Some? {
          totalExpenseAmount := TotalAmount(data.expenses.value);
        }
      }
    }
  }
}
