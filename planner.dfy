/** The planner store of js/planner.js (PlannerUI): yearly goals, monthly plans, weekly
    plans and daily todo lists, all created lazily with fixed defaults, together with the
    year/month navigation state. */
module Planner {
  import opened Common
  import opened Strings
  import opened Seqs
  import opened Assoc

  /** A todo of a month, week or day list.  The planner writes only text and completed;
      completedAt and the label may come with stored data and are read by the calendar. */
  datatype Todo = Todo(text: string, completed: bool, completedAt: Option<string>, itemLabel: Option<string>)

  datatype Goal = Goal(text: string, notes: string, completed: bool)

  datatype MonthPlan = MonthPlan(quote: string, todos: seq<Todo>, categories: Assoc<seq<Todo>>)

  /** A week plan: the month view's week sections carry todos and two notes fields, the
      week view's plans only a message. */
  datatype WeekPlan = WeekPlan(
    message: string, todos: Option<seq<Todo>>, ongoingNotes: Option<string>, deadlineNotes: Option<string>)

  datatype PlannerData = PlannerData(
    yearGoals: Assoc<Assoc<seq<Goal>>>, monthPlans: Assoc<MonthPlan>,
    weekPlans: Assoc<WeekPlan>, dailyTasks: Assoc<seq<Todo>>)

  datatype EditingGoal = EditingGoal(category: string, index: int)

  const EmptyData: PlannerData := PlannerData([], [], [], [])
  const DefaultMonthPlan: MonthPlan := MonthPlan("", [], [("work", []), ("study", []), ("lifestyle", [])])
  const DefaultSectionPlan: WeekPlan := WeekPlan("", Some([]), Some(""), Some(""))
  const DefaultWeekViewPlan: WeekPlan := WeekPlan("", None, None, None)

  // ----- keys -----

  /** getMonthKey: `${year}-${String(month).padStart(2, '0')}`. */
  function MonthKey(year: int, month: nat): string {
    IntToString(year) + "-" + Pad2(month)
  }

  /** formatDateKey for a date with the given year, month number (1-12) and day. */
  function FormatDateKey(year: int, month: nat, day: nat): string {
    IntToString(year) + "-" + Pad2(month) + "-" + Pad2(day)
  }

  /** getWeekSectionKey for the week starting on the given date. */
  function WeekSectionKey(year: int, month: nat, day: nat): string {
    "week-" + FormatDateKey(year, month, day)
  }

  /** getWeekKey for a year and its ISO week number (the number itself comes from the
      date arithmetic of getWeekNumber). */
  function WeekViewKey(year: int, weekNumber: nat): string {
    IntToString(year) + "-W" + Pad2(weekNumber)
  }

  /** Reads a "YYYY-MM" key back into its year and month. */
  function ParseMonthKey(s: string): Option<(nat, nat)> {
    if |s| == 7 && AllDigits(s[..4]) && s[4] == '-' && AllDigits(s[5..])
    then Some((DigitsValue(s[..4]), DigitsValue(s[5..])))
    else None
  }

  /** Reads a "YYYY-MM-DD" key back into its year, month and day. */
  function ParseDateKey(s: string): Option<(nat, nat, nat)> {
    if |s| == 10 && AllDigits(s[..4]) && s[4] == '-' && AllDigits(s[5..7]) && s[7] == '-' && AllDigits(s[8..])
    then Some((DigitsValue(s[..4]), DigitsValue(s[5..7]), DigitsValue(s[8..])))
    else None
  }

  /** For four-digit years the month key is "YYYY-MM" and reads back to its parts. */
  lemma MonthKeyRoundTrip(year: nat, month: nat)
    requires 1000 <= year <= 9999 && 1 <= month <= 12
    ensures |MonthKey(year, month)| == 7
    ensures ParseMonthKey(MonthKey(year, month)) == Some((year, month))
  {
    FourDigits(year);
    NatToStringRoundTrip(year);
    var k := MonthKey(year, month);
    assert k[..4] == NatToString(year);
    assert k[5..] == Pad2(month);
  }

  /** For four-digit years the date key is "YYYY-MM-DD" and reads back to its parts. */
  lemma DateKeyRoundTrip(year: nat, month: nat, day: nat)
    requires 1000 <= year <= 9999 && 1 <= month <= 12 && 1 <= day <= 31
    ensures |FormatDateKey(year, month, day)| == 10
    ensures ParseDateKey(FormatDateKey(year, month, day)) == Some((year, month, day))
  {
    FourDigits(year);
    NatToStringRoundTrip(year);
    var k := FormatDateKey(year, month, day);
    assert k[..4] == NatToString(year);
    assert k[5..7] == Pad2(month);
    assert k[8..] == Pad2(day);
  }

  /** The date key is the month key followed by "-DD", so a month's date keys share the
      month key as prefix. */
  lemma DateKeyExtendsMonthKey(year: int, month: nat, day: nat)
    ensures FormatDateKey(year, month, day) == MonthKey(year, month) + "-" + Pad2(day)
  {
  }

  // ----- todo lists -----

  function NewTodo(text: string): Todo {
    Todo(text, false, None, None)
  }

  /** A todo list after an add: blank input (empty or only whitespace) is ignored, any
      other input is appended trimmed and incomplete. */
  function WithTodo(todos: seq<Todo>, input: string): (r: seq<Todo>)
    ensures IsBlank(input) ==> r == todos
    ensures !IsBlank(input) ==>
      (|r| == |todos| + 1 && r[..|todos|] == todos && r[|todos|].text == Trim(input) && !r[|todos|].completed)
  {
    if IsBlank(input) then todos else todos + [NewTodo(Trim(input))]
  }

  /** The list after flipping the completion of the todo at i; only that todo changes. */
  function FlipTodo(todos: seq<Todo>, i: int): (r: seq<Todo>)
    requires 0 <= i < |todos|
    ensures |r| == |todos| && r[i].completed == !todos[i].completed
    ensures r[i].(completed := todos[i].completed) == todos[i]
    ensures forall j :: 0 <= j < |todos| && j != i ==> r[j] == todos[j]
  {
    todos[i := todos[i].(completed := !todos[i].completed)]
  }

  lemma FlipTodoTwice(todos: seq<Todo>, i: int)
    requires 0 <= i < |todos|
    ensures FlipTodo(FlipTodo(todos, i), i) == todos
  {
  }

  function FlipGoal(goals: seq<Goal>, i: int): (r: seq<Goal>)
    requires 0 <= i < |goals|
    ensures |r| == |goals| && r[i].completed == !goals[i].completed
    ensures r[i].(completed := goals[i].completed) == goals[i]
    ensures forall j :: 0 <= j < |goals| && j != i ==> r[j] == goals[j]
  {
    goals[i := goals[i].(completed := !goals[i].completed)]
  }

  lemma FlipGoalTwice(goals: seq<Goal>, i: int)
    requires 0 <= i < |goals|
    ensures FlipGoal(FlipGoal(goals, i), i) == goals
  {
  }

  /** The goal list after saving the goal form: index -1 appends a new incomplete goal,
      any other index keeps that goal's completion and replaces its text and notes. */
  function SavedGoals(goals: seq<Goal>, index: int, text: string, notes: string): (r: seq<Goal>)
    requires index == -1 || 0 <= index < |goals|
    ensures index == -1 ==> r == goals + [Goal(text, notes, false)]
    ensures index != -1 ==> |r| == |goals| && r[index] == Goal(text, notes, goals[index].completed)
    ensures index != -1 ==> forall j :: 0 <= j < |goals| && j != index ==> r[j] == goals[j]
  {
    if index == -1 then goals + [Goal(text, notes, false)]
    else goals[index := goals[index].(text := text, notes := notes)]
  }

  // ----- lazily created entries -----

  function YearMap(d: PlannerData, yearKey: string): Assoc<seq<Goal>> {
    Lookup(d.yearGoals, yearKey).GetOr([])
  }

  /** What getYearGoals returns: the stored goals, or the empty default. */
  function GoalsAt(d: PlannerData, yearKey: string, category: string): seq<Goal> {
    Lookup(YearMap(d, yearKey), category).GetOr([])
  }

  function SetGoals(d: PlannerData, yearKey: string, category: string, goals: seq<Goal>): (r: PlannerData)
    ensures GoalsAt(r, yearKey, category) == goals
    ensures forall y, c :: y != yearKey || c != category ==> GoalsAt(r, y, c) == GoalsAt(d, y, c)
    ensures r.monthPlans == d.monthPlans && r.weekPlans == d.weekPlans && r.dailyTasks == d.dailyTasks
  {
    var year := Put(YearMap(d, yearKey), category, goals);
    var nd := d.(yearGoals := Put(d.yearGoals, yearKey, year));
    LookupPut(d.yearGoals, yearKey, year, yearKey);
    LookupPut(YearMap(d, yearKey), category, goals, category);
    forall y, c | y != yearKey || c != category
      ensures GoalsAt(nd, y, c) == GoalsAt(d, y, c)
    {
      LookupPut(d.yearGoals, yearKey, year, y);
      if y == yearKey {
        LookupPut(YearMap(d, yearKey), category, goals, c);
      }
    }
    nd
  }

  /** What getMonthPlan returns for a key. */
  function MonthPlanAt(d: PlannerData, key: string): MonthPlan {
    Lookup(d.monthPlans, key).GetOr(DefaultMonthPlan)
  }

  function SetMonthPlan(d: PlannerData, key: string, plan: MonthPlan): (r: PlannerData)
    ensures MonthPlanAt(r, key) == plan
    ensures forall k :: k != key ==> MonthPlanAt(r, k) == MonthPlanAt(d, k)
    ensures r.yearGoals == d.yearGoals && r.weekPlans == d.weekPlans && r.dailyTasks == d.dailyTasks
  {
    LookupPut(d.monthPlans, key, plan, key);
    forall k | k != key ensures Lookup(Put(d.monthPlans, key, plan), k) == Lookup(d.monthPlans, k) {
      LookupPut(d.monthPlans, key, plan, k);
    }
    d.(monthPlans := Put(d.monthPlans, key, plan))
  }

  /** What getWeekSectionPlan (with the section default) or getWeekPlan (with the week view
      default) returns for a key. */
  function WeekPlanAt(d: PlannerData, key: string, default: WeekPlan): WeekPlan {
    Lookup(d.weekPlans, key).GetOr(default)
  }

  function SetWeekPlan(d: PlannerData, key: string, plan: WeekPlan): (r: PlannerData)
    ensures WeekPlanAt(r, key, DefaultSectionPlan) == plan
    ensures forall k :: k != key ==> Lookup(r.weekPlans, k) == Lookup(d.weekPlans, k)
    ensures r.yearGoals == d.yearGoals && r.monthPlans == d.monthPlans && r.dailyTasks == d.dailyTasks
  {
    LookupPut(d.weekPlans, key, plan, key);
    forall k | k != key ensures Lookup(Put(d.weekPlans, key, plan), k) == Lookup(d.weekPlans, k) {
      LookupPut(d.weekPlans, key, plan, k);
    }
    d.(weekPlans := Put(d.weekPlans, key, plan))
  }

  /** What getDailyTasks returns for a date key. */
  function DailyAt(d: PlannerData, date: string): seq<Todo> {
    Lookup(d.dailyTasks, date).GetOr([])
  }

  function SetDaily(d: PlannerData, date: string, todos: seq<Todo>): (r: PlannerData)
    ensures DailyAt(r, date) == todos
    ensures forall k :: k != date ==> Lookup(r.dailyTasks, k) == Lookup(d.dailyTasks, k)
    ensures r.yearGoals == d.yearGoals && r.monthPlans == d.monthPlans && r.weekPlans == d.weekPlans
  {
    LookupPut(d.dailyTasks, date, todos, date);
    forall k | k != date ensures Lookup(Put(d.dailyTasks, date, todos), k) == Lookup(d.dailyTasks, k) {
      LookupPut(d.dailyTasks, date, todos, k);
    }
    d.(dailyTasks := Put(d.dailyTasks, date, todos))
  }

  /** A lazy getter leaves the data as it was when the entry already exists. */
  lemma LazyGetKeepsExisting(d: PlannerData, yearKey: string, category: string, key: string, date: string)
    ensures Lookup(d.yearGoals, yearKey).Some? && Lookup(YearMap(d, yearKey), category).Some? ==>
      SetGoals(d, yearKey, category, GoalsAt(d, yearKey, category)) == d
    ensures Lookup(d.monthPlans, key).Some? ==> SetMonthPlan(d, key, MonthPlanAt(d, key)) == d
    ensures Lookup(d.weekPlans, key).Some? ==> SetWeekPlan(d, key, WeekPlanAt(d, key, DefaultSectionPlan)) == d
    ensures Lookup(d.dailyTasks, date).Some? ==> SetDaily(d, date, DailyAt(d, date)) == d
  {
    if Lookup(d.yearGoals, yearKey).Some? && Lookup(YearMap(d, yearKey), category).Some? {
      PutExisting(YearMap(d, yearKey), category);
      PutExisting(d.yearGoals, yearKey);
    }
    if Lookup(d.monthPlans, key).Some? {
      PutExisting(d.monthPlans, key);
    }
    if Lookup(d.weekPlans, key).Some? {
      PutExisting(d.weekPlans, key);
    }
    if Lookup(d.dailyTasks, date).Some? {
      PutExisting(d.dailyTasks, date);
    }
  }

  /** A week key can take section todos when it is new or already holds a section plan;
      a week-view plan has no todo array and the todo operations would fail on it. */
  predicate SectionTodosOk(d: PlannerData, key: string) {
    WeekPlanAt(d, key, DefaultSectionPlan).todos.Some?
  }

  // ----- navigation -----

  /** The (year, month) before the given one. */
  function PrevMonth(year: int, month: int): (r: (int, int))
    requires 1 <= month <= 12
    ensures 1 <= r.1 <= 12
    ensures month == 1 ==> r == (year - 1, 12)
    ensures month > 1 ==> r == (year, month - 1)
  {
    if month - 1 < 1 then (year - 1, 12) else (year, month - 1)
  }

  /** The (year, month) after the given one. */
  function NextMonth(year: int, month: int): (r: (int, int))
    requires 1 <= month <= 12
    ensures 1 <= r.1 <= 12
    ensures month == 12 ==> r == (year + 1, 1)
    ensures month < 12 ==> r == (year, month + 1)
  {
    if month + 1 > 12 then (year + 1, 1) else (year, month + 1)
  }

  /** Going back a month and forward again, or the other way round, is the identity, and
      twelve steps forward advance exactly one year. */
  lemma MonthNavigationInverse(year: int, month: int)
    requires 1 <= month <= 12
    ensures var p := PrevMonth(year, month); NextMonth(p.0, p.1) == (year, month)
    ensures var n := NextMonth(year, month); PrevMonth(n.0, n.1) == (year, month)
  {
  }

  function StepMonths(year: int, month: int, k: nat): (r: (int, int))
    requires 1 <= month <= 12
    ensures 1 <= r.1 <= 12
    decreases k
  {
    if k == 0 then (year, month)
    else var n := NextMonth(year, month); StepMonths(n.0, n.1, k - 1)
  }

  /** Twelve presses of "next" in the month view advance exactly one year. */
  lemma {:induction false} TwelveMonthsIsAYear(year: int, month: int)
    requires 1 <= month <= 12
    ensures StepMonths(year, month, 12) == (year + 1, month)
  {
    var y, m := year, month;
    var k := 0;
    while k < 12
      invariant 0 <= k <= 12 && 1 <= m <= 12
      invariant StepMonths(year, month, 12) == StepMonths(y, m, 12 - k)
      invariant (y, m) == (if month + k <= 12 then (year, month + k) else (year + 1, month + k - 12))
    {
      var n := NextMonth(y, m);
      y, m := n.0, n.1;
      k := k + 1;
    }
  }

  class PlannerUI {
    var data: PlannerData
    /** localStorage['planner_data_v1'] */
    var stored: Stored<PlannerData>
    var currentView: string
    var currentYear: int
    var currentMonth: int
    /** The first day of the current week, as a day number. */
    var weekStart: int
    var editingGoal: Option<EditingGoal>

    ghost predicate Valid()
      reads this`currentMonth
    {
      1 <= currentMonth <= 12
    }

    /** The store at page load: empty maps, the year view, today's year and month. */
    constructor (stored: Stored<PlannerData>, year: int, month: int, monday: int)
      requires 1 <= month <= 12
      ensures Valid()
      ensures data == EmptyData && this.stored == stored && currentView == "year"
      ensures currentYear == year && currentMonth == month && weekStart == monday
      ensures editingGoal == None
    {
      data := EmptyData;
      this.stored := stored;
      currentView := "year";
      currentYear := year;
      currentMonth := month;
      weekStart := monday;
      editingGoal := None;
    }

    /** loadData: parsed data replaces the maps; unparsable data is ignored. */
    method LoadData()
      modifies this`data
      ensures stored.Parsed? ==> data == stored.value
      ensures !stored.Parsed? ==> data == old(data)
    {
      if stored.Parsed? {
        data := stored.value;
      }
    }

    function YearKey(): string
      reads this`currentYear
    {
      IntToString(currentYear)
    }

    function CurrentMonthKey(): string
      reads this`currentYear, this`currentMonth
      requires Valid()
    {
      MonthKey(currentYear, currentMonth)
    }

    method PrevPeriod()
      requires Valid()
      modifies this`currentYear, this`currentMonth, this`weekStart
      ensures Valid()
      ensures currentView == "year" ==>
        currentYear == old(currentYear) - 1 && currentMonth == old(currentMonth) && weekStart == old(weekStart)
      ensures currentView == "month" ==>
        (currentYear, currentMonth) == PrevMonth(old(currentYear), old(currentMonth)) && weekStart == old(weekStart)
      ensures currentView == "week" ==>
        weekStart == old(weekStart) - 7 && currentYear == old(currentYear) && currentMonth == old(currentMonth)
      ensures currentView !in {"year", "month", "week"} ==>
        currentYear == old(currentYear) && currentMonth == old(currentMonth) && weekStart == old(weekStart)
    {
      if currentView == "year" {
        currentYear := currentYear - 1;
      } else if currentView == "month" {
        currentMonth := currentMonth - 1;
        if currentMonth < 1 {
          currentMonth := 12;
          currentYear := currentYear - 1;
        }
      } else if currentView == "week" {
        weekStart := weekStart - 7;
      }
    }

    method NextPeriod()
      requires Valid()
      modifies this`currentYear, this`currentMonth, this`weekStart
      ensures Valid()
      ensures currentView == "year" ==>
        currentYear == old(currentYear) + 1 && currentMonth == old(currentMonth) && weekStart == old(weekStart)
      ensures currentView == "month" ==>
        (currentYear, currentMonth) == NextMonth(old(currentYear), old(currentMonth)) && weekStart == old(weekStart)
      ensures currentView == "week" ==>
        weekStart == old(weekStart) + 7 && currentYear == old(currentYear) && currentMonth == old(currentMonth)
      ensures currentView !in {"year", "month", "week"} ==>
        currentYear == old(currentYear) && currentMonth == old(currentMonth) && weekStart == old(weekStart)
    {
      if currentView == "year" {
        currentYear := currentYear + 1;
      } else if currentView == "month" {
        currentMonth := currentMonth + 1;
        if currentMonth > 12 {
          currentMonth := 1;
          currentYear := currentYear + 1;
        }
      } else if currentView == "week" {
        weekStart := weekStart + 7;
      }
    }

    // ----- year goals -----

    method GetYearGoals(category: string) returns (goals: seq<Goal>)
      modifies this`data
      ensures goals == GoalsAt(old(data), YearKey(), category)
      ensures data == SetGoals(old(data), YearKey(), category, goals)
    {
      var yearKey := IntToString(currentYear);
      var inner := YearMap(data, yearKey);
      goals := Lookup(inner, category).GetOr([]);
      data := data.(yearGoals := Put(data.yearGoals, yearKey, Put(inner, category, goals)));
    }

    method AddGoal(category: string)
      modifies this`editingGoal
      ensures editingGoal == Some(EditingGoal(category, -1))
    {
      editingGoal := Some(EditingGoal(category, -1));
    }

    /** editGoal: opens the goal at `index` for editing; `goals[index].text` fails for an
        index outside the list. */
    method EditGoal(category: string, index: int)
      requires 0 <= index < |GoalsAt(data, YearKey(), category)|
      modifies this`data, this`editingGoal
      ensures data == SetGoals(old(data), YearKey(), category, GoalsAt(old(data), YearKey(), category))
      ensures editingGoal == Some(EditingGoal(category, index))
    {
      var _ := GetYearGoals(category);
      editingGoal := Some(EditingGoal(category, index));
    }

    /** saveGoal with the form's text and notes.  Blank text or no open form: no change.
        Index -1 appends a new goal; otherwise the goal keeps its completion and takes the
        new text and notes (an index outside the list would fail). */
    method SaveGoal(textInput: string, notesInput: string)
      requires editingGoal.Some? && !IsBlank(textInput) && editingGoal.value.index != -1 ==>
        0 <= editingGoal.value.index < |GoalsAt(data, YearKey(), editingGoal.value.category)|
      modifies this`data, this`stored, this`editingGoal
      ensures IsBlank(textInput) || old(editingGoal).None? ==>
        data == old(data) && stored == old(stored) && editingGoal == old(editingGoal)
      ensures !IsBlank(textInput) && old(editingGoal).Some? ==>
        var e := old(editingGoal).value;
        data == SetGoals(old(data), YearKey(), e.category,
          SavedGoals(GoalsAt(old(data), YearKey(), e.category), e.index, Trim(textInput), Trim(notesInput)))
        && stored == Parsed(data) && editingGoal == None
    {
      if IsBlank(textInput) || editingGoal.None? {
        return;
      }
      var text, notes := Trim(textInput), Trim(notesInput);
      var e, yk := editingGoal.value, YearKey();
      var goals := GoalsAt(data, yk, e.category);
      assert e.index == -1 || 0 <= e.index < |goals|;
      var nd := SetGoals(data, yk, e.category, SavedGoals(goals, e.index, text, notes));
      data := nd;
      stored := Parsed(nd);
      editingGoal := None;
      assert YearKey() == yk && e == old(editingGoal).value && goals == GoalsAt(old(data), yk, e.category);
    }

    method ToggleGoal(category: string, index: int)
      requires 0 <= index < |GoalsAt(data, YearKey(), category)|
      modifies this`data, this`stored
      ensures data == SetGoals(old(data), YearKey(), category, FlipGoal(GoalsAt(old(data), YearKey(), category), index))
      ensures stored == Parsed(data)
    {
      var goals := GoalsAt(data, YearKey(), category);
      data := SetGoals(data, YearKey(), category, FlipGoal(goals, index));
      stored := Parsed(data);
    }

    /** deleteGoal with the answer to the confirmation dialog. */
    method DeleteGoal(confirmed: bool)
      modifies this`data, this`stored, this`editingGoal
      ensures old(editingGoal).None? || old(editingGoal).value.index == -1 || !confirmed ==>
        data == old(data) && stored == old(stored) && editingGoal == old(editingGoal)
      ensures old(editingGoal).Some? && old(editingGoal).value.index != -1 && confirmed ==>
        var e := old(editingGoal).value;
        data == SetGoals(old(data), YearKey(), e.category, Splice1(GoalsAt(old(data), YearKey(), e.category), e.index))
        && stored == Parsed(data) && editingGoal == None
    {
      if editingGoal.None? || editingGoal.value.index == -1 {
        return;
      }
      if confirmed {
        var e := editingGoal.value;
        var goals := GoalsAt(data, YearKey(), e.category);
        data := SetGoals(data, YearKey(), e.category, Splice1(goals, e.index));
        stored := Parsed(data);
        editingGoal := None;
      }
    }

    method CloseGoalModal()
      modifies this`editingGoal
      ensures editingGoal == None
    {
      editingGoal := None;
    }

    // ----- month plan -----

    method GetMonthPlan() returns (plan: MonthPlan)
      requires Valid()
      modifies this`data
      ensures plan == MonthPlanAt(old(data), CurrentMonthKey())
      ensures data == SetMonthPlan(old(data), CurrentMonthKey(), plan)
    {
      var key := MonthKey(currentYear, currentMonth);
      plan := MonthPlanAt(data, key);
      data := SetMonthPlan(data, key, plan);
    }

    /** addMonthTodo with the input field's text. */
    method AddMonthTodo(input: string)
      requires Valid()
      modifies this`data, this`stored
      ensures IsBlank(input) ==> data == old(data) && stored == old(stored)
      ensures !IsBlank(input) ==>
        var p := MonthPlanAt(old(data), CurrentMonthKey());
        data == SetMonthPlan(old(data), CurrentMonthKey(), p.(todos := WithTodo(p.todos, input)))
        && stored == Parsed(data)
    {
      var text := Trim(input);
      if text == [] {
        return;
      }
      var key := MonthKey(currentYear, currentMonth);
      var p := MonthPlanAt(data, key);
      data := SetMonthPlan(data, key, p.(todos := p.todos + [NewTodo(text)]));
      stored := Parsed(data);
    }

    method ToggleMonthTodo(index: int)
      requires Valid() && 0 <= index < |MonthPlanAt(data, CurrentMonthKey()).todos|
      modifies this`data, this`stored
      ensures var p := MonthPlanAt(old(data), CurrentMonthKey());
        data == SetMonthPlan(old(data), CurrentMonthKey(), p.(todos := FlipTodo(p.todos, index)))
      ensures stored == Parsed(data)
    {
      var key := MonthKey(currentYear, currentMonth);
      var p := MonthPlanAt(data, key);
      data := SetMonthPlan(data, key, p.(todos := FlipTodo(p.todos, index)));
      stored := Parsed(data);
    }

    method DeleteMonthTodo(index: int)
      requires Valid()
      modifies this`data, this`stored
      ensures var p := MonthPlanAt(old(data), CurrentMonthKey());
        data == SetMonthPlan(old(data), CurrentMonthKey(), p.(todos := Splice1(p.todos, index)))
      ensures stored == Parsed(data)
    {
      var key := MonthKey(currentYear, currentMonth);
      var p := MonthPlanAt(data, key);
      data := SetMonthPlan(data, key, p.(todos := Splice1(p.todos, index)));
      stored := Parsed(data);
    }

    method SaveMonthQuote(quote: string)
      requires Valid()
      modifies this`data, this`stored
      ensures var p := MonthPlanAt(old(data), CurrentMonthKey());
        data == SetMonthPlan(old(data), CurrentMonthKey(), p.(quote := quote))
      ensures stored == Parsed(data)
    {
      var key := MonthKey(currentYear, currentMonth);
      var p := MonthPlanAt(data, key);
      data := SetMonthPlan(data, key, p.(quote := quote));
      stored := Parsed(data);
    }

    /** addMonthItem with the prompt's answer (None when cancelled). */
    method AddMonthItem(category: string, answer: Option<string>)
      requires Valid()
      modifies this`data, this`stored
      ensures answer.None? || IsBlank(answer.value) ==> data == old(data) && stored == old(stored)
      ensures answer.Some? && !IsBlank(answer.value) ==>
        var p := MonthPlanAt(old(data), CurrentMonthKey());
        var items := Lookup(p.categories, category).GetOr([]);
        data == SetMonthPlan(old(data), CurrentMonthKey(),
          p.(categories := Put(p.categories, category, WithTodo(items, answer.value))))
        && stored == Parsed(data)
    {
      if answer.None? || Trim(answer.value) == [] {
        return;
      }
      var key := MonthKey(currentYear, currentMonth);
      var p := MonthPlanAt(data, key);
      var items := Lookup(p.categories, category).GetOr([]);
      data := SetMonthPlan(data, key, p.(categories := Put(p.categories, category, items + [NewTodo(Trim(answer.value))])));
      stored := Parsed(data);
    }

    method ToggleMonthItem(category: string, index: int)
      requires Valid()
      requires Lookup(MonthPlanAt(data, CurrentMonthKey()).categories, category).Some?
      requires 0 <= index < |Lookup(MonthPlanAt(data, CurrentMonthKey()).categories, category).value|
      modifies this`data, this`stored
      ensures var p := MonthPlanAt(old(data), CurrentMonthKey());
        var items := Lookup(p.categories, category).value;
        data == SetMonthPlan(old(data), CurrentMonthKey(),
          p.(categories := Put(p.categories, category, FlipTodo(items, index))))
      ensures stored == Parsed(data)
    {
      var key := MonthKey(currentYear, currentMonth);
      var p := MonthPlanAt(data, key);
      var items := Lookup(p.categories, category).value;
      data := SetMonthPlan(data, key, p.(categories := Put(p.categories, category, FlipTodo(items, index))));
      stored := Parsed(data);
    }

    method DeleteMonthItem(category: string, index: int)
      requires Valid()
      requires Lookup(MonthPlanAt(data, CurrentMonthKey()).categories, category).Some?
      modifies this`data, this`stored
      ensures var p := MonthPlanAt(old(data), CurrentMonthKey());
        var items := Lookup(p.categories, category).value;
        data == SetMonthPlan(old(data), CurrentMonthKey(),
          p.(categories := Put(p.categories, category, Splice1(items, index))))
      ensures stored == Parsed(data)
    {
      var key := MonthKey(currentYear, currentMonth);
      var p := MonthPlanAt(data, key);
      var items := Lookup(p.categories, category).value;
      data := SetMonthPlan(data, key, p.(categories := Put(p.categories, category, Splice1(items, index))));
      stored := Parsed(data);
    }

    // ----- week sections of the month view -----

    method GetWeekSectionPlan(weekKey: string) returns (plan: WeekPlan)
      modifies this`data
      ensures plan == WeekPlanAt(old(data), weekKey, DefaultSectionPlan)
      ensures data == SetWeekPlan(old(data), weekKey, plan)
    {
      plan := WeekPlanAt(data, weekKey, DefaultSectionPlan);
      data := SetWeekPlan(data, weekKey, plan);
    }

    method AddWeekSectionTodo(weekKey: string, input: string)
      requires !IsBlank(input) ==> SectionTodosOk(data, weekKey)
      modifies this`data, this`stored
      ensures IsBlank(input) ==> data == old(data) && stored == old(stored)
      ensures !IsBlank(input) ==>
        var p := WeekPlanAt(old(data), weekKey, DefaultSectionPlan);
        data == SetWeekPlan(old(data), weekKey, p.(todos := Some(WithTodo(p.todos.value, input))))
        && stored == Parsed(data)
    {
      if Trim(input) == [] {
        return;
      }
      var p := WeekPlanAt(data, weekKey, DefaultSectionPlan);
      data := SetWeekPlan(data, weekKey, p.(todos := Some(p.todos.value + [NewTodo(Trim(input))])));
      stored := Parsed(data);
    }

    method ToggleWeekSectionTodo(weekKey: string, index: int)
      requires SectionTodosOk(data, weekKey)
      requires 0 <= index < |WeekPlanAt(data, weekKey, DefaultSectionPlan).todos.value|
      modifies this`data, this`stored
      ensures var p := WeekPlanAt(old(data), weekKey, DefaultSectionPlan);
        data == SetWeekPlan(old(data), weekKey, p.(todos := Some(FlipTodo(p.todos.value, index))))
      ensures stored == Parsed(data)
    {
      var p := WeekPlanAt(data, weekKey, DefaultSectionPlan);
      data := SetWeekPlan(data, weekKey, p.(todos := Some(FlipTodo(p.todos.value, index))));
      stored := Parsed(data);
    }

    method DeleteWeekSectionTodo(weekKey: string, index: int)
      requires SectionTodosOk(data, weekKey)
      modifies this`data, this`stored
      ensures var p := WeekPlanAt(old(data), weekKey, DefaultSectionPlan);
        data == SetWeekPlan(old(data), weekKey, p.(todos := Some(Splice1(p.todos.value, index))))
      ensures stored == Parsed(data)
    {
      var p := WeekPlanAt(data, weekKey, DefaultSectionPlan);
      data := SetWeekPlan(data, weekKey, p.(todos := Some(Splice1(p.todos.value, index))));
      stored := Parsed(data);
    }

    method SaveWeekSectionMessage(weekKey: string, message: string)
      modifies this`data, this`stored
      ensures var p := WeekPlanAt(old(data), weekKey, DefaultSectionPlan);
        data == SetWeekPlan(old(data), weekKey, p.(message := message))
      ensures stored == Parsed(data)
    {
      var p := WeekPlanAt(data, weekKey, DefaultSectionPlan);
      data := SetWeekPlan(data, weekKey, p.(message := message));
      stored := Parsed(data);
    }

    /** saveWeekSectionNotes: 'ongoing' writes the ongoing notes, any other type the
        deadline notes. */
    method SaveWeekSectionNotes(weekKey: string, kind: string, notes: string)
      modifies this`data, this`stored
      ensures var p := WeekPlanAt(old(data), weekKey, DefaultSectionPlan);
        data == SetWeekPlan(old(data), weekKey,
          if kind == "ongoing" then p.(ongoingNotes := Some(notes)) else p.(deadlineNotes := Some(notes)))
      ensures stored == Parsed(data)
    {
      var p := WeekPlanAt(data, weekKey, DefaultSectionPlan);
      if kind == "ongoing" {
        p := p.(ongoingNotes := Some(notes));
      } else {
        p := p.(deadlineNotes := Some(notes));
      }
      data := SetWeekPlan(data, weekKey, p);
      stored := Parsed(data);
    }

    // ----- week view -----

    /** getWeekPlan for the week view's key (the ISO week key, computed from the date). */
    method GetWeekPlan(weekKey: string) returns (plan: WeekPlan)
      modifies this`data
      ensures plan == WeekPlanAt(old(data), weekKey, DefaultWeekViewPlan)
      ensures data == SetWeekPlan(old(data), weekKey, plan)
    {
      plan := WeekPlanAt(data, weekKey, DefaultWeekViewPlan);
      data := SetWeekPlan(data, weekKey, plan);
    }

    method SaveWeekMessage(weekKey: string, message: string)
      modifies this`data, this`stored
      ensures var p := WeekPlanAt(old(data), weekKey, DefaultWeekViewPlan);
        data == SetWeekPlan(old(data), weekKey, p.(message := message))
      ensures stored == Parsed(data)
    {
      var p := WeekPlanAt(data, weekKey, DefaultWeekViewPlan);
      data := SetWeekPlan(data, weekKey, p.(message := message));
      stored := Parsed(data);
    }

    // ----- daily todos -----

    method GetDailyTasks(date: string) returns (todos: seq<Todo>)
      modifies this`data
      ensures todos == DailyAt(old(data), date)
      ensures data == SetDaily(old(data), date, todos)
    {
      todos := DailyAt(data, date);
      data := SetDaily(data, date, todos);
    }

    method AddDailyTask(date: string, input: string)
      modifies this`data, this`stored
      ensures IsBlank(input) ==> data == old(data) && stored == old(stored)
      ensures !IsBlank(input) ==>
        data == SetDaily(old(data), date, WithTodo(DailyAt(old(data), date), input))
        && stored == Parsed(data)
    {
      if Trim(input) == [] {
        return;
      }
      data := SetDaily(data, date, DailyAt(data, date) + [NewTodo(Trim(input))]);
      stored := Parsed(data);
    }

    method ToggleDailyTask(date: string, index: int)
      requires 0 <= index < |DailyAt(data, date)|
      modifies this`data, this`stored
      ensures data == SetDaily(old(data), date, FlipTodo(DailyAt(old(data), date), index))
      ensures stored == Parsed(data)
    {
      data := SetDaily(data, date, FlipTodo(DailyAt(data, date), index));
      stored := Parsed(data);
    }

    method DeleteDailyTask(date: string, index: int)
      modifies this`data, this`stored
      ensures data == SetDaily(old(data), date, Splice1(DailyAt(old(data), date), index))
      ensures stored == Parsed(data)
    {
      data := SetDaily(data, date, Splice1(DailyAt(data, date), index));
      stored := Parsed(data);
    }
  }
}
