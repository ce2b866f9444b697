/** The calendar's view of the planner (js/calendar.js): flattening planner data into
    items, choosing where the planner data comes from, and the per-day filters. */
module Calendar {
  import opened Common
  import opened Strings
  import opened Seqs
  import opened Assoc
  import opened Planner
  import opened Items
  import Projects

  // ----- the week key pattern /week-(\d{4})-(\d{2})-(\d{2})/ -----

  /** The unanchored pattern matches at position i. */
  predicate WeekPatternAt(k: string, i: nat) {
    i + 15 <= |k| && k[i..i + 5] == "week-" && AllDigits(k[i + 5..i + 9]) && k[i + 9] == '-'
    && AllDigits(k[i + 10..i + 12]) && k[i + 12] == '-' && AllDigits(k[i + 13..i + 15])
  }

  /** The leftmost position at or after `from` where the pattern matches. */
  function FirstWeekMatch(k: string, from: nat): (r: Option<nat>)
    decreases |k| - from
    ensures r.Some? ==> from <= r.value && WeekPatternAt(k, r.value)
    ensures r.Some? ==> forall j :: from <= j < r.value ==> !WeekPatternAt(k, j)
    ensures r.None? ==> forall j :: from <= j ==> !WeekPatternAt(k, j)
  {
    if from + 15 > |k| then None
    else if WeekPatternAt(k, from) then Some(from)
    else FirstWeekMatch(k, from + 1)
  }

  /** The date `${match[1]}-${match[2]}-${match[3]}` of a week key, when the key matches. */
  function WeekKeyDate(k: string): (r: Option<string>)
    ensures r.Some? <==> exists i :: WeekPatternAt(k, i)
    ensures r.Some? ==> |r.value| == 10 && r.value[4] == '-' && r.value[7] == '-'
  {
    match FirstWeekMatch(k, 0)
    case Some(i) => Some(k[i + 5..i + 9] + "-" + k[i + 10..i + 12] + "-" + k[i + 13..i + 15])
    case None => None
  }

  /** Month-view week section keys match, and their date is the week's start date. */
  lemma SectionKeyDate(year: nat, month: nat, day: nat)
    requires 1000 <= year <= 9999 && 1 <= month <= 12 && 1 <= day <= 31
    ensures WeekKeyDate(WeekSectionKey(year, month, day)) == Some(FormatDateKey(year, month, day))
  {
    FourDigits(year);
    var k := WeekSectionKey(year, month, day);
    assert k[5..9] == NatToString(year);
    assert k[10..12] == Pad2(month);
    assert k[13..15] == Pad2(day);
    assert WeekPatternAt(k, 0);
  }

  /** Week-view keys ("YYYY-Www") never match, so their todos never reach the calendar. */
  lemma WeekViewKeyNeverMatches(year: int, weekNumber: nat)
    ensures WeekKeyDate(WeekViewKey(year, weekNumber)) == None
  {
    var k := WeekViewKey(year, weekNumber);
    var y := IntToString(year);
    var w := Pad2(weekNumber);
    assert forall i :: 0 <= i < |y| ==> y[i] == '-' || IsDigit(y[i]) by {
      if year < 0 {
        assert y == "-" + NatToString(-year);
        assert forall i :: 1 <= i < |y| ==> y[i] == NatToString(-year)[i - 1];
      }
    }
    forall i | 0 <= i < |k| ensures k[i] != 'w' {
      if i < |y| {
        assert k[i] == y[i];
      } else if i < |y| + 2 {
        assert k[|y|..|y| + 2] == "-W";
      } else {
        assert k[i] == w[i - |y| - 2];
      }
    }
    forall i: nat | i + 15 <= |k| ensures !WeekPatternAt(k, i) {
      assert k[i..i + 5][0] == k[i] != 'w';
    }
  }

  // ----- _extractPlannerTasks -----

  const DayFallbackTime: string := "T12:00:00.000Z"

  /** A planner item's completedAt: the stored one, else the fallback, and null while the
      todo is open. */
  function CompletedAtOr(t: Todo, fallback: Option<string>): (r: Option<string>)
    ensures !t.completed ==> r.None?
    ensures t.completed && Truthy(t.completedAt) ==> r == t.completedAt
    ensures t.completed && !Truthy(t.completedAt) ==> r == fallback
  {
    if !t.completed then None
    else if Truthy(t.completedAt) then t.completedAt
    else fallback
  }

  function DailyItem(date: string, t: Todo, idx: nat): (it: Item)
    ensures it.id == "planner_daily_" + date + "_" + NatToString(idx)
    ensures it.title == t.text && it.deadline == Some(date) && it.completed == t.completed
    ensures it.completedAt == CompletedAtOr(t, Some(date + DayFallbackTime))
    ensures it.source == FromPlanner && it.plannerType == Some(Daily) && it.itemLabel.None?
  {
    Item("planner_daily_" + date + "_" + NatToString(idx), t.text, Some(date), t.completed,
      CompletedAtOr(t, Some(date + DayFallbackTime)), None, None, FromPlanner, None, None, None, Some(Daily), None)
  }

  function WeekItem(weekKey: string, date: string, t: Todo, idx: nat): (it: Item)
    ensures it.id == "planner_week_" + weekKey + "_" + NatToString(idx)
    ensures it.title == t.text && it.deadline == Some(date) && it.completed == t.completed
    ensures it.completedAt == CompletedAtOr(t, Some(date + DayFallbackTime))
    ensures it.source == FromPlanner && it.plannerType == Some(Week) && it.itemLabel.None?
  {
    Item("planner_week_" + weekKey + "_" + NatToString(idx), t.text, Some(date), t.completed,
      CompletedAtOr(t, Some(date + DayFallbackTime)), None, None, FromPlanner, None, None, None, Some(Week), None)
  }

  function MonthItem(monthKey: string, t: Todo, idx: nat): (it: Item)
    ensures it.id == "planner_month_" + monthKey + "_" + NatToString(idx)
    ensures it.title == t.text && it.deadline == Some(monthKey + "-01") && it.completed == t.completed
    ensures it.completedAt == CompletedAtOr(t, None)
    ensures it.source == FromPlanner && it.plannerType == Some(Month) && it.itemLabel == t.itemLabel
  {
    Item("planner_month_" + monthKey + "_" + NatToString(idx), t.text, Some(monthKey + "-01"), t.completed,
      CompletedAtOr(t, None), None, None, FromPlanner, None, None, None, Some(Month), t.itemLabel)
  }

  /** The shape every daily or week item has: a planner item with a deadline whose
      completedAt is present exactly when it is completed. */
  predicate DayShaped(it: Item, kind: PlannerKind) {
    it.source == FromPlanner && it.plannerType == Some(kind) && it.deadline.Some?
    && it.priority.None? && it.category.None? && (it.completedAt.Some? <==> it.completed)
  }

  /** The shape of a month item: its completedAt may stay null even when completed. */
  predicate MonthShaped(it: Item) {
    it.source == FromPlanner && it.plannerType == Some(Month) && it.deadline.Some?
    && it.priority.None? && it.category.None? && (it.completedAt.Some? ==> it.completed)
  }

  function DayTodoItems(date: string, todos: seq<Todo>): (r: seq<Item>)
    ensures |r| == |todos|
    ensures forall i :: 0 <= i < |r| ==> r[i] == DailyItem(date, todos[i], i) && DayShaped(r[i], Daily)
  {
    seq(|todos|, i requires 0 <= i < |todos| => DailyItem(date, todos[i], i))
  }

  function DailyCount(entries: Assoc<seq<Todo>>): nat {
    if entries == [] then 0 else DailyCount(entries[..|entries| - 1]) + |entries[|entries| - 1].1|
  }

  /** The daily part: every date's todos in key order. */
  function DailyItems(entries: Assoc<seq<Todo>>): (r: seq<Item>)
    ensures |r| == DailyCount(entries)
    ensures forall i :: 0 <= i < |r| ==> DayShaped(r[i], Daily)
  {
    if entries == [] then []
    else
      var e := entries[|entries| - 1];
      DailyItems(entries[..|entries| - 1]) + DayTodoItems(e.0, e.1)
  }

  /** The week part contributes only plans with a todo array under a matching key. */
  function WeekTodoItems(weekKey: string, plan: WeekPlan): (r: seq<Item>)
    ensures plan.todos.None? || WeekKeyDate(weekKey).None? ==> r == []
    ensures plan.todos.Some? && WeekKeyDate(weekKey).Some? ==>
      (|r| == |plan.todos.value| && forall i :: 0 <= i < |r| ==>
        r[i] == WeekItem(weekKey, WeekKeyDate(weekKey).value, plan.todos.value[i], i) && DayShaped(r[i], Week))
  {
    match (plan.todos, WeekKeyDate(weekKey))
    case (Some(todos), Some(date)) =>
      seq(|todos|, i requires 0 <= i < |todos| => WeekItem(weekKey, date, todos[i], i))
    case _ => []
  }

  function WeekTodoCount(weekKey: string, plan: WeekPlan): nat {
    if plan.todos.Some? && WeekKeyDate(weekKey).Some? then |plan.todos.value| else 0
  }

  function WeekCount(entries: Assoc<WeekPlan>): nat {
    if entries == [] then 0
    else
      var e := entries[|entries| - 1];
      WeekCount(entries[..|entries| - 1]) + WeekTodoCount(e.0, e.1)
  }

  function WeekItems(entries: Assoc<WeekPlan>): (r: seq<Item>)
    ensures |r| == WeekCount(entries)
    ensures forall i :: 0 <= i < |r| ==> DayShaped(r[i], Week)
  {
    if entries == [] then []
    else
      var e := entries[|entries| - 1];
      WeekItems(entries[..|entries| - 1]) + WeekTodoItems(e.0, e.1)
  }

  function MonthTodoItems(monthKey: string, todos: seq<Todo>): (r: seq<Item>)
    ensures |r| == |todos|
    ensures forall i :: 0 <= i < |r| ==> r[i] == MonthItem(monthKey, todos[i], i) && MonthShaped(r[i])
  {
    seq(|todos|, i requires 0 <= i < |todos| => MonthItem(monthKey, todos[i], i))
  }

  function MonthCount(entries: Assoc<MonthPlan>): nat {
    if entries == [] then 0 else MonthCount(entries[..|entries| - 1]) + |entries[|entries| - 1].1.todos|
  }

  function MonthItems(entries: Assoc<MonthPlan>): (r: seq<Item>)
    ensures |r| == MonthCount(entries)
    ensures forall i :: 0 <= i < |r| ==> MonthShaped(r[i])
  {
    if entries == [] then []
    else
      var e := entries[|entries| - 1];
      MonthItems(entries[..|entries| - 1]) + MonthTodoItems(e.0, e.1.todos)
  }

  /** _extractPlannerTasks (js/stats.js carries a token-for-token copy): the daily items,
      then the week items, then the month items; completedAt is only ever set on a
      completed item. */
  function ExtractPlannerTasks(d: PlannerData): (r: seq<Item>)
    ensures |r| == DailyCount(d.dailyTasks) + WeekCount(d.weekPlans) + MonthCount(d.monthPlans)
    ensures forall i :: 0 <= i < DailyCount(d.dailyTasks) ==> DayShaped(r[i], Daily)
    ensures forall i :: DailyCount(d.dailyTasks) <= i < DailyCount(d.dailyTasks) + WeekCount(d.weekPlans) ==>
      DayShaped(r[i], Week)
    ensures forall i :: DailyCount(d.dailyTasks) + WeekCount(d.weekPlans) <= i < |r| ==> MonthShaped(r[i])
    ensures forall it :: it in r ==> it.source == FromPlanner && (it.completedAt.Some? ==> it.completed)
  {
    var a, b, c := DailyItems(d.dailyTasks), WeekItems(d.weekPlans), MonthItems(d.monthPlans);
    assert forall it :: it in a + b + c ==> it in a || it in b || it in c;
    a + b + c
  }

  /** Every todo of every date shows up as its daily item. */
  lemma {:induction false} DailyTodoListed(entries: Assoc<seq<Todo>>, k: nat, i: nat)
    requires k < |entries| && i < |entries[k].1|
    ensures DailyItem(entries[k].0, entries[k].1[i], i) in DailyItems(entries)
  {
    var n := |entries| - 1;
    if k == n {
      assert DayTodoItems(entries[n].0, entries[n].1)[i] == DailyItem(entries[k].0, entries[k].1[i], i);
    } else {
      DailyTodoListed(entries[..n], k, i);
    }
  }

  /** Every todo of a week plan whose key matches the week pattern shows up as its week
      item, dated by the key. */
  lemma {:induction false} WeekTodoListed(entries: Assoc<WeekPlan>, k: nat, i: nat)
    requires k < |entries| && entries[k].1.todos.Some? && i < |entries[k].1.todos.value|
    requires WeekKeyDate(entries[k].0).Some?
    ensures WeekItem(entries[k].0, WeekKeyDate(entries[k].0).value, entries[k].1.todos.value[i], i)
      in WeekItems(entries)
  {
    var n := |entries| - 1;
    if k == n {
      var items := WeekTodoItems(entries[n].0, entries[n].1);
      assert items[i] == WeekItem(entries[k].0, WeekKeyDate(entries[k].0).value, entries[k].1.todos.value[i], i);
      assert WeekItems(entries) == WeekItems(entries[..n]) + items;
    } else {
      WeekTodoListed(entries[..n], k, i);
    }
  }

  /** Every todo of a month plan shows up as its month item. */
  lemma {:induction false} MonthTodoListed(entries: Assoc<MonthPlan>, k: nat, i: nat)
    requires k < |entries| && i < |entries[k].1.todos|
    ensures MonthItem(entries[k].0, entries[k].1.todos[i], i) in MonthItems(entries)
  {
    var n := |entries| - 1;
    if k == n {
      assert MonthTodoItems(entries[n].0, entries[n].1.todos)[i] == MonthItem(entries[k].0, entries[k].1.todos[i], i);
    } else {
      MonthTodoListed(entries[..n], k, i);
    }
  }

  /** A month key built by getMonthKey gives its todos the first of the month as deadline,
      the same date string formatDateKey builds. */
  lemma MonthItemDeadline(year: int, month: nat, t: Todo, idx: nat)
    ensures MonthItem(MonthKey(year, month), t, idx).deadline == Some(FormatDateKey(year, month, 1))
  {
    assert NatToString(1) == ['1'];
    assert Pad2(1) == "01";
    DateKeyExtendsMonthKey(year, month, 1);
    assert "-" + Pad2(1) == "-01";
    assert MonthKey(year, month) + "-01" == MonthKey(year, month) + "-" + Pad2(1);
  }

  // ----- where the planner data comes from -----

  /** getPlannerTasks: the loaded planner page's data first, then the fetched copy, then
      the parsed browser storage; absent or unparsable storage gives no items.  js/stats.js
      follows the same order with the calendar's fetched copy. */
  function PlannerTasks(page: Option<PlannerData>, cache: Option<PlannerData>, stored: Stored<PlannerData>): (r: seq<Item>)
    ensures page.Some? ==> r == ExtractPlannerTasks(page.value)
    ensures page.None? && cache.Some? ==> r == ExtractPlannerTasks(cache.value)
    ensures page.None? && cache.None? && stored.Parsed? ==> r == ExtractPlannerTasks(stored.value)
    ensures page.None? && cache.None? && !stored.Parsed? ==> r == []
  {
    if page.Some? then ExtractPlannerTasks(page.value)
    else if cache.Some? then ExtractPlannerTasks(cache.value)
    else if stored.Parsed? then ExtractPlannerTasks(stored.value)
    else []
  }

  /** The calendar's fetched copy of the planner data and the storage key it mirrors to. */
  class CalendarManager {
    var plannerCache: Option<PlannerData>
    var stored: Stored<PlannerData>

    constructor (stored: Stored<PlannerData>)
      ensures plannerCache == None && this.stored == stored
    {
      plannerCache := None;
      this.stored := stored;
    }

    /** fetchPlannerData with the server's answer (None for a failed or non-OK fetch):
        a fetched copy is cached and written to storage. */
    method FetchPlannerData(response: Option<PlannerData>) returns (r: Option<PlannerData>)
      modifies this
      ensures r == response
      ensures response.Some? ==> plannerCache == response && stored == Parsed(response.value)
      ensures response.None? ==> plannerCache == old(plannerCache) && stored == old(stored)
    {
      if response.Some? {
        plannerCache := response;
        stored := Parsed(response.value);
      }
      r := response;
    }

    /** Without a planner page, the items come from the last fetched copy. */
    method PlannerTasksAfterFetch(response: PlannerData) returns (items: seq<Item>)
      modifies this
      ensures items == ExtractPlannerTasks(response)
    {
      var _ := FetchPlannerData(Some(response));
      items := PlannerTasks(None, plannerCache, stored);
    }
  }

  // ----- the per-day filters -----

  /** A cell's deadline marker: open items due that day. */
  predicate DueOn(it: Item, date: string) {
    it.deadline == Some(date) && !it.completed
  }

  /** A cell's completion marker: completed items whose completedAt starts with the day. */
  predicate DoneOn(it: Item, date: string) {
    it.completed && Truthy(it.completedAt) && StartsWith(it.completedAt.value, date)
  }

  /** The day details list: items due that day or completed that day. */
  predicate ListedOn(it: Item, date: string) {
    it.deadline == Some(date) || (Truthy(it.completedAt) && StartsWith(it.completedAt.value, date))
  }

  function DueOnDay(date: string): Item -> bool {
    it => DueOn(it, date)
  }

  function DoneOnDay(date: string): Item -> bool {
    it => DoneOn(it, date)
  }

  function ListedOnDay(date: string): Item -> bool {
    it => ListedOn(it, date)
  }

  function ProjectDueOn(date: string): Projects.Project -> bool {
    (p: Projects.Project) => p.deadline == Some(date) && p.status != "completed"
  }

  function ProjectListedOn(date: string): Projects.Project -> bool {
    (p: Projects.Project) => p.deadline == Some(date)
  }

  /** A cell's project deadline marker: unfinished projects due that day. */
  function DueProjects(ps: seq<Projects.Project>, date: string): seq<Projects.Project> {
    Filter(ps, ProjectDueOn(date))
  }

  /** The projects of the day details: every project due that day. */
  function ListedProjects(ps: seq<Projects.Project>, date: string): seq<Projects.Project> {
    Filter(ps, ProjectListedOn(date))
  }

  /** No item is both due and done on a day, both kinds are listed in the day details, and
      together they never outnumber the details list. */
  lemma {:induction false} DayMarkersInDetails(items: seq<Item>, date: string)
    ensures forall it :: it in items ==> !(DueOn(it, date) && DoneOn(it, date))
    ensures forall it :: it in items && (DueOn(it, date) || DoneOn(it, date)) ==> ListedOn(it, date)
    ensures |Filter(items, DueOnDay(date))| + |Filter(items, DoneOnDay(date))| <= |Filter(items, ListedOnDay(date))|
  {
    if items != [] {
      var init, x := items[..|items| - 1], items[|items| - 1];
      assert items == init + [x];
      DayMarkersInDetails(init, date);
      FilterSnoc(init, x, DueOnDay(date));
      FilterSnoc(init, x, DoneOnDay(date));
      FilterSnoc(init, x, ListedOnDay(date));
    }
  }

  /** Projects marked due on a day are among the projects listed in its details. */
  lemma DueProjectsListed(ps: seq<Projects.Project>, date: string)
    ensures forall p :: p in DueProjects(ps, date) ==> p in ListedProjects(ps, date)
  {
    FilterMembersAll(ps, ProjectDueOn(date));
    FilterMembersAll(ps, ProjectListedOn(date));
  }
}
