/** The dashboard logic of js/app.js: HTML escaping, task sorting, the visibility rule
    and counts of the filter toolbar, the filter toggles and linking a task to a project. */
module App {
  import opened Common
  import opened Strings
  import opened Seqs
  import Tasks
  import Projects

  // ----- escapeHTML -----

  function EscapeChar(c: char): (r: string)
    ensures c == '&' ==> r == "&amp;"
    ensures c == '<' ==> r == "&lt;"
    ensures c == '>' ==> r == "&gt;"
    ensures c == '\'' ==> r == "&#39;"
    ensures c == '"' ==> r == "&quot;"
    ensures c !in "&<>'\"" ==> r == [c]
  {
    if c == '&' then "&amp;"
    else if c == '<' then "&lt;"
    else if c == '>' then "&gt;"
    else if c == '\'' then "&#39;"
    else if c == '"' then "&quot;"
    else [c]
  }

  function EscapeAll(s: string): (r: string)
    ensures forall i :: 0 <= i < |r| ==> r[i] !in "<>'\""
  {
    if s == [] then [] else EscapeChar(s[0]) + EscapeAll(s[1..])
  }

  /** escapeHTML: '' for a missing or empty string, otherwise every special character
      replaced by its entity. */
  function EscapeHTML(s: Option<string>): (r: string)
    ensures !Truthy(s) ==> r == ""
    ensures Truthy(s) ==> r == EscapeAll(s.value)
    ensures forall i :: 0 <= i < |r| ==> r[i] !in "<>'\""
  {
    if Truthy(s) then EscapeAll(s.value) else ""
  }

  /** The browser's decoding of the five entities: the partner of EscapeAll. */
  function Unescape(s: string): string
    decreases |s|
  {
    if s == [] then []
    else if |s| >= 5 && s[..5] == "&amp;" then "&" + Unescape(s[5..])
    else if |s| >= 4 && s[..4] == "&lt;" then "<" + Unescape(s[4..])
    else if |s| >= 4 && s[..4] == "&gt;" then ">" + Unescape(s[4..])
    else if |s| >= 5 && s[..5] == "&#39;" then "'" + Unescape(s[5..])
    else if |s| >= 6 && s[..6] == "&quot;" then "\"" + Unescape(s[6..])
    else [s[0]] + Unescape(s[1..])
  }

  lemma UnescapeAmp(rest: string)
    ensures Unescape("&amp;" + rest) == "&" + Unescape(rest)
  {
    var t := "&amp;" + rest;
    assert t[..5] == "&amp;" && t[5..] == rest;
  }

  lemma UnescapeLt(rest: string)
    ensures Unescape("&lt;" + rest) == "<" + Unescape(rest)
  {
    var t := "&lt;" + rest;
    assert t[1] == 'l' && t[..4] == "&lt;" && t[4..] == rest;
  }

  lemma UnescapeGt(rest: string)
    ensures Unescape("&gt;" + rest) == ">" + Unescape(rest)
  {
    var t := "&gt;" + rest;
    assert t[1] == 'g' && t[..4] == "&gt;" && t[4..] == rest;
  }

  lemma UnescapeApos(rest: string)
    ensures Unescape("&#39;" + rest) == "'" + Unescape(rest)
  {
    var t := "&#39;" + rest;
    assert t[1] == '#' && t[..5] == "&#39;" && t[5..] == rest;
  }

  lemma UnescapeQuot(rest: string)
    ensures Unescape("&quot;" + rest) == "\"" + Unescape(rest)
  {
    var t := "&quot;" + rest;
    assert t[1] == 'q' && t[..6] == "&quot;" && t[6..] == rest;
  }

  lemma UnescapeOther(c: char, rest: string)
    requires c != '&'
    ensures Unescape([c] + rest) == [c] + Unescape(rest)
  {
    var t := [c] + rest;
    assert t[0] == c && t[1..] == rest;
  }

  /** Decoding undoes one escaped character whatever follows it. */
  lemma UnescapeStep(c: char, rest: string)
    ensures Unescape(EscapeChar(c) + rest) == [c] + Unescape(rest)
  {
    if c == '&' {
      UnescapeAmp(rest);
    } else if c == '<' {
      UnescapeLt(rest);
    } else if c == '>' {
      UnescapeGt(rest);
    } else if c == '\'' {
      UnescapeApos(rest);
    } else if c == '"' {
      UnescapeQuot(rest);
    } else {
      UnescapeOther(c, rest);
    }
  }

  /** Escaping loses nothing: decoding the entities gives the text back. */
  lemma {:induction false} EscapeRoundTrip(s: string)
    ensures Unescape(EscapeAll(s)) == s
  {
    if s != [] {
      EscapeRoundTrip(s[1..]);
      UnescapeStep(s[0], EscapeAll(s[1..]));
    }
  }

  /** Text without special characters is left exactly as it is. */
  lemma {:induction false} EscapePlain(s: string)
    requires forall i :: 0 <= i < |s| ==> s[i] !in "&<>'\""
    ensures EscapeAll(s) == s
  {
    if s != [] {
      EscapePlain(s[1..]);
    }
  }

  // ----- sortTasks -----

  /** `pOrder[priority]`: undefined (None) for anything but high, medium and low. */
  function Rank(priority: string): (r: Option<int>)
    ensures r.Some? <==> priority in {"high", "medium", "low"}
    ensures r.Some? ==> 0 <= r.value <= 2
  {
    if priority == "high" then Some(0)
    else if priority == "medium" then Some(1)
    else if priority == "low" then Some(2)
    else None
  }

  /** The sign of `new Date(a) - new Date(b)` for two date strings, which for the
      "YYYY-MM-DD" deadlines the dashboard stores is their lexicographic order. */
  function DateDiffSign(a: string, b: string): int {
    if StrLess(a, b) then -1 else if StrLess(b, a) then 1 else 0
  }

  /** Swapping the two dates flips the sign, and the difference is 0 only for equal
      dates. */
  lemma DateDiffSignOrder(a: string, b: string)
    ensures DateDiffSign(a, b) == -DateDiffSign(b, a)
    ensures DateDiffSign(a, b) == 0 <==> a == b
  {
    StrLessTrichotomy(a, b);
  }

  /** The comparator of sortTasks.  A difference involving undefined is NaN, which the
      sort treats as 0. */
  function Compare(a: Tasks.Task, b: Tasks.Task): (r: int)
    ensures a.completed && !b.completed ==> r > 0
    ensures !a.completed && b.completed ==> r < 0
  {
    if a.completed != b.completed then (if a.completed then 1 else -1)
    else
      var ra, rb := Rank(a.priority), Rank(b.priority);
      if ra != rb then (if ra.Some? && rb.Some? then ra.value - rb.value else 0)
      else if Truthy(a.deadline) && Truthy(b.deadline) then DateDiffSign(a.deadline.value, b.deadline.value)
      else if Truthy(a.deadline) then -1
      else 1
  }

  /** Two open tasks of the same priority and without deadlines each compare as greater
      than the other, so the comparator is no consistent ordering. */
  lemma CompareInconsistent(a: Tasks.Task, b: Tasks.Task)
    requires a.completed == b.completed && a.priority == b.priority
    requires a.deadline.None? && b.deadline.None?
    ensures Compare(a, b) > 0 && Compare(b, a) > 0
  {
  }

  /** One insertion step: x moves left past every element that compares greater. */
  function Insert(s: seq<Tasks.Task>, x: Tasks.Task): (r: seq<Tasks.Task>)
    ensures multiset(r) == multiset(s) + multiset{x}
    ensures |r| == |s| + 1
    ensures forall y :: y in r ==> y == x || y in s
  {
    if s == [] then [x]
    else
      assert s == s[..|s| - 1] + [s[|s| - 1]];
      if Compare(s[|s| - 1], x) > 0 then Insert(s[..|s| - 1], x) + [s[|s| - 1]]
      else s + [x]
  }

  /** sortTasks as a stable insertion sort of a copy; the comparator is inconsistent, so
      this is one of the orders Array.prototype.sort may produce. */
  function SortTasks(ts: seq<Tasks.Task>): (r: seq<Tasks.Task>)
    ensures multiset(r) == multiset(ts) && |r| == |ts|
    ensures forall y :: y in r ==> y in ts
  {
    if ts == [] then []
    else
      assert ts == ts[..|ts| - 1] + [ts[|ts| - 1]];
      Insert(SortTasks(ts[..|ts| - 1]), ts[|ts| - 1])
  }

  /** A key the comparator respects on the tasks `ok` admits: a strictly greater key
      always compares greater. */
  ghost predicate Respects(key: Tasks.Task -> int, ok: Tasks.Task -> bool) {
    forall a, b :: ok(a) && ok(b) && key(a) > key(b) ==> Compare(a, b) > 0 && Compare(b, a) < 0
  }

  predicate SortedBy(key: Tasks.Task -> int, s: seq<Tasks.Task>) {
    forall i, j :: 0 <= i < j < |s| ==> key(s[i]) <= key(s[j])
  }

  /** Appending an element whose key is at least every key keeps a sequence sorted. */
  lemma SortedSnoc(key: Tasks.Task -> int, r: seq<Tasks.Task>, z: Tasks.Task)
    requires SortedBy(key, r) && forall i :: 0 <= i < |r| ==> key(r[i]) <= key(z)
    ensures SortedBy(key, r + [z])
  {
    var r' := r + [z];
    forall i, j | 0 <= i < j < |r'| ensures key(r'[i]) <= key(r'[j]) {
      assert r'[i] == r[i];
    }
  }

  /** The last element of a sorted sequence has the largest key. */
  lemma SortedLastIsMax(key: Tasks.Task -> int, s: seq<Tasks.Task>, y: Tasks.Task)
    requires SortedBy(key, s) && y in s
    ensures key(y) <= key(s[|s| - 1])
  {
    var k :| 0 <= k < |s| && s[k] == y;
  }

  lemma {:induction false} InsertSorted(key: Tasks.Task -> int, ok: Tasks.Task -> bool, s: seq<Tasks.Task>, x: Tasks.Task)
    requires SortedBy(key, s) && Respects(key, ok)
    requires ok(x) && forall y :: y in s ==> ok(y)
    ensures SortedBy(key, Insert(s, x))
  {
    if s != [] {
      var init, last := s[..|s| - 1], s[|s| - 1];
      assert s == init + [last];
      if Compare(last, x) > 0 {
        assert key(last) >= key(x);
        assert SortedBy(key, init);
        InsertSorted(key, ok, init, x);
        var r0 := Insert(init, x);
        forall i | 0 <= i < |r0| ensures key(r0[i]) <= key(last) {
          assert r0[i] in r0;
          if r0[i] != x {
            assert r0[i] in s;
            SortedLastIsMax(key, s, r0[i]);
          }
        }
        SortedSnoc(key, r0, last);
        assert Insert(s, x) == r0 + [last];
      } else {
        assert key(last) <= key(x);
        forall i | 0 <= i < |s| ensures key(s[i]) <= key(x) {
          SortedLastIsMax(key, s, s[i]);
        }
        SortedSnoc(key, s, x);
        assert Insert(s, x) == s + [x];
      }
    }
  }

  lemma {:induction false} SortTasksSortedBy(key: Tasks.Task -> int, ok: Tasks.Task -> bool, ts: seq<Tasks.Task>)
    requires Respects(key, ok) && forall y :: y in ts ==> ok(y)
    ensures SortedBy(key, SortTasks(ts))
  {
    if ts != [] {
      var init := ts[..|ts| - 1];
      SortTasksSortedBy(key, ok, init);
      InsertSorted(key, ok, SortTasks(init), ts[|ts| - 1]);
    }
  }

  function CompletedKey(): Tasks.Task -> int {
    (t: Tasks.Task) => if t.completed then 1 else 0
  }

  function AnyTask(): Tasks.Task -> bool {
    (t: Tasks.Task) => true
  }

  function RankOf(t: Tasks.Task): int {
    Rank(t.priority).GetOr(0)
  }

  /** The sort key when every priority is known: completion first, then the rank. */
  function PriorityKey(): Tasks.Task -> int {
    (t: Tasks.Task) => (if t.completed then 3 else 0) + RankOf(t)
  }

  predicate KnownPriority(t: Tasks.Task) {
    t.priority in {"high", "medium", "low"}
  }

  /** The sorted list is a permutation of the input with every open task before every
      completed one. */
  lemma SortTasksCompletedLast(ts: seq<Tasks.Task>)
    ensures multiset(SortTasks(ts)) == multiset(ts)
    ensures forall i, j :: 0 <= i < j < |ts| && SortTasks(ts)[i].completed ==> SortTasks(ts)[j].completed
  {
    var r := SortTasks(ts);
    SortTasksSortedBy(CompletedKey(), AnyTask(), ts);
    forall i, j | 0 <= i < j < |ts| && r[i].completed ensures r[j].completed {
      assert CompletedKey()(r[i]) <= CompletedKey()(r[j]);
    }
  }

  /** When every priority is high, medium or low, each completion group of the sorted
      list runs high, medium, low. */
  lemma SortTasksPriorityOrder(ts: seq<Tasks.Task>)
    requires forall t :: t in ts ==> KnownPriority(t)
    ensures forall i, j :: 0 <= i < j < |ts| && SortTasks(ts)[i].completed == SortTasks(ts)[j].completed ==>
      RankOf(SortTasks(ts)[i]) <= RankOf(SortTasks(ts)[j])
  {
    var r := SortTasks(ts);
    SortTasksSortedBy(PriorityKey(), KnownPriority, ts);
    forall i, j | 0 <= i < j < |ts| && r[i].completed == r[j].completed
      ensures RankOf(r[i]) <= RankOf(r[j])
    {
      assert PriorityKey()(r[i]) <= PriorityKey()(r[j]);
    }
  }

  /** A task of unknown priority compares equal to any open task of a different
      priority, so priorities are only ordered when all are known: low, then unknown, then
      high stays as it is. */
  lemma UnknownPriorityBlocksOrder(low: Tasks.Task, odd: Tasks.Task, high: Tasks.Task)
    requires !low.completed && !odd.completed && !high.completed
    requires low.priority == "low" && odd.priority == "urgent" && high.priority == "high"
    ensures SortTasks([low, odd, high]) == [low, odd, high]
  {
    assert [low, odd, high][..2] == [low, odd];
    assert [low, odd][..1] == [low];
    assert SortTasks([low]) == [low] by {
      assert [low][..0] == [];
    }
    assert Compare(low, odd) == 0;
    assert SortTasks([low, odd]) == [low, odd];
    assert Compare(odd, high) == 0;
  }

  // ----- visibility and counts -----

  /** The visibility rule of applyFiltersAndSort for one task, with the search box's
      text, the current filter, the hide-completed switch and today's date string. */
  predicate IsVisible(t: Tasks.Task, search: string, filter: string, hideCompleted: bool, today: string) {
    var q := Lower(search);
    && (q == "" || Contains(Lower(t.title), q))
    && (filter == "active" ==> !t.completed)
    && (filter == "overdue" ==> !t.completed && Truthy(t.deadline) && StrLess(t.deadline.value, today))
    && (filter == "today" ==> t.deadline == Some(today))
    && (filter == "high" ==> !t.completed && t.priority == "high")
    && (hideCompleted ==> !t.completed)
  }

  /** The rules of the visibility filter: hiding completed tasks and the 'active',
      'overdue' and 'high' filters never show a completed task; the search ignores the
      case of the query; any other filter value shows what 'all' shows. */
  lemma VisibilityRules(t: Tasks.Task, search: string, filter: string, hideCompleted: bool, today: string)
    ensures (hideCompleted || filter in {"active", "overdue", "high"}) && t.completed ==>
      !IsVisible(t, search, filter, hideCompleted, today)
    ensures IsVisible(t, Lower(search), filter, hideCompleted, today) == IsVisible(t, search, filter, hideCompleted, today)
    ensures filter !in {"active", "overdue", "today", "high"} ==>
      IsVisible(t, search, filter, hideCompleted, today) == IsVisible(t, search, "all", hideCompleted, today)
    ensures filter == "today" ==> (IsVisible(t, search, filter, hideCompleted, today) ==> t.deadline == Some(today))
    ensures IsVisible(t, "", "all", false, today)
  {
    LowerIdempotent(search);
  }

  predicate IsActive(t: Tasks.Task) {
    !t.completed
  }

  predicate IsOverdue(t: Tasks.Task, today: string) {
    !t.completed && Truthy(t.deadline) && StrLess(t.deadline.value, today)
  }

  predicate IsDueToday(t: Tasks.Task, today: string) {
    t.deadline == Some(today)
  }

  predicate IsOpenHigh(t: Tasks.Task) {
    !t.completed && t.priority == "high"
  }

  /** Open tasks due from today up to the date a week ahead. */
  predicate IsDueThisWeek(t: Tasks.Task, today: string, weekEnd: string) {
    !t.completed && Truthy(t.deadline) && !StrLess(t.deadline.value, today) && !StrLess(weekEnd, t.deadline.value)
  }

  function Overdue(today: string): Tasks.Task -> bool {
    t => IsOverdue(t, today)
  }

  function DueToday(today: string): Tasks.Task -> bool {
    t => IsDueToday(t, today)
  }

  function DueThisWeek(today: string, weekEnd: string): Tasks.Task -> bool {
    t => IsDueThisWeek(t, today, weekEnd)
  }

  function VisibleUnder(filter: string, today: string): Tasks.Task -> bool {
    t => IsVisible(t, "", filter, false, today)
  }

  datatype FilterCounts = FilterCounts(all: nat, active: nat, overdue: nat, today: nat, high: nat, week: nat)

  /** The counts of updateFilterCounts. */
  function Counts(ts: seq<Tasks.Task>, today: string, weekEnd: string): FilterCounts {
    FilterCounts(|ts|, |Filter(ts, IsActive)|, |Filter(ts, Overdue(today))|,
      |Filter(ts, DueToday(today))|, |Filter(ts, IsOpenHigh)|, |Filter(ts, DueThisWeek(today, weekEnd))|)
  }

  /** Overdue, high-priority and this-week tasks are all open, and overdue and this-week
      tasks never overlap. */
  lemma CountBounds(ts: seq<Tasks.Task>, today: string, weekEnd: string)
    ensures var c := Counts(ts, today, weekEnd);
      c.active <= c.all && c.overdue <= c.active && c.high <= c.active && c.week <= c.active
      && c.today <= c.all
    ensures forall t :: IsOverdue(t, today) ==> !IsDueThisWeek(t, today, weekEnd)
    ensures var c := Counts(ts, today, weekEnd); c.overdue + c.week <= c.active
  {
    FilterDisjointSum(ts, Overdue(today), DueThisWeek(today, weekEnd), IsActive);
    FilterMonotone(ts, Overdue(today), IsActive);
    FilterMonotone(ts, IsOpenHigh, IsActive);
    FilterMonotone(ts, DueThisWeek(today, weekEnd), IsActive);
  }

  /** The count on each filter button is the number of tasks that filter shows when the
      search box is empty and completed tasks are not hidden. */
  lemma CountsMatchFilters(ts: seq<Tasks.Task>, today: string, weekEnd: string)
    ensures Counts(ts, today, weekEnd).all == |Filter(ts, VisibleUnder("all", today))|
    ensures Counts(ts, today, weekEnd).active == |Filter(ts, VisibleUnder("active", today))|
    ensures Counts(ts, today, weekEnd).overdue == |Filter(ts, VisibleUnder("overdue", today))|
    ensures Counts(ts, today, weekEnd).today == |Filter(ts, VisibleUnder("today", today))|
    ensures Counts(ts, today, weekEnd).high == |Filter(ts, VisibleUnder("high", today))|
  {
    FilterExt(ts, IsActive, VisibleUnder("active", today));
    FilterExt(ts, Overdue(today), VisibleUnder("overdue", today));
    FilterExt(ts, DueToday(today), VisibleUnder("today", today));
    FilterExt(ts, IsOpenHigh, VisibleUnder("high", today));
    assert forall i :: 0 <= i < |ts| ==> VisibleUnder("all", today)(ts[i]);
    FilterAll(ts, VisibleUnder("all", today));
  }

  // ----- the toolbar state -----

  /** The module-level toolbar state: currentFilter, hideCompleted and focusModeActive. */
  class Toolbar {
    var currentFilter: string
    var hideCompleted: bool
    var focusModeActive: bool

    constructor ()
      ensures currentFilter == "all" && !hideCompleted && !focusModeActive
    {
      currentFilter := "all";
      hideCompleted := false;
      focusModeActive := false;
    }

    method SetTaskFilter(filter: string)
      modifies this`currentFilter
      ensures currentFilter == filter
    {
      currentFilter := filter;
    }

    method ToggleCompletedTasks()
      modifies this`hideCompleted
      ensures hideCompleted == !old(hideCompleted)
    {
      hideCompleted := !hideCompleted;
    }

    /** Focus mode on shows the open high-priority tasks; off shows everything again. */
    method ToggleFocusMode()
      modifies this`focusModeActive, this`currentFilter
      ensures focusModeActive == !old(focusModeActive)
      ensures currentFilter == (if focusModeActive then "high" else "all")
    {
      focusModeActive := !focusModeActive;
      if focusModeActive {
        SetTaskFilter("high");
      } else {
        SetTaskFilter("all");
      }
    }

    predicate Shows(t: Tasks.Task, search: string, today: string)
      reads this
    {
      IsVisible(t, search, currentFilter, hideCompleted, today)
    }
  }

  /** Toggling the hide-completed switch twice restores it, and toggling focus mode twice
      restores focus mode; the filter then is whatever leaving or entering focus mode set
      last, so a filter chosen before is lost.  Under focus mode only open high-priority
      tasks are shown. */
  method ToggleTwice(tb: Toolbar, t: Tasks.Task, search: string, today: string)
    modifies tb
    ensures tb.hideCompleted == old(tb.hideCompleted)
    ensures tb.focusModeActive == old(tb.focusModeActive)
    ensures tb.currentFilter == (if old(tb.focusModeActive) then "high" else "all")
  {
    tb.ToggleCompletedTasks();
    tb.ToggleCompletedTasks();
    tb.ToggleFocusMode();
    assert tb.focusModeActive ==> (tb.Shows(t, search, today) ==> !t.completed && t.priority == "high");
    tb.ToggleFocusMode();
  }

  // ----- linkTaskToProject -----

  /** linkTaskToProject with the number typed into the prompt, already parsed (None for a
      cancelled, empty or non-numeric answer).  The task's projectName becomes the chosen
      project of its category only for a number from 1 to the number of such projects. */
  method LinkTaskToProject(tm: Tasks.TaskManager, pm: Projects.ProjectsManager, taskId: string, choice: Option<int>)
    modifies tm
    ensures var t := Tasks.TaskById(old(tm.tasks), taskId);
      var names := if t.Some? then ProjectNames(Projects.ProjectsByCategory(pm.projects, t.value.category)) else [];
      if t.Some? && choice.Some? && 1 <= choice.value <= |names| then
        var i := Tasks.IndexOfTask(old(tm.tasks), taskId);
        tm.tasks == old(tm.tasks)[i := Tasks.Merge(old(tm.tasks)[i], Tasks.ProjectNamePatch(names[choice.value - 1]))]
        && tm.stored == Parsed(tm.tasks)
      else tm.tasks == old(tm.tasks) && tm.stored == old(tm.stored)
    ensures tm.memos == old(tm.memos) && tm.storedMemos == old(tm.storedMemos) && tm.legacy == old(tm.legacy)
  {
    var t := Tasks.TaskById(tm.tasks, taskId);
    if t.None? {
      return;
    }
    var projects := Projects.ProjectsByCategory(pm.projects, t.value.category);
    var names := ProjectNames(projects);
    if |projects| == 0 {
      assert names == [];
      return;
    }
    if choice.Some? {
      var idx := choice.value - 1;
      if 0 <= idx < |names| {
        var i := Tasks.IndexOfTask(tm.tasks, taskId);
        assert i != -1;
        var patch := Tasks.ProjectNamePatch(names[idx]);
        var _ := tm.UpdateTask(taskId, patch);
        assert tm.tasks == old(tm.tasks)[i := Tasks.Merge(old(tm.tasks)[i], patch)];
      }
    }
  }

  function ProjectNames(ps: seq<Projects.Project>): (r: seq<string>)
    ensures |r| == |ps| && forall i :: 0 <= i < |ps| ==> r[i] == ps[i].name
  {
    seq(|ps|, i requires 0 <= i < |ps| => ps[i].name)
  }
}
