/** The cross-store queries of js/data.js (DataSync) over the task store and the project
    store. */
module DataSync {
  import opened Common
  import opened Strings
  import opened Seqs
  import Tasks
  import Projects

  type Task = Tasks.Task
  type Project = Projects.Project

  /** An entry of getAllTasksForDate: a dashboard task tagged with source 'dashboard', or
      the synthetic item standing for a project due that day (source 'project'). */
  datatype DayEntry =
    | DashboardEntry(task: Task)
    | ProjectEntry(id: string, title: string, deadline: Option<string>, completed: bool,
                   priority: string, projectId: string)

  /** The item a project due on the date becomes. */
  function ProjectDayEntry(p: Project): (e: DayEntry)
    ensures e.ProjectEntry? && e.id == p.id && e.projectId == p.id && e.deadline == p.deadline
    ensures e.title == "\U{1F4C2} " + p.name && e.priority == "high"
    ensures e.completed <==> p.status == "completed"
  {
    ProjectEntry(p.id, "\U{1F4C2} " + p.name, p.deadline, p.status == "completed", "high", p.id)
  }

  /** getTasksByDate. */
  function TasksByDate(ts: seq<Task>, date: string): (r: seq<Task>)
    ensures forall t :: t in r <==> t in ts && t.deadline == Some(date)
  {
    FilterMembersAll(ts, (t: Task) => t.deadline == Some(date));
    Filter(ts, (t: Task) => t.deadline == Some(date))
  }

  function DueTaskEntries(ts: seq<Task>, date: string): seq<DayEntry> {
    if ts == [] then []
    else
      DueTaskEntries(ts[..|ts| - 1], date)
        + (if ts[|ts| - 1].deadline == Some(date) then [DashboardEntry(ts[|ts| - 1])] else [])
  }

  function DueProjectEntries(ps: seq<Project>, date: string): seq<DayEntry> {
    if ps == [] then []
    else
      DueProjectEntries(ps[..|ps| - 1], date)
        + (if ps[|ps| - 1].deadline == Some(date) then [ProjectDayEntry(ps[|ps| - 1])] else [])
  }

  /** What getAllTasksForDate returns: the due dashboard tasks, then the due projects.
      Tasks embedded in projects are not consulted. */
  function AllTasksForDate(ts: seq<Task>, ps: seq<Project>, date: string): seq<DayEntry> {
    DueTaskEntries(ts, date) + DueProjectEntries(ps, date)
  }

  lemma {:induction false} DueTaskEntriesMembers(ts: seq<Task>, date: string, e: DayEntry)
    ensures e in DueTaskEntries(ts, date) <==> e.DashboardEntry? && e.task in ts && e.task.deadline == Some(date)
  {
    if ts != [] {
      DueTaskEntriesMembers(ts[..|ts| - 1], date, e);
      assert ts == ts[..|ts| - 1] + [ts[|ts| - 1]];
    }
  }

  lemma {:induction false} DueProjectEntriesMembers(ps: seq<Project>, date: string, e: DayEntry)
    ensures e in DueProjectEntries(ps, date)
        <==> exists p :: p in ps && p.deadline == Some(date) && e == ProjectDayEntry(p)
  {
    if ps != [] {
      var init, last := ps[..|ps| - 1], ps[|ps| - 1];
      DueProjectEntriesMembers(init, date, e);
      assert ps == init + [last];
      if exists p :: p in ps && p.deadline == Some(date) && e == ProjectDayEntry(p) {
        var p :| p in ps && p.deadline == Some(date) && e == ProjectDayEntry(p);
        if p != last {
          assert p in init;
        }
      }
    }
  }

  /** An entry is listed for a date exactly when it is a dashboard task due that day or
      stands for a project due that day. */
  lemma AllTasksForDateMembers(ts: seq<Task>, ps: seq<Project>, date: string, e: DayEntry)
    ensures e in AllTasksForDate(ts, ps, date) <==>
      (e.DashboardEntry? && e.task in ts && e.task.deadline == Some(date))
      || (exists p :: p in ps && p.deadline == Some(date) && e == ProjectDayEntry(p))
  {
    DueTaskEntriesMembers(ts, date, e);
    DueProjectEntriesMembers(ps, date, e);
  }

  /** getAllTasksForDate: two accumulator loops, one per store. */
  method GetAllTasksForDate(ts: seq<Task>, ps: seq<Project>, date: string) returns (entries: seq<DayEntry>)
    ensures entries == AllTasksForDate(ts, ps, date)
  {
    entries := [];
    var i := 0;
    while i < |ts|
      invariant 0 <= i <= |ts|
      invariant entries == DueTaskEntries(ts[..i], date)
    {
      assert ts[..i + 1][..i] == ts[..i];
      if ts[i].deadline == Some(date) {
        entries := entries + [DashboardEntry(ts[i])];
      }
      i := i + 1;
    }
    assert ts[..i] == ts;
    var j := 0;
    while j < |ps|
      invariant 0 <= j <= |ps|
      invariant entries == DueTaskEntries(ts, date) + DueProjectEntries(ps[..j], date)
    {
      assert ps[..j + 1][..j] == ps[..j];
      if ps[j].deadline == Some(date) {
        entries := entries + [ProjectDayEntry(ps[j])];
      }
      j := j + 1;
    }
    assert ps[..j] == ps;
  }

  /** `d && d >= startStr && d <= endStr` on date strings. */
  predicate InWeek(d: Option<string>, startStr: string, endStr: string) {
    d.Some? && d.value != "" && !StrLess(d.value, startStr) && !StrLess(endStr, d.value)
  }

  datatype DeadlineKind = TaskDeadline | ProjectDeadline

  datatype DeadlineEntry = DeadlineEntry(kind: DeadlineKind, title: string, deadline: string)

  datatype WeeklySummary = WeeklySummary(
    tasks: seq<Task>, projects: seq<Project>, deadlines: seq<DeadlineEntry>)

  /** The deadline pushed for an unfinished task of the week. */
  function TaskDeadlineEntry(t: Task): DeadlineEntry {
    DeadlineEntry(TaskDeadline, t.title, t.deadline.GetOr(""))
  }

  /** The deadline pushed for an unfinished project of the week, titled with the folder icon. */
  function ProjectDeadlineEntry(p: Project): DeadlineEntry {
    DeadlineEntry(ProjectDeadline, "\U{1F4C2} " + p.name, p.deadline.GetOr(""))
  }

  /** summary.tasks: the tasks due within the week, in store order. */
  function WeekTasks(ts: seq<Task>, s: string, e: string): (r: seq<Task>)
    ensures forall t :: t in r <==> t in ts && InWeek(t.deadline, s, e)
  {
    if ts == [] then []
    else
      assert ts == ts[..|ts| - 1] + [ts[|ts| - 1]];
      WeekTasks(ts[..|ts| - 1], s, e)
        + (if InWeek(ts[|ts| - 1].deadline, s, e) then [ts[|ts| - 1]] else [])
  }

  /** summary.projects: the projects due within the week, in store order. */
  function WeekProjects(ps: seq<Project>, s: string, e: string): (r: seq<Project>)
    ensures forall p :: p in r <==> p in ps && InWeek(p.deadline, s, e)
  {
    if ps == [] then []
    else
      assert ps == ps[..|ps| - 1] + [ps[|ps| - 1]];
      WeekProjects(ps[..|ps| - 1], s, e)
        + (if InWeek(ps[|ps| - 1].deadline, s, e) then [ps[|ps| - 1]] else [])
  }

  /** The tasks of the week that are still open, in store order: the ones given a deadline. */
  function OpenWeekTasks(ts: seq<Task>, s: string, e: string): (r: seq<Task>)
    ensures forall t :: t in r <==> t in ts && InWeek(t.deadline, s, e) && !t.completed
  {
    if ts == [] then []
    else
      var t := ts[|ts| - 1];
      assert ts == ts[..|ts| - 1] + [t];
      OpenWeekTasks(ts[..|ts| - 1], s, e) + (if InWeek(t.deadline, s, e) && !t.completed then [t] else [])
  }

  /** The projects of the week that are not completed, in store order. */
  function OpenWeekProjects(ps: seq<Project>, s: string, e: string): (r: seq<Project>)
    ensures forall p :: p in r <==> p in ps && InWeek(p.deadline, s, e) && p.status != "completed"
  {
    if ps == [] then []
    else
      var p := ps[|ps| - 1];
      assert ps == ps[..|ps| - 1] + [p];
      OpenWeekProjects(ps[..|ps| - 1], s, e)
        + (if InWeek(p.deadline, s, e) && p.status != "completed" then [p] else [])
  }

  function TaskDeadlines(ts: seq<Task>, s: string, e: string): seq<DeadlineEntry> {
    if ts == [] then []
    else
      var t := ts[|ts| - 1];
      TaskDeadlines(ts[..|ts| - 1], s, e)
        + (if InWeek(t.deadline, s, e) && !t.completed then [TaskDeadlineEntry(t)] else [])
  }

  function ProjectDeadlines(ps: seq<Project>, s: string, e: string): seq<DeadlineEntry> {
    if ps == [] then []
    else
      var p := ps[|ps| - 1];
      ProjectDeadlines(ps[..|ps| - 1], s, e)
        + (if InWeek(p.deadline, s, e) && p.status != "completed" then [ProjectDeadlineEntry(p)] else [])
  }

  /** What getWeeklySummary returns for the week from `s` to `e` (both "YYYY-MM-DD"). */
  function Summary(ts: seq<Task>, ps: seq<Project>, s: string, e: string): WeeklySummary {
    WeeklySummary(WeekTasks(ts, s, e), WeekProjects(ps, s, e),
                  TaskDeadlines(ts, s, e) + ProjectDeadlines(ps, s, e))
  }

  /** The task deadlines are, position by position, the entries of the open tasks of the
      week: one per such task, none for anything else. */
  lemma {:induction false} TaskDeadlinesExact(ts: seq<Task>, s: string, e: string)
    ensures |TaskDeadlines(ts, s, e)| == |OpenWeekTasks(ts, s, e)|
    ensures forall k :: 0 <= k < |TaskDeadlines(ts, s, e)| ==>
      TaskDeadlines(ts, s, e)[k] == TaskDeadlineEntry(OpenWeekTasks(ts, s, e)[k])
  {
    if ts != [] {
      TaskDeadlinesExact(ts[..|ts| - 1], s, e);
    }
  }

  /** The project deadlines are, position by position, the entries of the week's projects
      that are not completed. */
  lemma {:induction false} ProjectDeadlinesExact(ps: seq<Project>, s: string, e: string)
    ensures |ProjectDeadlines(ps, s, e)| == |OpenWeekProjects(ps, s, e)|
    ensures forall k :: 0 <= k < |ProjectDeadlines(ps, s, e)| ==>
      ProjectDeadlines(ps, s, e)[k] == ProjectDeadlineEntry(OpenWeekProjects(ps, s, e)[k])
  {
    if ps != [] {
      ProjectDeadlinesExact(ps[..|ps| - 1], s, e);
    }
  }

  lemma {:induction false} TaskDeadlinesBound(ts: seq<Task>, s: string, e: string)
    ensures |TaskDeadlines(ts, s, e)| <= |WeekTasks(ts, s, e)|
    ensures forall d :: d in TaskDeadlines(ts, s, e) ==>
      (d.kind == TaskDeadline
       && exists t :: t in WeekTasks(ts, s, e) && !t.completed && d.title == t.title && Some(d.deadline) == t.deadline)
  {
    if ts != [] {
      TaskDeadlinesBound(ts[..|ts| - 1], s, e);
    }
  }

  lemma {:induction false} ProjectDeadlinesBound(ps: seq<Project>, s: string, e: string)
    ensures |ProjectDeadlines(ps, s, e)| <= |WeekProjects(ps, s, e)|
    ensures forall d :: d in ProjectDeadlines(ps, s, e) ==>
      (d.kind == ProjectDeadline
       && exists p :: p in WeekProjects(ps, s, e) && p.status != "completed" && Some(d.deadline) == p.deadline)
  {
    if ps != [] {
      ProjectDeadlinesBound(ps[..|ps| - 1], s, e);
    }
  }

  /** Every open task and every unfinished project due in the week has its deadline entry. */
  /** An open task due in the week has its deadline entry among the task deadlines. */
  lemma TaskDeadlineListed(ts: seq<Task>, s: string, e: string, t: Task)
    requires t in ts && InWeek(t.deadline, s, e) && !t.completed
    ensures TaskDeadlineEntry(t) in TaskDeadlines(ts, s, e)
  {
    var ot := OpenWeekTasks(ts, s, e);
    TaskDeadlinesExact(ts, s, e);
    assert t in ot;
    var k :| 0 <= k < |ot| && ot[k] == t;
    assert TaskDeadlines(ts, s, e)[k] == TaskDeadlineEntry(t);
  }

  /** An unfinished project due in the week has its entry among the project deadlines. */
  lemma ProjectDeadlineListed(ps: seq<Project>, s: string, e: string, p: Project)
    requires p in ps && InWeek(p.deadline, s, e) && p.status != "completed"
    ensures ProjectDeadlineEntry(p) in ProjectDeadlines(ps, s, e)
  {
    var op := OpenWeekProjects(ps, s, e);
    ProjectDeadlinesExact(ps, s, e);
    assert p in op;
    var k :| 0 <= k < |op| && op[k] == p;
    assert ProjectDeadlines(ps, s, e)[k] == ProjectDeadlineEntry(p);
  }

  lemma SummaryDeadlinesComplete(ts: seq<Task>, ps: seq<Project>, s: string, e: string)
    ensures var r := Summary(ts, ps, s, e);
      (forall t :: t in ts && InWeek(t.deadline, s, e) && !t.completed ==> TaskDeadlineEntry(t) in r.deadlines)
      && (forall p :: p in ps && InWeek(p.deadline, s, e) && p.status != "completed" ==>
            ProjectDeadlineEntry(p) in r.deadlines)
      && |r.deadlines| == |OpenWeekTasks(ts, s, e)| + |OpenWeekProjects(ps, s, e)|
  {
    var td, pd := TaskDeadlines(ts, s, e), ProjectDeadlines(ps, s, e);
    TaskDeadlinesExact(ts, s, e);
    ProjectDeadlinesExact(ps, s, e);
    forall t | t in ts && InWeek(t.deadline, s, e) && !t.completed
      ensures TaskDeadlineEntry(t) in td + pd
    {
      TaskDeadlineListed(ts, s, e, t);
    }
    forall p | p in ps && InWeek(p.deadline, s, e) && p.status != "completed"
      ensures ProjectDeadlineEntry(p) in td + pd
    {
      ProjectDeadlineListed(ps, s, e, p);
    }
  }

  /** The summary lists exactly the week's tasks and projects, and every deadline belongs to
      an unfinished task or project of the same week, so there are at most as many
      deadlines as listed tasks and projects. */
  lemma SummaryDeadlines(ts: seq<Task>, ps: seq<Project>, s: string, e: string)
    ensures var r := Summary(ts, ps, s, e);
      (forall t :: t in r.tasks <==> t in ts && InWeek(t.deadline, s, e))
      && (forall p :: p in r.projects <==> p in ps && InWeek(p.deadline, s, e))
      && |r.deadlines| <= |r.tasks| + |r.projects|
      && forall d :: d in r.deadlines ==>
        (d.kind == TaskDeadline && exists t :: t in r.tasks && !t.completed && Some(d.deadline) == t.deadline)
        || (d.kind == ProjectDeadline && exists p :: p in r.projects && p.status != "completed" && Some(d.deadline) == p.deadline)
  {
    TaskDeadlinesBound(ts, s, e);
    ProjectDeadlinesBound(ps, s, e);
  }

  /** getWeeklySummary: the two accumulator loops; the week bounds are passed as strings. */
  method GetWeeklySummary(ts: seq<Task>, ps: seq<Project>, startStr: string, endStr: string)
    returns (summary: WeeklySummary)
    ensures summary == Summary(ts, ps, startStr, endStr)
  {
    var tasks: seq<Task> := [];
    var deadlines: seq<DeadlineEntry> := [];
    var i := 0;
    while i < |ts|
      invariant 0 <= i <= |ts|
      invariant tasks == WeekTasks(ts[..i], startStr, endStr)
      invariant deadlines == TaskDeadlines(ts[..i], startStr, endStr)
    {
      assert ts[..i + 1][..i] == ts[..i];
      var t := ts[i];
      if InWeek(t.deadline, startStr, endStr) {
        tasks := tasks + [t];
        if !t.completed {
          deadlines := deadlines + [TaskDeadlineEntry(t)];
        }
      }
      i := i + 1;
    }
    assert ts[..i] == ts;
    var projects: seq<Project> := [];
    var j := 0;
    while j < |ps|
      invariant 0 <= j <= |ps|
      invariant projects == WeekProjects(ps[..j], startStr, endStr)
      invariant deadlines == TaskDeadlines(ts, startStr, endStr) + ProjectDeadlines(ps[..j], startStr, endStr)
    {
      assert ps[..j + 1][..j] == ps[..j];
      var p := ps[j];
      if InWeek(p.deadline, startStr, endStr) {
        projects := projects + [p];
        if p.status != "completed" {
          deadlines := deadlines + [ProjectDeadlineEntry(p)];
        }
      }
      j := j + 1;
    }
    assert ps[..j] == ps;
    summary := WeeklySummary(tasks, projects, deadlines);
  }

  datatype CategoryStat = CategoryStat(
    taskCount: nat, completedTasks: nat, projectCount: nat, activeProjects: nat)

  const StatCategories: seq<string> := ["work", "research", "certification", "private"]

  function StatFor(ts: seq<Task>, ps: seq<Project>, category: string): (st: CategoryStat)
    ensures st.completedTasks <= st.taskCount && st.activeProjects <= st.projectCount
    ensures st.taskCount == |Tasks.TasksByCategory(ts, category)|
    ensures st.projectCount == Projects.CategoryCount(ps, category)
  {
    var tasks := Tasks.TasksByCategory(ts, category);
    var projects := Projects.ProjectsByCategory(ps, category);
    CategoryStat(|tasks|, |Filter(tasks, (t: Task) => t.completed)|,
                 |projects|, |Filter(projects, (p: Project) => p.status != "completed")|)
  }

  /** getCategoryStats: one entry per fixed category, in order. */
  function CategoryStats(ts: seq<Task>, ps: seq<Project>): (r: seq<(string, CategoryStat)>)
    ensures |r| == 4
    ensures forall i :: 0 <= i < 4 ==> r[i] == (StatCategories[i], StatFor(ts, ps, StatCategories[i]))
  {
    seq(4, i requires 0 <= i < 4 => (StatCategories[i], StatFor(ts, ps, StatCategories[i])))
  }

  /** getCategoryByProjectName. */
  function CategoryByProjectName(ps: seq<Project>, name: string): (r: Option<string>)
    ensures r.Some? <==> exists j :: 0 <= j < |ps| && ps[j].name == name
    ensures r.Some? ==> exists k :: (0 <= k < |ps| && ps[k].name == name && ps[k].category == r.value
      && forall j :: 0 <= j < k ==> ps[j].name != name)
  {
    match Projects.ProjectByName(ps, name)
    case None => None
    case Some(p) => Some(p.category)
  }

  /** linkTaskToProject: an update carrying only the project name, when the task exists. */
  method LinkTaskToProject(tm: Tasks.TaskManager, taskId: string, projectName: string)
    modifies tm
    ensures var i := Tasks.IndexOfTask(old(tm.tasks), taskId);
      if i == -1 then tm.tasks == old(tm.tasks) && tm.stored == old(tm.stored)
      else (tm.tasks == old(tm.tasks)[i := old(tm.tasks)[i].(projectName := projectName)]
        && tm.stored == Parsed(tm.tasks))
    ensures tm.memos == old(tm.memos) && tm.legacy == old(tm.legacy) && tm.storedMemos == old(tm.storedMemos)
  {
    var found := Tasks.TaskById(tm.tasks, taskId);
    if found.Some? {
      var _ := tm.UpdateTask(taskId, Tasks.ProjectNamePatch(projectName));
    }
  }
}
