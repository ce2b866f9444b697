/** The loose task objects that js/calendar.js and js/stats.js gather from the three
    stores into one list: dashboard tasks as stored, project tasks with their project's
    fields spread in, and planner todos flattened with synthetic ids. */
module Items {
  import opened Common
  import Tasks
  import Projects

  /** The `source` tag: dashboard tasks carry none. */
  datatype Source = Untagged | FromProject | FromPlanner

  datatype PlannerKind = Daily | Week | Month

  /** The fields of a gathered item that the calendar and statistics read; a field the
      object lacks is None. */
  datatype Item = Item(
    id: string, title: string, deadline: Option<string>, completed: bool,
    completedAt: Option<string>, priority: Option<string>, category: Option<string>,
    source: Source, projectId: Option<string>, projectName: Option<string>,
    projectIcon: Option<string>, plannerType: Option<PlannerKind>, itemLabel: Option<string>)

  /** A dashboard task as it appears in the combined list. */
  function FromTask(t: Tasks.Task): (it: Item)
    ensures it.id == t.id && it.title == t.title && it.deadline == t.deadline
    ensures it.completed == t.completed && it.completedAt == t.completedAt
    ensures it.priority == Some(t.priority) && it.category == Some(t.category)
    ensures it.source == Untagged && it.projectName == Some(t.projectName)
    ensures it.projectId.None? && it.plannerType.None?
  {
    Item(t.id, t.title, t.deadline, t.completed, t.completedAt, Some(t.priority), Some(t.category),
      Untagged, None, Some(t.projectName), None, None, None)
  }

  function FromTasks(ts: seq<Tasks.Task>): (r: seq<Item>)
    ensures |r| == |ts| && forall i :: 0 <= i < |ts| ==> r[i] == FromTask(ts[i])
  {
    seq(|ts|, i requires 0 <= i < |ts| => FromTask(ts[i]))
  }

  /** `{...task, category, projectId, projectName[, projectIcon], source: 'project'}`:
      the calendar copies the project's icon, the statistics page does not. */
  function FromProjectTask(p: Projects.Project, t: Projects.ProjectTask, withIcon: bool): (it: Item)
    ensures it.id == t.id && it.title == t.title && it.deadline == t.deadline
    ensures it.completed == t.completed && it.completedAt == t.completedAt && it.priority == Some(t.priority)
    ensures it.category == Some(p.category) && it.projectId == Some(p.id) && it.projectName == Some(p.name)
    ensures it.projectIcon == (if withIcon then Some(p.icon) else None)
    ensures it.source == FromProject && it.plannerType.None?
  {
    Item(t.id, t.title, t.deadline, t.completed, t.completedAt, Some(t.priority), Some(p.category),
      FromProject, Some(p.id), Some(p.name), if withIcon then Some(p.icon) else None, None, None)
  }

  function ProjectItems(p: Projects.Project, withIcon: bool): (r: seq<Item>)
    ensures |r| == |p.tasks|
    ensures forall i :: 0 <= i < |r| ==> r[i] == FromProjectTask(p, p.tasks[i], withIcon)
  {
    seq(|p.tasks|, i requires 0 <= i < |p.tasks| => FromProjectTask(p, p.tasks[i], withIcon))
  }

  function TaskTotal(ps: seq<Projects.Project>): nat {
    if ps == [] then 0 else TaskTotal(ps[..|ps| - 1]) + |ps[|ps| - 1].tasks|
  }

  /** getProjectTasks: every embedded task of every project, project by project, each
      tagged with its own project. */
  function ProjectTaskItems(ps: seq<Projects.Project>, withIcon: bool): (r: seq<Item>)
    ensures |r| == TaskTotal(ps)
    ensures forall it :: it in r ==>
      (it.source == FromProject && exists p, t :: p in ps && t in p.tasks && it == FromProjectTask(p, t, withIcon))
  {
    if ps == [] then []
    else
      var p := ps[|ps| - 1];
      var r := ProjectTaskItems(ps[..|ps| - 1], withIcon) + ProjectItems(p, withIcon);
      assert forall it :: it in ProjectItems(p, withIcon) ==> it == FromProjectTask(p, p.tasks[IndexIn(ProjectItems(p, withIcon), it)], withIcon);
      r
  }

  function IndexIn<T(==)>(s: seq<T>, x: T): (i: nat)
    requires x in s
    ensures i < |s| && s[i] == x
  {
    if s[0] == x then 0 else 1 + IndexIn(s[1..], x)
  }

  /** Every embedded task of every project appears in the flattened list. */
  lemma {:induction false} ProjectTaskItemsComplete(ps: seq<Projects.Project>, withIcon: bool, p: Projects.Project, t: Projects.ProjectTask)
    requires p in ps && t in p.tasks
    ensures FromProjectTask(p, t, withIcon) in ProjectTaskItems(ps, withIcon)
  {
    var last := ps[|ps| - 1];
    if p == last {
      var i := IndexIn(p.tasks, t);
      assert ProjectItems(p, withIcon)[i] == FromProjectTask(p, t, withIcon);
    } else {
      assert p in ps[..|ps| - 1];
      ProjectTaskItemsComplete(ps[..|ps| - 1], withIcon, p, t);
    }
  }

  /** The two copies of getProjectTasks differ only in the icon. */
  lemma {:induction false} ProjectTaskItemsIconOnly(ps: seq<Projects.Project>)
    ensures |ProjectTaskItems(ps, true)| == |ProjectTaskItems(ps, false)|
    ensures forall i :: 0 <= i < |ProjectTaskItems(ps, true)| ==>
      ProjectTaskItems(ps, true)[i].(projectIcon := None) == ProjectTaskItems(ps, false)[i]
  {
    if ps != [] {
      ProjectTaskItemsIconOnly(ps[..|ps| - 1]);
    }
  }
}
