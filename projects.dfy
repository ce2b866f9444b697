/** The project store of js/data.js (ProjectsManager): projects, each carrying its own
    list of tasks, mirrored into one browser storage key. */
module Projects {
  import opened Common
  import opened Seqs
  import Tasks

  datatype ProjectTask = ProjectTask(
    id: string, title: string, completed: bool, priority: string, createdAt: string,
    deadline: Option<string>, completedAt: Option<string>)

  datatype Project = Project(
    id: string, name: string, icon: string, category: string, status: string,
    deadline: Option<string>, description: string, tasks: seq<ProjectTask>,
    createdAt: string, updatedAt: string)

  /** The argument of addProject; a field the caller leaves out is None. */
  datatype ProjectInput = ProjectInput(
    name: string, icon: Option<string>, category: Option<string>, status: Option<string>,
    deadline: Option<string>, description: Option<string>)

  /** The fields present in the `updates` object of updateProject. */
  datatype ProjectPatch = ProjectPatch(
    id: Option<string>, name: Option<string>, icon: Option<string>,
    category: Option<string>, status: Option<string>, deadline: Option<Option<string>>,
    description: Option<string>, tasks: Option<seq<ProjectTask>>, createdAt: Option<string>)

  /** The project addProject builds from its argument, a fresh id and the current time. */
  function NewProject(input: ProjectInput, id: string, now: string): (p: Project)
    ensures p.id == id && p.name == input.name && p.tasks == []
    ensures p.createdAt == now && p.updatedAt == now
    ensures p.icon == (if Truthy(input.icon) then input.icon.value else "\U{1F4C2}")
    ensures p.category == (if Truthy(input.category) then input.category.value else "work")
    ensures p.status == (if Truthy(input.status) then input.status.value else "planning")
    ensures p.deadline == (if Truthy(input.deadline) then input.deadline else None)
  {
    Project(id, input.name, OrDefault(input.icon, "\U{1F4C2}"), OrDefault(input.category, "work"),
            OrDefault(input.status, "planning"), OrNull(input.deadline),
            OrDefault(input.description, ""), [], now, now)
  }

  /** `{...project, ...updates, updatedAt: now}`. */
  function MergeProject(p: Project, u: ProjectPatch, now: string): (r: Project)
    ensures r.updatedAt == now
    ensures u.name.None? ==> r.name == p.name
    ensures u.tasks.None? ==> r.tasks == p.tasks
    ensures r.id == u.id.GetOr(p.id) && r.icon == u.icon.GetOr(p.icon)
    ensures r.category == u.category.GetOr(p.category) && r.status == u.status.GetOr(p.status)
    ensures r.deadline == u.deadline.GetOr(p.deadline) && r.description == u.description.GetOr(p.description)
    ensures r.name == u.name.GetOr(p.name) && r.tasks == u.tasks.GetOr(p.tasks)
    ensures r.createdAt == u.createdAt.GetOr(p.createdAt)
  {
    Project(u.id.GetOr(p.id), u.name.GetOr(p.name), u.icon.GetOr(p.icon),
            u.category.GetOr(p.category), u.status.GetOr(p.status),
            u.deadline.GetOr(p.deadline), u.description.GetOr(p.description),
            u.tasks.GetOr(p.tasks), u.createdAt.GetOr(p.createdAt), now)
  }

  function IndexOfProject(ps: seq<Project>, id: string): (i: int)
    ensures -1 <= i < |ps|
    ensures i >= 0 ==> ps[i].id == id && forall j :: 0 <= j < i ==> ps[j].id != id
    ensures i == -1 ==> forall j :: 0 <= j < |ps| ==> ps[j].id != id
  {
    FindIndex(ps, (p: Project) => p.id == id)
  }

  function IndexOfProjectTask(ts: seq<ProjectTask>, id: string): (i: int)
    ensures -1 <= i < |ts|
    ensures i >= 0 ==> ts[i].id == id && forall j :: 0 <= j < i ==> ts[j].id != id
    ensures i == -1 ==> forall j :: 0 <= j < |ts| ==> ts[j].id != id
  {
    FindIndex(ts, (t: ProjectTask) => t.id == id)
  }

  /** getProject: the first project with that id. */
  function ProjectById(ps: seq<Project>, id: string): (r: Option<Project>)
    ensures r.Some? <==> exists j :: 0 <= j < |ps| && ps[j].id == id
    ensures r.Some? ==> r.value.id == id && r.value in ps
    ensures r.Some? ==> exists k :: 0 <= k < |ps| && ps[k] == r.value && forall j :: 0 <= j < k ==> ps[j].id != id
  {
    var i := IndexOfProject(ps, id);
    if i == -1 then None else Some(ps[i])
  }

  /** getProjectByName: the first project with that name. */
  function ProjectByName(ps: seq<Project>, name: string): (r: Option<Project>)
    ensures r.Some? <==> exists j :: 0 <= j < |ps| && ps[j].name == name
    ensures r.Some? ==> r.value.name == name && r.value in ps
    ensures r.Some? ==> exists k :: 0 <= k < |ps| && ps[k] == r.value && forall j :: 0 <= j < k ==> ps[j].name != name
  {
    var i := FindIndex(ps, (p: Project) => p.name == name);
    if i == -1 then None else Some(ps[i])
  }

  /** getProjectsByCategory: 'all' is every project. */
  function ProjectsByCategory(ps: seq<Project>, category: string): (r: seq<Project>)
    ensures category == "all" ==> r == ps
    ensures category != "all" ==> forall p :: p in r <==> p in ps && p.category == category
  {
    if category == "all" then ps
    else
      FilterMembersAll(ps, (p: Project) => p.category == category);
      Filter(ps, (p: Project) => p.category == category)
  }

  /** The statuses the 'active' query accepts. */
  predicate ActiveStatus(status: string) {
    status == "planning" || status == "in_progress" || status == "review"
  }

  /** getProjectsByStatus: 'active' means planning, in progress or in review. */
  function ProjectsByStatus(ps: seq<Project>, status: string): (r: seq<Project>)
    ensures status == "active" ==> forall p :: p in r <==> p in ps && ActiveStatus(p.status)
    ensures status != "active" ==> forall p :: p in r <==> p in ps && p.status == status
  {
    if status == "active" then
      FilterMembersAll(ps, (p: Project) => ActiveStatus(p.status));
      Filter(ps, (p: Project) => ActiveStatus(p.status))
    else
      FilterMembersAll(ps, (p: Project) => p.status == status);
      Filter(ps, (p: Project) => p.status == status)
  }

  /** getCategoryCount. */
  function CategoryCount(ps: seq<Project>, category: string): (n: nat)
    ensures n <= |ps|
    ensures category == "all" ==> n == |ps|
  {
    |ProjectsByCategory(ps, category)|
  }

  /** getStatusCount: unlike getProjectsByStatus, 'active' is matched literally. */
  function StatusCount(ps: seq<Project>, status: string): (n: nat)
    ensures n <= |ps|
    ensures status != "active" ==> n == |ProjectsByStatus(ps, status)|
  {
    |Filter(ps, (p: Project) => p.status == status)|
  }

  function CompletedCount(ts: seq<ProjectTask>): (n: nat)
    ensures n <= |ts|
  {
    |Filter(ts, (t: ProjectTask) => t.completed)|
  }

  lemma CompletedCountBounds(ts: seq<ProjectTask>)
    ensures (forall j :: 0 <= j < |ts| ==> ts[j].completed) ==> CompletedCount(ts) == |ts|
    ensures (forall j :: 0 <= j < |ts| ==> !ts[j].completed) ==> CompletedCount(ts) == 0
  {
    var p := (t: ProjectTask) => t.completed;
    if forall j :: 0 <= j < |ts| ==> ts[j].completed {
      FilterAll(ts, p);
    }
    if forall j :: 0 <= j < |ts| ==> !ts[j].completed {
      var r := Filter(ts, p);
      if r != [] {
        FilterMembers(ts, p, r[0]);
      }
    }
  }

  /** getProjectProgress: 0 for an unknown or empty project, otherwise the rounded
      percentage of its completed tasks. */
  function Progress(ps: seq<Project>, id: string): (r: nat)
    ensures r <= 100
    ensures ProjectById(ps, id).None? ==> r == 0
    ensures ProjectById(ps, id).Some? && ProjectById(ps, id).value.tasks == [] ==> r == 0
    ensures ProjectById(ps, id).Some? && |ProjectById(ps, id).value.tasks| > 0 ==>
      r == RoundPercent(CompletedCount(ProjectById(ps, id).value.tasks), |ProjectById(ps, id).value.tasks|)
  {
    match ProjectById(ps, id)
    case None => 0
    case Some(p) =>
      if |p.tasks| == 0 then 0
      else
        RoundPercentRange(CompletedCount(p.tasks), |p.tasks|);
        RoundPercent(CompletedCount(p.tasks), |p.tasks|)
  }

  /** Progress of a project reaches 100 when every task is done and is 0 when none is. */
  lemma ProgressExtremes(ps: seq<Project>, id: string)
    requires ProjectById(ps, id).Some?
    ensures var ts := ProjectById(ps, id).value.tasks;
      (ts != [] && forall j :: 0 <= j < |ts| ==> ts[j].completed) ==> Progress(ps, id) == 100
    ensures var ts := ProjectById(ps, id).value.tasks;
      (forall j :: 0 <= j < |ts| ==> !ts[j].completed) ==> Progress(ps, id) == 0
  {
    var ts := ProjectById(ps, id).value.tasks;
    CompletedCountBounds(ts);
    if ts != [] {
      RoundPercentRange(CompletedCount(ts), |ts|);
    }
  }

  /** getRelatedTasks, with the task store present: the dashboard tasks whose projectName
      is the project's name. */
  function RelatedTasks(ps: seq<Project>, tasks: seq<Tasks.Task>, id: string): (r: seq<Tasks.Task>)
    ensures ProjectById(ps, id).None? ==> r == []
    ensures ProjectById(ps, id).Some? ==>
      forall t :: t in r <==> t in tasks && t.projectName == ProjectById(ps, id).value.name
  {
    match ProjectById(ps, id)
    case None => []
    case Some(p) =>
      FilterMembersAll(tasks, (t: Tasks.Task) => t.projectName == p.name);
      Filter(tasks, (t: Tasks.Task) => t.projectName == p.name)
  }

  /** The task addTaskToProject appends. */
  function NewProjectTask(title: string, id: string, now: string): (t: ProjectTask)
    ensures t.title == title && t.id == id && !t.completed && t.priority == "medium"
    ensures t.createdAt == now && t.deadline.None? && t.completedAt.None?
  {
    ProjectTask(id, title, false, "medium", now, None, None)
  }

  /** The embedded task after toggleTaskInProject: only `completed` changes. */
  function FlipTask(t: ProjectTask): (r: ProjectTask)
    ensures r.completed == !t.completed && r.(completed := t.completed) == t
  {
    t.(completed := !t.completed)
  }

  class ProjectsManager {
    var projects: seq<Project>
    /** localStorage['projects_data_v1'] */
    var stored: Stored<seq<Project>>

    constructor (stored: Stored<seq<Project>>)
      ensures projects == [] && this.stored == stored
    {
      projects := [];
      this.stored := stored;
    }

    method LoadFromStorage()
      modifies this`projects
      ensures stored.Parsed? ==> projects == stored.value
      ensures !stored.Parsed? ==> projects == []
    {
      projects := if stored.Parsed? then stored.value else [];
    }

    method AddProject(input: ProjectInput, id: string, now: string) returns (project: Project)
      modifies this
      ensures project == NewProject(input, id, now)
      ensures projects == old(projects) + [project] && stored == Parsed(projects)
    {
      project := NewProject(input, id, now);
      projects := projects + [project];
      stored := Parsed(projects);
    }

    method UpdateProject(id: string, updates: ProjectPatch, now: string) returns (r: Option<Project>)
      modifies this
      ensures var i := IndexOfProject(old(projects), id);
        if i == -1 then r == None && projects == old(projects) && stored == old(stored)
        else (projects == old(projects)[i := MergeProject(old(projects)[i], updates, now)]
          && r == Some(projects[i]) && stored == Parsed(projects))
    {
      var i := IndexOfProject(projects, id);
      if i != -1 {
        projects := projects[i := MergeProject(projects[i], updates, now)];
        stored := Parsed(projects);
        r := Some(projects[i]);
      } else {
        r := None;
      }
    }

    method DeleteProject(id: string) returns (ok: bool)
      modifies this
      ensures var i := IndexOfProject(old(projects), id);
        if i == -1 then !ok && projects == old(projects) && stored == old(stored)
        else (ok && projects == RemoveAt(old(projects), i) && stored == Parsed(projects))
    {
      var i := IndexOfProject(projects, id);
      if i != -1 {
        projects := RemoveAt(projects, i);
        stored := Parsed(projects);
        ok := true;
      } else {
        ok := false;
      }
    }

    /** addTaskToProject: the task goes at the end of the first project with that id. */
    method AddTaskToProject(projectId: string, taskTitle: string, taskId: string, now: string)
      returns (r: Option<ProjectTask>)
      modifies this
      ensures var i := IndexOfProject(old(projects), projectId);
        if i == -1 then r == None && projects == old(projects) && stored == old(stored)
        else (r == Some(NewProjectTask(taskTitle, taskId, now))
          && projects == old(projects)[i := old(projects)[i].(
               tasks := old(projects)[i].tasks + [r.value], updatedAt := now)]
          && stored == Parsed(projects))
    {
      var i := IndexOfProject(projects, projectId);
      if i != -1 {
        var task := NewProjectTask(taskTitle, taskId, now);
        var p := projects[i];
        projects := projects[i := p.(tasks := p.tasks + [task], updatedAt := now)];
        stored := Parsed(projects);
        r := Some(task);
      } else {
        r := None;
      }
    }

    /** toggleTaskInProject: flips the first task with that id in the first project with
        that id; nothing changes when either is unknown. */
    method ToggleTaskInProject(projectId: string, taskId: string, now: string)
      returns (r: Option<ProjectTask>)
      modifies this
      ensures var i := IndexOfProject(old(projects), projectId);
        var j := if i == -1 then -1 else IndexOfProjectTask(old(projects)[i].tasks, taskId);
        if j == -1 then r == None && projects == old(projects) && stored == old(stored)
        else (var p := old(projects)[i];
          r == Some(FlipTask(p.tasks[j]))
          && projects == old(projects)[i := p.(tasks := p.tasks[j := r.value], updatedAt := now)]
          && stored == Parsed(projects))
    {
      var i := IndexOfProject(projects, projectId);
      r := None;
      if i != -1 {
        var p := projects[i];
        var j := IndexOfProjectTask(p.tasks, taskId);
        if j != -1 {
          var task := FlipTask(p.tasks[j]);
          projects := projects[i := p.(tasks := p.tasks[j := task], updatedAt := now)];
          stored := Parsed(projects);
          r := Some(task);
        }
      }
    }
  }

  /** A project holding a single task is at 100% when that task is done and 0% otherwise. */
  lemma ProgressSingle(p: Project, id: string)
    requires p.id == id && |p.tasks| == 1
    ensures Progress([p], id) == if p.tasks[0].completed then 100 else 0
  {
    assert ProjectById([p], id) == Some(p);
    assert p.tasks == [p.tasks[0]];
    if p.tasks[0].completed {
      assert Filter(p.tasks, (t: ProjectTask) => t.completed) == p.tasks;
    } else {
      assert Filter(p.tasks, (t: ProjectTask) => t.completed) == [];
    }
  }

  /** The set-up of the worked example below: a new manager holding one project, "p1",
      with one open task, "task1". */
  method OneTaskProject() returns (m: ProjectsManager)
    ensures fresh(m) && |m.projects| == 1 && m.projects[0].id == "p1"
    ensures m.projects[0].tasks == [NewProjectTask("Write draft", "task1", "t1")]
  {
    m := new ProjectsManager(Missing);
    var input := ProjectInput("Thesis", None, Some("research"), None, None, None);
    var p := m.AddProject(input, "p1", "t0");
    assert m.projects == [p] && IndexOfProject(m.projects, "p1") == 0;
    var _ := m.AddTaskToProject("p1", "Write draft", "task1", "t1");
  }

  /** A worked example: a project with one task, toggled, reports 100% progress; toggled
      again it reports 0%. */
  method ProgressExample() returns (first: nat, second: nat)
    ensures first == 100 && second == 0
  {
    var m := OneTaskProject();
    var p1 := m.projects[0];
    assert m.projects == [p1] && IndexOfProjectTask(p1.tasks, "task1") == 0;
    var _ := m.ToggleTaskInProject("p1", "task1", "t2");
    var p2 := m.projects[0];
    assert m.projects == [p2] && p2.id == "p1" && |p2.tasks| == 1 && p2.tasks[0].completed;
    ProgressSingle(p2, "p1");
    first := Progress(m.projects, "p1");
    assert IndexOfProjectTask(p2.tasks, "task1") == 0;
    var _ := m.ToggleTaskInProject("p1", "task1", "t3");
    var p3 := m.projects[0];
    assert m.projects == [p3] && p3.id == "p1" && |p3.tasks| == 1 && !p3.tasks[0].completed;
    ProgressSingle(p3, "p1");
    second := Progress(m.projects, "p1");
  }
}
