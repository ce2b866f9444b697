/** The dashboard task store of js/data.js (TaskManager): the task array and the
    meeting-memo array, each mirrored into its own browser storage key. */
module Tasks {
  import opened Common
  import opened Seqs

  datatype Subtask = Subtask(title: string, completed: bool)

  datatype Task = Task(
    id: string, title: string, description: string, category: string,
    subcategory: string, projectName: string, priority: string,
    deadline: Option<string>, subtasks: seq<Subtask>, completed: bool,
    createdAt: string, completedAt: Option<string>, aiGenerated: bool)

  /** The argument of addTask; a field the caller leaves out is None. */
  datatype TaskInput = TaskInput(
    title: string, description: Option<string>, category: string,
    subcategory: Option<string>, projectName: Option<string>, priority: Option<string>,
    deadline: Option<string>, subtasks: Option<seq<Subtask>>, aiGenerated: Option<bool>)

  /** The argument of updateTask: the fields present in the `updates` object. */
  datatype TaskPatch = TaskPatch(
    id: Option<string>, title: Option<string>, description: Option<string>,
    category: Option<string>, subcategory: Option<string>, projectName: Option<string>,
    priority: Option<string>, deadline: Option<Option<string>>,
    subtasks: Option<seq<Subtask>>, completed: Option<bool>, createdAt: Option<string>,
    completedAt: Option<Option<string>>, aiGenerated: Option<bool>)

  const NoChanges := TaskPatch(None, None, None, None, None, None, None, None, None, None, None, None, None)

  /** A patch that only sets the project name, as the project-linking dialogs send. */
  function ProjectNamePatch(name: string): TaskPatch {
    NoChanges.(projectName := Some(name))
  }

  /** The task addTask builds from its argument, a fresh id and the current time. */
  function NewTask(input: TaskInput, id: string, now: string): (t: Task)
    ensures t.id == id && t.title == input.title && t.category == input.category
    ensures !t.completed && t.completedAt == None && t.createdAt == now
    ensures t.priority == (if Truthy(input.priority) then input.priority.value else "medium")
    ensures t.deadline == (if Truthy(input.deadline) then input.deadline else None)
    ensures t.subtasks == (if input.subtasks.Some? then input.subtasks.value else [])
    ensures t.aiGenerated <==> input.aiGenerated == Some(true)
  {
    Task(id, input.title, OrDefault(input.description, ""), input.category,
         OrDefault(input.subcategory, ""), OrDefault(input.projectName, ""),
         OrDefault(input.priority, "medium"), OrNull(input.deadline),
         input.subtasks.GetOr([]), false, now, None, input.aiGenerated.GetOr(false))
  }

  /** `{...task, ...updates}`: every field the patch carries replaces the task's. */
  function Merge(t: Task, p: TaskPatch): Task {
    Task(p.id.GetOr(t.id), p.title.GetOr(t.title), p.description.GetOr(t.description),
         p.category.GetOr(t.category), p.subcategory.GetOr(t.subcategory),
         p.projectName.GetOr(t.projectName), p.priority.GetOr(t.priority),
         p.deadline.GetOr(t.deadline), p.subtasks.GetOr(t.subtasks),
         p.completed.GetOr(t.completed), p.createdAt.GetOr(t.createdAt),
         p.completedAt.GetOr(t.completedAt), p.aiGenerated.GetOr(t.aiGenerated))
  }

  /** Two successive spreads, `{...{...t, ...p}, ...q}`, are one spread of q over p. */
  function ThenPatch(p: TaskPatch, q: TaskPatch): TaskPatch {
    TaskPatch(if q.id.Some? then q.id else p.id, if q.title.Some? then q.title else p.title,
      if q.description.Some? then q.description else p.description,
      if q.category.Some? then q.category else p.category,
      if q.subcategory.Some? then q.subcategory else p.subcategory,
      if q.projectName.Some? then q.projectName else p.projectName,
      if q.priority.Some? then q.priority else p.priority,
      if q.deadline.Some? then q.deadline else p.deadline,
      if q.subtasks.Some? then q.subtasks else p.subtasks,
      if q.completed.Some? then q.completed else p.completed,
      if q.createdAt.Some? then q.createdAt else p.createdAt,
      if q.completedAt.Some? then q.completedAt else p.completedAt,
      if q.aiGenerated.Some? then q.aiGenerated else p.aiGenerated)
  }

  lemma MergeLaws(t: Task, p: TaskPatch, q: TaskPatch)
    ensures Merge(t, NoChanges) == t
    ensures Merge(Merge(t, p), p) == Merge(t, p)
    ensures Merge(Merge(t, p), q) == Merge(t, ThenPatch(p, q))
  {
  }

  /** The completion invariant toggleTaskCompletion keeps: a completion time is recorded
      exactly when the task is completed. */
  predicate CompletionConsistent(t: Task) {
    t.completed <==> t.completedAt.Some?
  }

  /** The task after toggleTaskCompletion flips it at time `now`. */
  function Toggled(t: Task, now: string): (r: Task)
    ensures r.completed == !t.completed
    ensures CompletionConsistent(r) && (r.completed ==> r.completedAt == Some(now))
    ensures r == t.(completed := r.completed, completedAt := r.completedAt)
  {
    t.(completed := !t.completed, completedAt := if !t.completed then Some(now) else None)
  }

  /** Toggling twice restores `completed`; from an incomplete task with no completion
      time it restores the whole task. */
  lemma ToggleTwice(t: Task, now1: string, now2: string)
    ensures Toggled(Toggled(t, now1), now2).completed == t.completed
    ensures !t.completed && t.completedAt == None ==> Toggled(Toggled(t, now1), now2) == t
  {
  }

  /** The position findIndex / find reach for a task id, or -1. */
  function IndexOfTask(ts: seq<Task>, id: string): (i: int)
    ensures -1 <= i < |ts|
    ensures i >= 0 ==> ts[i].id == id && forall j :: 0 <= j < i ==> ts[j].id != id
    ensures i == -1 ==> forall j :: 0 <= j < |ts| ==> ts[j].id != id
  {
    FindIndex(ts, (t: Task) => t.id == id)
  }

  /** getTaskById. */
  function TaskById(ts: seq<Task>, id: string): (r: Option<Task>)
    ensures r.Some? <==> exists j :: 0 <= j < |ts| && ts[j].id == id
    ensures r.Some? ==> r.value == ts[IndexOfTask(ts, id)]
  {
    var i := IndexOfTask(ts, id);
    if i == -1 then None else Some(ts[i])
  }

  function InCategory(category: string): Task -> bool {
    (t: Task) => t.category == category
  }

  function InProject(category: string, name: string): Task -> bool {
    (t: Task) => t.category == category && t.projectName == name
  }

  /** getTasksByCategory. */
  function TasksByCategory(ts: seq<Task>, category: string): seq<Task> {
    Filter(ts, InCategory(category))
  }

  /** getTasksByProject. */
  function TasksByProject(ts: seq<Task>, category: string, name: string): seq<Task> {
    Filter(ts, InProject(category, name))
  }

  /** getTasksWithoutProject: `!t.projectName` holds of the empty name only. */
  function TasksWithoutProject(ts: seq<Task>, category: string): seq<Task> {
    Filter(ts, InProject(category, ""))
  }

  /** The three getters keep exactly the tasks their conditions select. */
  lemma TaskFiltersMembers(ts: seq<Task>, category: string, name: string, t: Task)
    ensures t in TasksByCategory(ts, category) <==> t in ts && t.category == category
    ensures t in TasksByProject(ts, category, name) <==>
      t in ts && t.category == category && t.projectName == name
    ensures t in TasksWithoutProject(ts, category) <==>
      t in ts && t.category == category && t.projectName == ""
  {
    FilterMembers(ts, InCategory(category), t);
    FilterMembers(ts, InProject(category, name), t);
    FilterMembers(ts, InProject(category, ""), t);
  }

  function ProjectNameList(ts: seq<Task>): (r: seq<string>)
    ensures |r| == |ts| && forall i :: 0 <= i < |ts| ==> r[i] == ts[i].projectName
  {
    seq(|ts|, i requires 0 <= i < |ts| => ts[i].projectName)
  }

  predicate NonEmpty(s: string) {
    s != ""
  }

  /** The distinct non-empty names, in order of first occurrence. */
  function DistinctNames(names: seq<string>): seq<string> {
    Distinct(Filter(names, NonEmpty))
  }

  /** What getProjectsByCategory computes: its project names, each once. */
  function ProjectsOf(ts: seq<Task>, category: string): seq<string> {
    DistinctNames(ProjectNameList(TasksByCategory(ts, category)))
  }

  /** The loop shared by getProjectsByCategory and getMemoProjects: every non-empty name
      is added to a Set, and Array.from lists the Set in insertion order. */
  method CollectNames(names: seq<string>) returns (r: seq<string>)
    ensures r == DistinctNames(names)
    ensures NoDup(r) && forall n :: n in r <==> n in names && n != ""
  {
    var seen: set<string> := {};
    r := [];
    var i := 0;
    while i < |names|
      invariant 0 <= i <= |names|
      invariant r == DistinctNames(names[..i])
      invariant forall n :: n in seen <==> n in r
    {
      assert names[..i + 1] == names[..i] + [names[i]];
      FilterSnoc(names[..i], names[i], NonEmpty);
      var f := Filter(names[..i], NonEmpty);
      if names[i] != "" {
        assert Filter(names[..i + 1], NonEmpty) == f + [names[i]];
        DistinctSnoc(f, names[i]);
        if names[i] !in seen {
          seen := seen + {names[i]};
          r := r + [names[i]];
        }
      } else {
        assert Filter(names[..i + 1], NonEmpty) == f;
      }
      i := i + 1;
    }
    assert names[..i] == names;
    DistinctSpec(Filter(names, NonEmpty));
    forall n ensures n in r <==> n in names && n != "" {
      FilterMembers(names, NonEmpty, n);
    }
  }

  method GetProjectsByCategory(ts: seq<Task>, category: string) returns (r: seq<string>)
    ensures r == ProjectsOf(ts, category)
  {
    r := CollectNames(ProjectNameList(TasksByCategory(ts, category)));
  }

  /** The tasks of a category listed group by group, one group per project name. */
  function Grouped(ts: seq<Task>, category: string, names: seq<string>): seq<Task> {
    if names == [] then []
    else TasksByProject(ts, category, names[0]) + Grouped(ts, category, names[1..])
  }

  lemma ByProjectSnoc(ts: seq<Task>, x: Task, category: string, name: string)
    ensures TasksByProject(ts + [x], category, name)
         == TasksByProject(ts, category, name)
          + (if x.category == category && x.projectName == name then [x] else [])
  {
    FilterSnoc(ts, x, InProject(category, name));
  }

  function Extra(x: Task, category: string, names: seq<string>): multiset<Task> {
    if x.category == category && x.projectName in names then multiset{x} else multiset{}
  }

  /** The tail of a list without duplicates has none, and does not hold its head. */
  lemma NoDupTail(names: seq<string>)
    requires NoDup(names) && names != []
    ensures names[0] !in names[1..] && NoDup(names[1..])
  {
    var rest := names[1..];
    forall k | 0 <= k < |rest| ensures rest[k] != names[0] {
      assert rest[k] == names[k + 1];
    }
    forall i, j | 0 <= i < j < |rest| ensures rest[i] != rest[j] {
      assert rest[i] == names[i + 1] && rest[j] == names[j + 1];
    }
  }

  /** Extra over a list splits into its head's share and its tail's. */
  lemma ExtraHead(x: Task, category: string, names: seq<string>)
    requires names != [] && names[0] !in names[1..]
    ensures multiset(if x.category == category && x.projectName == names[0] then [x] else [])
          + Extra(x, category, names[1..]) == Extra(x, category, names)
  {
    assert x.projectName in names <==> x.projectName == names[0] || x.projectName in names[1..];
  }

  lemma {:induction false} GroupedSnoc(ts: seq<Task>, x: Task, category: string, names: seq<string>)
    requires NoDup(names)
    ensures multiset(Grouped(ts + [x], category, names))
         == multiset(Grouped(ts, category, names)) + Extra(x, category, names)
  {
    if names != [] {
      var n, rest := names[0], names[1..];
      NoDupTail(names);
      GroupedSnoc(ts, x, category, rest);
      ByProjectSnoc(ts, x, category, n);
      ExtraHead(x, category, names);
      var here := if x.category == category && x.projectName == n then [x] else [];
      var a := TasksByProject(ts, category, n);
      var b := Grouped(ts, category, rest);
      assert Grouped(ts + [x], category, names) == (a + here) + Grouped(ts + [x], category, rest);
      assert Grouped(ts, category, names) == a + b;
      assert multiset(Grouped(ts + [x], category, names))
          == multiset(a) + multiset(here) + multiset(Grouped(ts + [x], category, rest));
    }
  }

  lemma {:induction false} GroupedNone(ts: seq<Task>, category: string, name: string)
    requires forall t :: t in ts && t.category == category ==> t.projectName != name
    ensures TasksByProject(ts, category, name) == []
  {
    if TasksByProject(ts, category, name) != [] {
      var t := TasksByProject(ts, category, name)[0];
      FilterMembers(ts, InProject(category, name), t);
    }
  }

  lemma {:induction false} GroupedAppend(ts: seq<Task>, category: string, names: seq<string>, name: string)
    ensures Grouped(ts, category, names + [name])
         == Grouped(ts, category, names) + TasksByProject(ts, category, name)
    decreases |names|
  {
    if names != [] {
      assert (names + [name])[1..] == names[1..] + [name];
      GroupedAppend(ts, category, names[1..], name);
    } else {
      assert names + [name] == [name];
    }
  }

  /** getProjectsByCategory lists a name exactly when it is non-empty and some task of
      the category carries it. */
  lemma ProjectsOfMembers(ts: seq<Task>, category: string, n: string)
    ensures n in ProjectsOf(ts, category)
        <==> n != "" && exists t :: t in ts && t.category == category && t.projectName == n
  {
    var c := TasksByCategory(ts, category);
    var names := ProjectNameList(c);
    DistinctSpec(Filter(names, NonEmpty));
    FilterMembers(names, NonEmpty, n);
    FilterMembersAll(ts, InCategory(category));
    if n in names {
      var k :| 0 <= k < |names| && names[k] == n;
      assert c[k] in c;
    }
    if exists t :: t in ts && t.category == category && t.projectName == n {
      var t :| t in ts && t.category == category && t.projectName == n;
      assert t in c;
      var k :| 0 <= k < |c| && c[k] == t;
      assert names[k] == n;
    }
  }

  lemma ProjectsOfNoDup(ts: seq<Task>, category: string)
    ensures NoDup(ProjectsOf(ts, category))
  {
    DistinctSpec(Filter(ProjectNameList(TasksByCategory(ts, category)), NonEmpty));
  }

  /** How one more task at the end of the array changes the category views. */
  lemma CategorySnoc(ts: seq<Task>, x: Task, category: string)
    ensures TasksByCategory(ts + [x], category)
         == TasksByCategory(ts, category) + (if x.category == category then [x] else [])
    ensures TasksWithoutProject(ts + [x], category)
         == TasksWithoutProject(ts, category)
          + (if x.category == category && x.projectName == "" then [x] else [])
    ensures ProjectsOf(ts + [x], category)
         == if x.category == category && x.projectName != ""
               && x.projectName !in ProjectsOf(ts, category)
            then ProjectsOf(ts, category) + [x.projectName]
            else ProjectsOf(ts, category)
  {
    FilterSnoc(ts, x, InCategory(category));
    FilterSnoc(ts, x, InProject(category, ""));
    var c0 := TasksByCategory(ts, category);
    if x.category == category {
      assert TasksByCategory(ts + [x], category) == c0 + [x];
      var names0 := ProjectNameList(c0);
      assert ProjectNameList(c0 + [x]) == names0 + [x.projectName];
      FilterSnoc(names0, x.projectName, NonEmpty);
      var f := Filter(names0, NonEmpty);
      assert ProjectsOf(ts, category) == Distinct(f);
      if x.projectName != "" {
        assert Filter(names0 + [x.projectName], NonEmpty) == f + [x.projectName];
        DistinctSnoc(f, x.projectName);
        assert ProjectsOf(ts + [x], category) == Distinct(f + [x.projectName]);
      } else {
        assert Filter(names0 + [x.projectName], NonEmpty) == f;
        assert ProjectsOf(ts + [x], category) == Distinct(f);
      }
    } else {
      assert TasksByCategory(ts + [x], category) == c0;
    }
  }

  /** Rendering a category lists each of its projects' tasks and then the tasks without a
      project: together these are exactly the category's tasks, each once. */
  predicate Partitioned(ts: seq<Task>, category: string) {
    multiset(Grouped(ts, category, ProjectsOf(ts, category)))
      + multiset(TasksWithoutProject(ts, category))
    == multiset(TasksByCategory(ts, category))
  }

  lemma {:induction false} ProjectGroupsPartitionCategory(ts: seq<Task>, category: string)
    ensures Partitioned(ts, category)
  {
    if ts != [] {
      var init, x := ts[..|ts| - 1], ts[|ts| - 1];
      assert ts == init + [x];
      ProjectGroupsPartitionCategory(init, category);
      PartitionStep(init, x, category);
    } else {
      assert TasksByCategory(ts, category) == [];
      assert ProjectNameList([]) == [];
      assert ProjectsOf(ts, category) == [];
    }
  }

  lemma PartitionStep(init: seq<Task>, x: Task, category: string)
    requires Partitioned(init, category)
    ensures Partitioned(init + [x], category)
  {
    if x.category != category {
      StepOtherCategory(init, x, category);
    } else if x.projectName == "" {
      StepWithoutProject(init, x, category);
    } else if x.projectName in ProjectsOf(init, category) {
      StepKnownProject(init, x, category);
    } else {
      StepNewProject(init, x, category);
    }
  }

  lemma StepOtherCategory(init: seq<Task>, x: Task, category: string)
    requires Partitioned(init, category) && x.category != category
    ensures Partitioned(init + [x], category)
  {
    CategorySnoc(init, x, category);
    ProjectsOfNoDup(init, category);
    GroupedSnoc(init, x, category, ProjectsOf(init, category));
  }

  lemma StepWithoutProject(init: seq<Task>, x: Task, category: string)
    requires Partitioned(init, category) && x.category == category && x.projectName == ""
    ensures Partitioned(init + [x], category)
  {
    CategorySnoc(init, x, category);
    ProjectsOfNoDup(init, category);
    GroupedSnoc(init, x, category, ProjectsOf(init, category));
    ProjectsOfMembers(init, category, "");
  }

  lemma StepKnownProject(init: seq<Task>, x: Task, category: string)
    requires Partitioned(init, category) && x.category == category
    requires x.projectName in ProjectsOf(init, category)
    ensures Partitioned(init + [x], category)
  {
    ProjectsOfMembers(init, category, x.projectName);
    CategorySnoc(init, x, category);
    ProjectsOfNoDup(init, category);
    GroupedSnoc(init, x, category, ProjectsOf(init, category));
  }

  lemma StepNewProject(init: seq<Task>, x: Task, category: string)
    requires Partitioned(init, category) && x.category == category && x.projectName != ""
    requires x.projectName !in ProjectsOf(init, category)
    ensures Partitioned(init + [x], category)
  {
    CategorySnoc(init, x, category);
    ProjectsOfNoDup(init, category);
    GroupedSnoc(init, x, category, ProjectsOf(init, category));
    NewProjectGroup(init, x, category);
  }

  /** The group a task opens when it is the first of its project in its category. */
  lemma NewProjectGroup(init: seq<Task>, x: Task, category: string)
    requires x.category == category && x.projectName != ""
    requires x.projectName !in ProjectsOf(init, category)
    ensures Grouped(init + [x], category, ProjectsOf(init, category) + [x.projectName])
         == Grouped(init + [x], category, ProjectsOf(init, category)) + [x]
  {
    var n0 := ProjectsOf(init, category);
    GroupedAppend(init + [x], category, n0, x.projectName);
    forall t | t in init && t.category == category
      ensures t.projectName != x.projectName
    {
      ProjectsOfMembers(init, category, x.projectName);
    }
    GroupedNone(init, category, x.projectName);
    ByProjectSnoc(init, x, category, x.projectName);
  }

  /** A meeting memo (the memo half of TaskManager). */
  datatype Memo = Memo(
    id: string, title: string, content: string, projectName: string, date: string,
    participants: string, actionItems: seq<string>, createdAt: string)

  datatype MemoInput = MemoInput(
    title: string, content: Option<string>, projectName: Option<string>, date: Option<string>,
    participants: Option<string>, actionItems: Option<seq<string>>)

  datatype MemoPatch = MemoPatch(
    title: Option<string>, content: Option<string>, projectName: Option<string>,
    date: Option<string>, participants: Option<string>, actionItems: Option<seq<string>>)

  /** The memo addMemo builds; `today` is the date part of the current time. */
  function NewMemo(input: MemoInput, id: string, today: string, now: string): (m: Memo)
    ensures m.id == id && m.title == input.title && m.createdAt == now
    ensures m.date == (if Truthy(input.date) then input.date.value else today)
    ensures m.actionItems == (if input.actionItems.Some? then input.actionItems.value else [])
  {
    Memo(id, input.title, OrDefault(input.content, ""), OrDefault(input.projectName, ""),
         OrDefault(input.date, today), OrDefault(input.participants, ""),
         input.actionItems.GetOr([]), now)
  }

  /** `{...memo, ...updates}` with the six fields the memo form sends: an edit never
      changes the memo's id or creation time. */
  function MergeMemo(m: Memo, p: MemoPatch): (r: Memo)
    ensures r.id == m.id && r.createdAt == m.createdAt
  {
    m.(title := p.title.GetOr(m.title), content := p.content.GetOr(m.content),
       projectName := p.projectName.GetOr(m.projectName), date := p.date.GetOr(m.date),
       participants := p.participants.GetOr(m.participants),
       actionItems := p.actionItems.GetOr(m.actionItems))
  }

  function IndexOfMemo(ms: seq<Memo>, id: string): (i: int)
    ensures -1 <= i < |ms|
    ensures i >= 0 ==> ms[i].id == id && forall j :: 0 <= j < i ==> ms[j].id != id
    ensures i == -1 ==> forall j :: 0 <= j < |ms| ==> ms[j].id != id
  {
    FindIndex(ms, (m: Memo) => m.id == id)
  }

  /** getMemosByProject. */
  function MemosByProject(ms: seq<Memo>, name: string): (r: seq<Memo>)
    ensures forall m :: m in r <==> m in ms && m.projectName == name
  {
    FilterMembersAll(ms, (m: Memo) => m.projectName == name);
    Filter(ms, (m: Memo) => m.projectName == name)
  }

  /** getMemosWithoutProject. */
  function MemosWithoutProject(ms: seq<Memo>): (r: seq<Memo>)
    ensures forall m :: m in r <==> m in ms && m.projectName == ""
  {
    FilterMembersAll(ms, (m: Memo) => m.projectName == "");
    Filter(ms, (m: Memo) => m.projectName == "")
  }

  /** The projectName of each memo, in order. */
  function MemoProjectNameList(ms: seq<Memo>): (r: seq<string>)
    ensures |r| == |ms| && forall i :: 0 <= i < |ms| ==> r[i] == ms[i].projectName
  {
    seq(|ms|, i requires 0 <= i < |ms| => ms[i].projectName)
  }

  /** getMemoProjects: the memos' non-empty project names, each once, in the order the Set
      first received them. */
  method GetMemoProjects(ms: seq<Memo>) returns (r: seq<string>)
    ensures r == DistinctNames(MemoProjectNameList(ms))
    ensures NoDup(r) && forall n :: n in r <==> n != "" && exists m :: m in ms && m.projectName == n
  {
    var names := MemoProjectNameList(ms);
    r := CollectNames(names);
    forall n ensures n in names <==> exists m :: m in ms && m.projectName == n {
      if n in names {
        var k :| 0 <= k < |names| && names[k] == n;
        assert ms[k] in ms;
      }
      if exists m :: m in ms && m.projectName == n {
        var m :| m in ms && m.projectName == n;
        var k :| 0 <= k < |ms| && ms[k] == m;
        assert names[k] == n;
      }
    }
  }

  /** The result of loadFromStorage: the tasks it adopts and what the current storage key
      holds afterwards.  Data found only under the old key is copied to the current one. */
  function LoadTasks(current: Stored<seq<Task>>, legacy: Stored<seq<Task>>): (r: (seq<Task>, Stored<seq<Task>>))
    ensures current.Parsed? ==> r == (current.value, current)
    ensures current.Corrupt? ==> r == ([], current)
    ensures current.Missing? && legacy.Parsed? ==> r == (legacy.value, legacy)
    ensures current.Missing? && !legacy.Parsed? ==> r == ([], Missing)
  {
    match current
    case Parsed(ts) => (ts, current)
    case Corrupt => ([], current)
    case Missing =>
      match legacy
      case Parsed(ts) => (ts, Parsed(ts))
      case _ => ([], Missing)
  }

  /** Loading again after a load (with its migration) adopts the same tasks. */
  lemma LoadTasksIdempotent(current: Stored<seq<Task>>, legacy: Stored<seq<Task>>)
    ensures LoadTasks(LoadTasks(current, legacy).1, legacy) == LoadTasks(current, legacy)
  {
  }

  function LoadMemos(stored: Stored<seq<Memo>>): (r: seq<Memo>)
    ensures stored.Parsed? ==> r == stored.value
    ensures !stored.Parsed? ==> r == []
  {
    if stored.Parsed? then stored.value else []
  }

  class TaskManager {
    var tasks: seq<Task>
    var memos: seq<Memo>
    /** localStorage['task_dashboard_data_v2'] */
    var stored: Stored<seq<Task>>
    /** localStorage['task_dashboard_data'], the key of an older version */
    var legacy: Stored<seq<Task>>
    /** localStorage['task_dashboard_memos_v1'] */
    var storedMemos: Stored<seq<Memo>>

    /** The store at page load: empty arrays over whatever the browser has stored. */
    constructor (stored: Stored<seq<Task>>, legacy: Stored<seq<Task>>, storedMemos: Stored<seq<Memo>>)
      ensures this.tasks == [] && this.memos == []
      ensures this.stored == stored && this.legacy == legacy && this.storedMemos == storedMemos
    {
      this.tasks := [];
      this.memos := [];
      this.stored := stored;
      this.legacy := legacy;
      this.storedMemos := storedMemos;
    }

    method LoadFromStorage()
      modifies this
      ensures (tasks, stored) == LoadTasks(old(stored), old(legacy))
      ensures memos == old(memos) && legacy == old(legacy) && storedMemos == old(storedMemos)
    {
      match stored
      case Parsed(ts) =>
        tasks := ts;
      case Corrupt =>
        tasks := [];
      case Missing =>
        match legacy
        case Parsed(ts) =>
          tasks := ts;
          stored := Parsed(tasks);
        case _ =>
          tasks := [];
    }

    method LoadMemosFromStorage()
      modifies this`memos
      ensures memos == LoadMemos(storedMemos)
    {
      memos := if storedMemos.Parsed? then storedMemos.value else [];
    }

    method AddTask(input: TaskInput, id: string, now: string) returns (task: Task)
      modifies this`tasks, this`stored
      ensures task == NewTask(input, id, now)
      ensures tasks == old(tasks) + [task]
      ensures stored == Parsed(tasks)
    {
      task := NewTask(input, id, now);
      tasks := tasks + [task];
      stored := Parsed(tasks);
    }

    method UpdateTask(taskId: string, updates: TaskPatch) returns (r: Option<Task>)
      modifies this`tasks, this`stored
      ensures var i := IndexOfTask(old(tasks), taskId);
        if i == -1 then r == None && tasks == old(tasks) && stored == old(stored)
        else (tasks == old(tasks)[i := Merge(old(tasks)[i], updates)]
          && r == Some(tasks[i]) && stored == Parsed(tasks))
    {
      var i := IndexOfTask(tasks, taskId);
      if i != -1 {
        tasks := tasks[i := Merge(tasks[i], updates)];
        stored := Parsed(tasks);
        r := Some(tasks[i]);
      } else {
        r := None;
      }
    }

    method DeleteTask(taskId: string) returns (ok: bool)
      modifies this`tasks, this`stored
      ensures var i := IndexOfTask(old(tasks), taskId);
        if i == -1 then !ok && tasks == old(tasks) && stored == old(stored)
        else ok && tasks == RemoveAt(old(tasks), i) && stored == Parsed(tasks)
    {
      var i := IndexOfTask(tasks, taskId);
      if i != -1 {
        tasks := RemoveAt(tasks, i);
        stored := Parsed(tasks);
        ok := true;
      } else {
        ok := false;
      }
    }

    method ToggleTaskCompletion(taskId: string, now: string) returns (r: Option<Task>)
      modifies this`tasks, this`stored
      ensures var i := IndexOfTask(old(tasks), taskId);
        if i == -1 then r == None && tasks == old(tasks) && stored == old(stored)
        else (tasks == old(tasks)[i := Toggled(old(tasks)[i], now)]
          && r == Some(tasks[i]) && stored == Parsed(tasks))
    {
      var i := IndexOfTask(tasks, taskId);
      if i != -1 {
        tasks := tasks[i := Toggled(tasks[i], now)];
        stored := Parsed(tasks);
        r := Some(tasks[i]);
      } else {
        r := None;
      }
    }

    method AddMemo(input: MemoInput, id: string, today: string, now: string) returns (memo: Memo)
      modifies this`memos, this`storedMemos
      ensures memo == NewMemo(input, id, today, now)
      ensures memos == old(memos) + [memo] && storedMemos == Parsed(memos)
    {
      memo := NewMemo(input, id, today, now);
      memos := memos + [memo];
      storedMemos := Parsed(memos);
    }

    method UpdateMemo(memoId: string, updates: MemoPatch) returns (r: Option<Memo>)
      modifies this`memos, this`storedMemos
      ensures var i := IndexOfMemo(old(memos), memoId);
        if i == -1 then r == None && memos == old(memos) && storedMemos == old(storedMemos)
        else (memos == old(memos)[i := MergeMemo(old(memos)[i], updates)]
          && r == Some(memos[i]) && storedMemos == Parsed(memos))
    {
      var i := IndexOfMemo(memos, memoId);
      if i != -1 {
        memos := memos[i := MergeMemo(memos[i], updates)];
        storedMemos := Parsed(memos);
        r := Some(memos[i]);
      } else {
        r := None;
      }
    }

    method DeleteMemo(memoId: string) returns (ok: bool)
      modifies this`memos, this`storedMemos
      ensures var i := IndexOfMemo(old(memos), memoId);
        if i == -1 then !ok && memos == old(memos) && storedMemos == old(storedMemos)
        else ok && memos == RemoveAt(old(memos), i) && storedMemos == Parsed(memos)
    {
      var i := IndexOfMemo(memos, memoId);
      if i != -1 {
        memos := RemoveAt(memos, i);
        storedMemos := Parsed(memos);
        ok := true;
      } else {
        ok := false;
      }
    }
  }
}
