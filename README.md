# Task dashboard core in Dafny

This project models the in-memory logic of a browser productivity dashboard and of its small Python server. The dashboard has a task list, projects with embedded tasks, a planner, a calendar, a statistics page, meeting notes and a levelling game.

- **Stores.** The stores that change in place are Dafny classes. Their array and map fields are reassigned by methods whose `modifies` and `ensures` clauses give the whole new state. These are the task and memo store, the project store, the planner, the meetings store, the game state, the calendar's fetched copy and the dashboard toolbar.
- **Queries and helpers.** The read-only queries and pure helpers are functions with named results. The aggregation loops are methods proved against those functions.
- **Server.** The parts of `server.py` that decide something without I/O are modelled: the transcript chunker, the audio checks and the week count.

Browser storage is modelled as `Stored<T> = Missing | Corrupt | Parsed(value)`. A JavaScript object whose key order shows in the output is an association list, and `Assoc.Put` keeps the position of an existing key. Ids, timestamps, the "today" string, dialog answers and fetch results are parameters.

Modules:
- **`Common`, `Strings`, `Seqs`, `Assoc`**: optional values, stored values, rounding, trimming, ASCII lower-casing, number formatting, filters and association lists.
- **`Tasks`, `Projects`, `DataSync`**: the three objects of `js/data.js`.
- **`Gamification`**: `js/gamification.js`.
- **`Planner`**: `js/planner.js`.
- **`Items`, `Calendar`, `Stats`**: the item lists of `js/calendar.js` and `js/stats.js`.
- **`Meetings`**: `js/meetings.js`.
- **`App`**: `js/app.js`.
- **`Server`**: `server.py`.

Where the written description of the system and the code disagree, the model follows the code:
- `gainExp(250)` from level 1 with no experience ends at level 2 with 150 points, not level 3. Leaving level 1 costs 100 and leaving level 2 costs 200.
- When the meetings load from the server, the list is not written to local storage.
- `getAllTasksForDate` leaves out tasks embedded in projects.
- The `sortTasks` comparator answers "greater" in both directions for two tasks without deadlines.
- `Math.round` makes the completion rate read 100 while an item is still open (199 of 200 items done).

## Model

| member | source | states |
|---|---|---|
| Common.OrDefault | js/meetings.js:107-113 | `s \|\| d` for a string: the value when it is present and non-empty, otherwise the default |
| Common.OrNull | js/meetings.js:114-115 | `s \|\| null`: present exactly when the string is present and non-empty |
| Common.RoundPercent | js/data.js:485-490 | `Math.round` of the percentage, taken over the exact rational 100·part/whole: the integer r with 2·whole·r ≤ 200·part + whole < 2·whole·(r+1) |
| Common.RoundPercentRange | js/stats.js:158-163 | a share of a whole rounds into 0..100, to 0 for none and to 100 for all |
| Common.RoundPercentMonotone | js/stats.js:158-163 | more completed items never round to a smaller percentage |
| Strings.BlankIffAllSpace | js/planner.js:350-360 | `text.trim()` is empty exactly when every character is whitespace |
| Strings.LowerIdempotent | js/meetings.js:166-174 | lower-casing a lower-cased string changes nothing |
| Strings.NatToStringRoundTrip | js/planner.js:296-298 | the decimal digits of a number read back to the number |
| Assoc.LookupPut | js/planner.js:300-310 | after `obj[k] = v`, key k reads v and every other key reads what it read before |
| Assoc.PutExisting | js/planner.js:300-310 | writing back the value a key already holds leaves the object unchanged |
| Assoc.PutPut | js/planner.js:300-310 | a second write to the same key replaces the first |
| Tasks.NewTask | js/data.js:58-78 | a new task has the given id, title and category; it is incomplete with no completion time; priority defaults to 'medium', deadline to null, subtasks to [] and aiGenerated to false |
| Tasks.MergeLaws | js/data.js:107-118 | the spread `{...task, ...updates}` with no fields is the identity, is idempotent, and two spreads in a row are one spread of the combined updates |
| Tasks.Merge | js/data.js:107-118 | the spread `{...task, ...updates}`: each field the patch carries replaces the task's, and the other fields are kept; its laws are `Tasks.MergeLaws` |
| Tasks.Toggled | js/data.js:132-141 | toggling flips `completed`, sets completedAt to the current time exactly when the task becomes complete, and changes no other field |
| Tasks.ToggleTwice | js/data.js:132-141 | toggling twice restores `completed`, and restores the whole task when it started incomplete without a completion time |
| Tasks.IndexOfTask | js/data.js:107-110 | the index findIndex returns is the first task with the id, or -1 when no task has it |
| Tasks.TaskById | js/data.js:154-156 | getTaskById finds a task exactly when one has the id, and then it is the first such task |
| Tasks.ProjectNameList | js/data.js:81-90 | the mapped list of project names, one per task, in order |
| Tasks.CollectNames | js/data.js:81-90 | the de-duplicating loop keeps each non-empty name once, in order of first occurrence |
| Tasks.GetProjectsByCategory | js/data.js:81-90 | getProjectsByCategory gives the distinct project names of the category's tasks |
| Tasks.ByProjectSnoc | js/data.js:93-97 | appending a task extends the project view by that task exactly when it is in the category and has that name |
| Tasks.GroupedSnoc | js/data.js:93-97 | appending a task adds it to the listed groups once when it is in the category and its project is listed, and otherwise adds nothing |
| Tasks.GroupedNone | js/data.js:93-97 | a project name no task of the category carries has an empty group |
| Tasks.GroupedAppend | js/data.js:93-97 | listing one more project name appends that project's group |
| Tasks.ProjectsOfMembers | js/data.js:81-90 | a name is listed exactly when it is non-empty and a task of the category carries it |
| Tasks.ProjectsOfNoDup | js/data.js:81-90 | no project name is listed twice |
| Tasks.CategorySnoc | js/data.js:81-104 | how one more task changes the category list, the no-project list and the project names |
| Tasks.ProjectGroupsPartitionCategory | js/data.js:81-104 | the project groups followed by the tasks without a project are a permutation of the category's tasks |
| Tasks.TasksByCategory | js/data.js:144-146 | getTasksByCategory: the tasks of the category, in list order; `Tasks.TaskFiltersMembers` states which are kept |
| Tasks.TasksByProject | js/data.js:93-97 | getTasksByProject: the tasks of the category with that project name, in list order |
| Tasks.TasksWithoutProject | js/data.js:100-104 | getTasksWithoutProject: the tasks of the category whose project name is empty, the only string `!t.projectName` accepts |
| Tasks.TaskFiltersMembers | js/data.js:93-104 | a task is kept by each of the three getters exactly when it is in the list and meets that getter's condition |
| Tasks.PartitionStep | js/data.js:81-104 | the partition survives appending any task |
| Tasks.StepOtherCategory | js/data.js:81-104 | the partition survives appending a task of another category |
| Tasks.StepWithoutProject | js/data.js:100-104 | the partition survives appending a task without a project |
| Tasks.StepKnownProject | js/data.js:93-97 | the partition survives appending a task of a project already listed |
| Tasks.StepNewProject | js/data.js:81-97 | the partition survives appending the first task of a new project |
| Tasks.NewProjectGroup | js/data.js:81-97 | the first task of a project forms that project's whole group |
| Tasks.NewMemo | js/data.js:234-248 | a new memo has the given id and title, today's date when none is given, and [] action items when none are given |
| Tasks.MergeMemo | js/data.js:250-261 | the spread of updateMemo with the six fields the memo form sends (js/app.js:621-628): an edit keeps the memo's id and creation time |
| Tasks.IndexOfMemo | js/data.js:250-253 | the first memo with the id, or -1 |
| Tasks.MemosByProject | js/data.js:281-283 | getMemosByProject keeps exactly the memos of that project |
| Tasks.MemosWithoutProject | js/data.js:295-297 | getMemosWithoutProject keeps exactly the memos without a project |
| Tasks.GetMemoProjects | js/data.js:285-293 | the memos' non-empty project names, each once, in the order the Set first received them (`DistinctNames`, whose order `Seqs.DistinctOrder` states) |
| Tasks.LoadTasks | js/data.js:23-46 | the current key wins; an unparsable current key gives no tasks; otherwise the legacy key is migrated to the current key; otherwise there are no tasks |
| Tasks.LoadTasksIdempotent | js/data.js:23-46 | loading again after a load with migration adopts the same tasks |
| Tasks.LoadMemos | js/data.js:212-224 | the parsed memos, or none when the stored memos are absent or unparsable |
| Tasks.TaskManager.constructor | js/data.js:6-15 | the store starts with empty task and memo arrays |
| Tasks.TaskManager.LoadFromStorage | js/data.js:23-46 | the tasks and the stored key become what LoadTasks gives; memos are unchanged |
| Tasks.TaskManager.LoadMemosFromStorage | js/data.js:212-224 | the memos become what LoadMemos gives |
| Tasks.TaskManager.AddTask | js/data.js:58-78 | appends exactly the new task at the end, leaves the other tasks unchanged, saves, and returns the new task |
| Tasks.TaskManager.UpdateTask | js/data.js:107-118 | a known id merges the updates into the first task with that id only, saves, and returns it; an unknown id returns null and changes nothing |
| Tasks.TaskManager.DeleteTask | js/data.js:121-129 | removes exactly the first task with the id and returns true; an unknown id returns false and changes nothing |
| Tasks.TaskManager.ToggleTaskCompletion | js/data.js:132-141 | replaces the first task with the id by its toggled form; an unknown id changes nothing |
| Tasks.TaskManager.AddMemo | js/data.js:234-248 | appends the new memo and saves |
| Tasks.TaskManager.UpdateMemo | js/data.js:250-261 | merges into the first memo with the id, or returns null and changes nothing |
| Tasks.TaskManager.DeleteMemo | js/data.js:263-271 | removes the first memo with the id and returns true, or returns false and changes nothing |
| Projects.NewProject | js/data.js:391-407 | a new project has no tasks and its creation time as updatedAt; icon, category ('work'), status ('planning') and deadline take their defaults |
| Projects.MergeProject | js/data.js:409-421 | the merged project carries the new updatedAt; every field the updates carry is taken from them, every other field is kept |
| Projects.IndexOfProject | js/data.js:409-412 | the first project with the id, or -1 |
| Projects.IndexOfProjectTask | js/data.js:471-476 | the first embedded task with the id, or -1 |
| Projects.ProjectById | js/data.js:433-435 | getProject finds a project exactly when one has the id, and it is the first such project |
| Projects.ProjectByName | js/data.js:437-439 | getProjectByName finds a project exactly when one has the name, and it is the first such project |
| Projects.ProjectsByCategory | js/data.js:441-444 | 'all' returns every project; any other category returns exactly the projects of that category |
| Projects.ProjectsByStatus | js/data.js:446-451 | 'active' returns exactly the planning, in-progress and review projects; any other status matches literally |
| Projects.CategoryCount | js/data.js:492-494 | the count never exceeds the number of projects and is all of them for 'all' |
| Projects.StatusCount | js/data.js:496-498 | the count never exceeds the number of projects and equals the status query for any status but 'active' |
| Projects.CompletedCount | js/data.js:485-490 | the completed tasks are at most all tasks |
| Projects.CompletedCountBounds | js/data.js:485-490 | all tasks done gives the full count and none done gives 0 |
| Projects.Progress | js/data.js:485-490 | 0 for an unknown or taskless project, otherwise the percentage of completed tasks rounded over exact rationals, within 0..100 |
| Projects.ProgressExtremes | js/data.js:485-490 | a non-empty project reads 100 when every task is done and 0 when none is |
| Projects.RelatedTasks | js/data.js:505-514 | no tasks for an unknown project, otherwise exactly the dashboard tasks carrying the project's name |
| Projects.NewProjectTask | js/data.js:453-469 | the embedded task added is incomplete and medium priority, with no deadline and no completion time |
| Projects.FlipTask | js/data.js:471-483 | only `completed` changes, and it flips |
| Projects.ProjectsManager.constructor | js/data.js:357-359 | the store starts with no projects |
| Projects.ProjectsManager.LoadFromStorage | js/data.js:365-377 | the parsed projects, or none |
| Projects.ProjectsManager.AddProject | js/data.js:391-407 | appends exactly the new project and saves |
| Projects.ProjectsManager.UpdateProject | js/data.js:409-421 | merges into the first project with the id, or returns null with no change |
| Projects.ProjectsManager.DeleteProject | js/data.js:423-431 | removes the first project with the id and returns true, or returns false with no change |
| Projects.ProjectsManager.AddTaskToProject | js/data.js:453-469 | appends the new task to that project only and refreshes its updatedAt, or returns null for an unknown project |
| Projects.ProjectsManager.ToggleTaskInProject | js/data.js:471-483 | flips only the named task of the named project; unknown ids change nothing |
| Projects.ProgressSingle | js/data.js:485-490 | a project with a single task is at 100% when that task is done and at 0% otherwise |
| Projects.ProgressExample | js/data.js:471-490 | a one-task project reads 100 after one toggle and 0 after the second |
| DataSync.ProjectDayEntry | js/data.js:570-580 | a due project becomes a high-priority item titled with the folder icon, complete exactly when its status is 'completed' |
| DataSync.TasksByDate | js/data.js:551-554 | exactly the tasks whose deadline is the date |
| DataSync.DueTaskEntriesMembers | js/data.js:561-568 | a dashboard entry is listed exactly for a task due on the date |
| DataSync.DueProjectEntriesMembers | js/data.js:570-582 | a project entry is listed exactly for a project due on the date |
| DataSync.AllTasksForDateMembers | js/data.js:557-586 | the day's list holds the due dashboard tasks and the due projects, and no task embedded in a project |
| DataSync.AllTasksForDate | js/data.js:557-586 | getAllTasksForDate: the due dashboard tasks, then the due projects; `DataSync.AllTasksForDateMembers` states its members |
| DataSync.GetAllTasksForDate | js/data.js:557-586 | the two accumulator loops compute the due tasks followed by the due projects |
| DataSync.WeekTasks | js/data.js:603-605 | summary.tasks holds exactly the tasks whose deadline lies in the week |
| DataSync.WeekProjects | js/data.js:617-619 | summary.projects holds exactly the projects whose deadline lies in the week |
| DataSync.OpenWeekTasks | js/data.js:603-614 | the tasks given a deadline entry: exactly the open tasks due in the week |
| DataSync.OpenWeekProjects | js/data.js:617-628 | the projects given a deadline entry: exactly the projects due in the week that are not completed |
| DataSync.TaskDeadlinesBound | js/data.js:603-614 | the week's task deadlines are at most the week's tasks, and each belongs to an open task of the week |
| DataSync.ProjectDeadlinesBound | js/data.js:617-628 | the week's project deadlines are at most the week's projects, and each belongs to an unfinished project of the week |
| DataSync.TaskDeadlinesExact | js/data.js:603-614 | the task deadlines are, position by position, the entries of the open tasks due in the week, one per task |
| DataSync.ProjectDeadlinesExact | js/data.js:617-628 | the project deadlines are, position by position, the entries of the unfinished projects due in the week, one per project |
| DataSync.SummaryDeadlines | js/data.js:589-631 | the summary lists exactly the tasks and projects due in the week, and every deadline belongs to an unfinished task or project of that week |
| DataSync.InWeek | js/data.js:604 | `d && d >= startStr && d <= endStr`: a non-empty date between the two bounds, both included |
| DataSync.Summary | js/data.js:589-631 | what getWeeklySummary returns; `DataSync.SummaryDeadlines` and `DataSync.SummaryDeadlinesComplete` state its fields |
| DataSync.SummaryDeadlinesComplete | js/data.js:589-631 | every open task and every unfinished project due in the week has its deadline entry, and there are exactly as many entries as such tasks and projects |
| DataSync.GetWeeklySummary | js/data.js:589-631 | the accumulator loops compute the weekly summary |
| DataSync.StatFor | js/data.js:634-651 | completed tasks ≤ tasks and active projects ≤ projects; the counts are those of the category queries |
| DataSync.CategoryStats | js/data.js:634-651 | one entry per fixed category, in order |
| DataSync.CategoryByProjectName | js/data.js:662-665 | a category is found exactly when a project has the name, and it is the category of the first such project |
| DataSync.LinkTaskToProject | js/data.js:654-659 | an existing task gets only its project name updated; an unknown task changes nothing |
| Gamification.Requirement | js/gamification.js:75-77 | `levelTable[level] \|\| 999999`: the table entry when it is positive, 999999 outside the table |
| Gamification.Settle | js/gamification.js:62-72 | level-ups never lower the level or add experience, and they stop below the requirement of the level reached |
| Gamification.SettleConserves | js/gamification.js:62-72 | the experience consumed by the level-ups plus what remains equals what was there |
| Gamification.SettleIdempotent | js/gamification.js:62-72 | checking again after a check changes nothing |
| Gamification.GeneratedTable | js/gamification.js:28-33 | the generated table has 101 slots, and level i needs 100·i for i in 1..100 |
| Gamification.GeneratedRequirement | js/gamification.js:28-33 | the requirement is 100·level for levels 1..100 and 999999 otherwise |
| Gamification.Gain250FromStart | js/gamification.js:53-77 | 250 points from level 1 with no experience give level 2 with 150 points |
| Gamification.TitleRank | js/gamification.js:80-88 | the title's rank on the ladder is 0 exactly for the default title |
| Gamification.TitleFor | js/gamification.js:80-88 | updateTitle's thresholds at levels 50, 30, 20, 10 and 5; `Gamification.TitleRank` and `Gamification.TitleMonotone` state the ladder |
| Gamification.TitleMonotone | js/gamification.js:80-88 | a higher level never gets a lower title, and equal ranks mean equal titles |
| Gamification.GamificationManager.constructor | js/gamification.js:5-19 | level 1, no experience, the default title and avatar, and an empty table |
| Gamification.GamificationManager.GenerateLevelTable | js/gamification.js:28-33 | the loop fills slot i with 100·i for i in 1..100 |
| Gamification.GamificationManager.LoadData | js/gamification.js:36-45 | stored data replaces the user data; unparsable data is ignored |
| Gamification.GamificationManager.NextLevelExp | js/gamification.js:75-77 | the requirement of the current level in the current table |
| Gamification.GamificationManager.CheckLevelUp | js/gamification.js:62-72 | the recursion reaches the settled state, and the title is recomputed when the level changed |
| Gamification.GamificationManager.GainExp | js/gamification.js:53-59 | adds the amount and settles; the result is below the next requirement, the level never drops, the data is saved and the new experience is returned |
| Gamification.GainExpExample | js/gamification.js:53-77 | on a manager with a generated table, 250 points from the start give level 2 with 150 points |
| Planner.MonthKeyRoundTrip | js/planner.js:296-298 | for four-digit years the month key has 7 characters and reads back to its year and month |
| Planner.DateKeyRoundTrip | js/planner.js:813-818 | for four-digit years the date key has 10 characters and reads back to its parts |
| Planner.DateKeyExtendsMonthKey | js/planner.js:813-818 | the date key is the month key followed by "-DD" |
| Planner.MonthKey | js/planner.js:296-298 | getMonthKey: "YYYY-MM" with the month padded to two digits; `Planner.MonthKeyRoundTrip` reads it back |
| Planner.FormatDateKey | js/planner.js:813-818 | formatDateKey: "YYYY-MM-DD" with month and day padded; `Planner.DateKeyRoundTrip` reads it back |
| Planner.WeekSectionKey | js/planner.js:460-465 | getWeekSectionKey: "week-" followed by the date key of the week's first day; `Calendar.SectionKeyDate` shows the calendar reads that date back |
| Planner.WeekViewKey | js/planner.js:632-636 | getWeekKey: "YYYY-Www" with the week number padded; `Calendar.WeekViewKeyNeverMatches` shows the calendar never reads these keys |
| Planner.WithTodo | js/planner.js:350-360 | blank input leaves the list unchanged; otherwise one incomplete todo with the trimmed text is appended |
| Planner.FlipTodo | js/planner.js:362-367 | only the indexed todo changes, and only its `completed` flips |
| Planner.FlipTodoTwice | js/planner.js:362-367 | flipping a todo twice restores the list |
| Planner.FlipGoal | js/planner.js:267-272 | only the indexed goal changes, and only its `completed` flips |
| Planner.FlipGoalTwice | js/planner.js:267-272 | flipping a goal twice restores the list |
| Planner.SavedGoals | js/planner.js:244-265 | index -1 appends an incomplete goal; otherwise text and notes are replaced and `completed` kept, and the other goals are unchanged |
| Planner.SetGoals | js/planner.js:212-221 | the category's goals for that year become the given list; every other category and every other year keeps its goals, and the other maps are unchanged |
| Planner.SetMonthPlan | js/planner.js:300-310 | the month's plan becomes the given plan and every other month is unchanged |
| Planner.SetWeekPlan | js/planner.js:467-477 | the week's plan becomes the given plan and every other week is unchanged |
| Planner.SetDaily | js/planner.js:820-825 | the date's todos become the given list and every other date is unchanged |
| Planner.LazyGetKeepsExisting | js/planner.js:212-221 | a getter whose entry already exists leaves the data as it was |
| Planner.PrevMonth | js/planner.js:127-140 | the month before stays in 1..12, and January goes to December of the year before |
| Planner.NextMonth | js/planner.js:142-155 | the month after stays in 1..12, and December goes to January of the next year |
| Planner.MonthNavigationInverse | js/planner.js:127-155 | back then forward, or forward then back, restores the year and month |
| Planner.StepMonths | js/planner.js:142-155 | any number of steps keeps the month in 1..12 |
| Planner.TwelveMonthsIsAYear | js/planner.js:142-155 | twelve steps forward advance exactly one year |
| Planner.PlannerUI.constructor | js/planner.js:5-20 | empty maps, the year view, and the given year and month |
| Planner.PlannerUI.LoadData | js/planner.js:29-38 | parsed data replaces the maps; unparsable data is ignored |
| Planner.PlannerUI.CurrentMonthKey | js/planner.js:296-298 | the key of the current year and month |
| Planner.PlannerUI.PrevPeriod | js/planner.js:127-140 | the year view goes back a year, the month view a month with wrap-around, and the week view a week |
| Planner.PlannerUI.NextPeriod | js/planner.js:142-155 | the year view goes forward a year, the month view a month with wrap-around, and the week view a week |
| Planner.PlannerUI.GetYearGoals | js/planner.js:212-221 | returns the stored goals, inserting the empty default when absent |
| Planner.PlannerUI.AddGoal | js/planner.js:223-230 | opens an empty goal form for the category |
| Planner.PlannerUI.EditGoal | js/planner.js:232-242 | opens the form for the indexed goal |
| Planner.PlannerUI.SaveGoal | js/planner.js:244-265 | blank text or no open form changes nothing; otherwise the goals become SavedGoals and the form closes |
| Planner.PlannerUI.ToggleGoal | js/planner.js:267-272 | flips the indexed goal only and saves |
| Planner.PlannerUI.DeleteGoal | js/planner.js:274-285 | removes the edited goal when confirmed; a new goal (index -1) or a refusal changes nothing |
| Planner.PlannerUI.CloseGoalModal | js/planner.js:287-290 | clears the editing context |
| Planner.PlannerUI.GetMonthPlan | js/planner.js:300-310 | returns the month's plan, inserting the default when absent |
| Planner.PlannerUI.AddMonthTodo | js/planner.js:350-360 | blank input changes nothing; otherwise one todo is appended to the month's list |
| Planner.PlannerUI.ToggleMonthTodo | js/planner.js:362-367 | flips the indexed month todo only and saves |
| Planner.PlannerUI.DeleteMonthTodo | js/planner.js:369-374 | removes exactly the indexed month todo and saves |
| Planner.PlannerUI.SaveMonthQuote | js/planner.js:376-380 | replaces the month's quote only |
| Planner.PlannerUI.AddMonthItem | js/planner.js:403-412 | a cancelled or blank prompt changes nothing; otherwise one todo is appended to the category |
| Planner.PlannerUI.ToggleMonthItem | js/planner.js:414-419 | flips the indexed item of the category only |
| Planner.PlannerUI.DeleteMonthItem | js/planner.js:421-426 | removes exactly the indexed item of the category |
| Planner.PlannerUI.GetWeekSectionPlan | js/planner.js:467-477 | returns the week's plan, inserting the section default when absent |
| Planner.PlannerUI.AddWeekSectionTodo | js/planner.js:590-596 | blank input changes nothing; otherwise one todo is appended to the week's list |
| Planner.PlannerUI.ToggleWeekSectionTodo | js/planner.js:598-603 | flips the indexed week todo only |
| Planner.PlannerUI.DeleteWeekSectionTodo | js/planner.js:605-610 | removes exactly the indexed week todo |
| Planner.PlannerUI.SaveWeekSectionMessage | js/planner.js:612-616 | replaces the week's message only |
| Planner.PlannerUI.SaveWeekSectionNotes | js/planner.js:618-626 | 'ongoing' writes the ongoing notes and any other type the deadline notes; nothing else changes |
| Planner.PlannerUI.GetWeekPlan | js/planner.js:638-644 | returns the week view's plan, inserting its default when absent |
| Planner.PlannerUI.SaveWeekMessage | js/planner.js:654-658 | replaces the week view's message only |
| Planner.PlannerUI.GetDailyTasks | js/planner.js:820-825 | returns the date's todos, inserting [] when absent |
| Planner.PlannerUI.AddDailyTask | js/planner.js:827-839 | blank input changes nothing; otherwise one todo is appended to the date |
| Planner.PlannerUI.ToggleDailyTask | js/planner.js:841-851 | flips the indexed daily todo only |
| Planner.PlannerUI.DeleteDailyTask | js/planner.js:853-863 | removes exactly the indexed daily todo |
| Items.FromTask | js/stats.js:10-16 | a dashboard task in the combined list keeps its fields and carries no source tag |
| Items.FromTasks | js/stats.js:10-16 | one item per dashboard task, in order |
| Items.FromProjectTask | js/calendar.js:130-147 | an embedded task keeps its fields and gains its project's category, id, name, icon (calendar only) and source 'project' |
| Items.ProjectItems | js/calendar.js:133-145 | one item per task of the project, in order |
| Items.ProjectTaskItems | js/calendar.js:130-147 | as many items as embedded tasks, each the item of a task of one of the projects |
| Items.ProjectTaskItemsComplete | js/calendar.js:130-147 | every embedded task of every project appears |
| Items.ProjectTaskItemsIconOnly | js/stats.js:30-46 | the statistics copy of getProjectTasks differs from the calendar's only in the icon |
| Calendar.FirstWeekMatch | js/calendar.js:220 | the leftmost match of the unanchored week pattern, or none |
| Calendar.WeekKeyDate | js/calendar.js:220-222 | a date is extracted exactly when the pattern matches somewhere, and it has the shape "YYYY-MM-DD" |
| Calendar.SectionKeyDate | js/calendar.js:220-222 | the key getWeekSectionKey makes yields its own start date |
| Calendar.WeekViewKeyNeverMatches | js/calendar.js:220-222 | week-view keys "YYYY-Www" never match, so their todos never reach the calendar |
| Calendar.CompletedAtOr | js/calendar.js:207 | null for an incomplete todo; for a completed one the stored completedAt, or else the fallback |
| Calendar.DailyItem | js/calendar.js:202-210 | id `planner_daily_<date>_<index>`, the todo's text, the date as deadline, source 'planner', and completedAt falling back to noon of the date |
| Calendar.WeekItem | js/calendar.js:223-231 | id `planner_week_<key>_<index>`, the key's date as deadline, and completedAt falling back to noon of that date |
| Calendar.MonthItem | js/calendar.js:243-253 | id `planner_month_<key>_<index>`, the first of the month as deadline, the todo's label kept, and no completedAt fallback |
| Calendar.DayTodoItems | js/calendar.js:201-211 | one daily item per todo of the date, in order |
| Calendar.DailyItems | js/calendar.js:197-213 | the daily part has one item per daily todo |
| Calendar.WeekTodoItems | js/calendar.js:215-235 | a week plan contributes only when it has todos and its key matches, one item per todo |
| Calendar.WeekItems | js/calendar.js:215-235 | the week part has one item per todo of the matching weeks |
| Calendar.MonthTodoItems | js/calendar.js:241-254 | one month item per todo of the month, in order |
| Calendar.MonthItems | js/calendar.js:237-256 | the month part has one item per month todo |
| Calendar.ExtractPlannerTasks | js/calendar.js:195-259 | the length is the daily plus matching-week plus month todos, laid out daily, then week, then month; every item is a planner item whose completedAt implies completion |
| Calendar.DailyTodoListed | js/calendar.js:197-213 | every todo of every date appears as its daily item |
| Calendar.WeekTodoListed | js/calendar.js:215-235 | every todo of a week plan whose key matches the week pattern appears as its week item, dated by the key |
| Calendar.MonthTodoListed | js/calendar.js:237-256 | every todo of every month appears as its month item |
| Calendar.MonthItemDeadline | js/calendar.js:243 | a month key from getMonthKey gives the first of the month, as formatDateKey writes it, as deadline |
| Calendar.PlannerTasks | js/calendar.js:153-176 | the planner page's data first, then the fetched copy, then parsed storage, and otherwise no items |
| Calendar.CalendarManager.constructor | js/calendar.js:5-6 | no fetched copy |
| Calendar.CalendarManager.FetchPlannerData | js/calendar.js:179-193 | a successful fetch sets the cache and mirrors it to storage; a failed one changes nothing |
| Calendar.CalendarManager.PlannerTasksAfterFetch | js/calendar.js:153-193 | without a planner page, the items come from the freshly fetched copy |
| Calendar.DayMarkersInDetails | js/calendar.js:69-70 | no item is both due and done on a day, both kinds are listed in the day details, and the two markers together count at most the details |
| Calendar.DueProjectsListed | js/calendar.js:73 | projects marked due on a day are listed in its details |
| Calendar.DueOn | js/calendar.js:69 | a cell's deadline marker: open items due that day; `Calendar.DayMarkersInDetails` relates the markers |
| Calendar.DoneOn | js/calendar.js:70 | a cell's completion marker: completed items whose truthy completedAt starts with the day |
| Calendar.ListedOn | js/calendar.js:281-284 | the day details: items due that day or whose truthy completedAt starts with the day |
| Calendar.DueProjects | js/calendar.js:73 | the unfinished projects due that day, in list order |
| Calendar.ListedProjects | js/calendar.js:288 | every project due that day, in list order; `Calendar.DueProjectsListed` relates it to DueProjects |
| Stats.Combined | js/stats.js:10-16 | dashboard items, then project items, then planner items |
| Stats.CompletedItems | js/stats.js:16 | exactly the completed items of the combined list |
| Stats.Weight | js/stats.js:189-200 | 3 exactly for high, 2 exactly for medium, otherwise 1 |
| Stats.WeightSumBounds | js/stats.js:189-200 | n ≤ score ≤ 3n for n completed items |
| Stats.FocusScore | js/stats.js:189-200 | the loop sums the weights: 0 for no items, otherwise between n and 3n |
| Stats.WeightSum | js/stats.js:189-200 | the weighted sum of calculateFocusScore: 3, 2 and 1 per high, medium and other item; `Stats.WeightSumBounds` bounds it |
| Stats.Basic | js/stats.js:158-163 | completed plus pending is the total; the rate is 0 for no items, otherwise the percentage rounded over exact rationals, in 0..100, 100 when all are done and 0 when none is |
| Stats.FilterKeepsAllWhenFull | js/stats.js:16 | a filter that keeps as many items as it is given keeps all of them |
| Stats.FullRateWhenAllDone | js/stats.js:158-163 | every item completed gives a rate of 100 |
| Stats.FullRateWithOpenItem | js/stats.js:161 | 199 of 200 completed also shows 100 |
| Stats.HeatLevel | js/stats.js:227-232 | level 0 for 0, 1 for 1–2, 2 for 3–4, 3 for 5–6 and 4 from 7 |
| Stats.HeatLevelMonotone | js/stats.js:227-232 | more completions never give a paler cell |
| Stats.DatePart | js/stats.js:216 | `split('T')[0]`: the prefix before the first 'T' |
| Stats.ActivityCounts | js/stats.js:214-220 | each day's entry counts exactly the items completed that day, and a day without completions has no entry |
| Stats.RecordCount | js/stats.js:214-220 | recording one item adds one to its completion day's count and leaves every other day as it was |
| Stats.ActivityMap | js/stats.js:214-220 | the forEach loop builds that activity map |
| Stats.Activity | js/stats.js:214-220 | the activity map as an object whose days appear in order of first completion; `Stats.ActivityMap` states each day's count |
| Stats.CategoryChartCounts | js/stats.js:248-259 | the counting loop counts the open items of work, research, study and private |
| Stats.CountsOf | js/stats.js:248-259 | the four chart counters: open items of work, research, study and private; `Stats.CountsBound` bounds their sum |
| Stats.CountsBound | js/stats.js:248-259 | the chart never counts more than the open items |
| Stats.CertificationNotCounted | js/stats.js:248-259 | a 'certification' item changes no counter |
| Meetings.NewMeeting | js/meetings.js:103-122 | '' for absent text fields, the current time for a missing datetime, [] action items, and null Teams fields |
| Meetings.MergeMeeting | js/meetings.js:124-136 | the merged meeting carries the new updatedAt and each field the updates carry; empty updates change only updatedAt |
| Meetings.MergeMeetingIdempotent | js/meetings.js:124-136 | applying the same update twice equals applying it once |
| Meetings.IndexOfMeeting | js/meetings.js:125 | the first meeting with the id, or -1 |
| Meetings.MeetingById | js/meetings.js:148-150 | getMeeting finds a meeting exactly when one has the id, and it is the first such meeting |
| Meetings.WithActions | js/meetings.js:162-164 | exactly the meetings with at least one action item |
| Meetings.Search | js/meetings.js:166-174 | exactly the meetings whose title, project, participants or transcript contain the lower-cased query |
| Meetings.SearchProperties | js/meetings.js:166-174 | the search ignores the case of the query, and the empty query finds every meeting in order |
| Meetings.LocalMeetings | js/meetings.js:80-92 | the parsed local copy, or none when it is absent or unparsable |
| Meetings.LoadPolicy | js/meetings.js:10-44 | a non-empty server list is adopted; an empty one loads the local list and pushes it up only when non-empty; a failed fetch falls back to the local list |
| Meetings.InitialMeetings | js/meetings.js:10-44 | the list init ends with: a non-empty server list, else the local copy; `Meetings.LoadPolicy` states the cases |
| Meetings.MeetingsManager.constructor | js/meetings.js:5-8 | no meetings and nothing pending |
| Meetings.MeetingsManager.LoadFromStorage | js/meetings.js:80-92 | the meetings become the local copy |
| Meetings.MeetingsManager.SaveToServer | js/meetings.js:46-70 | writes the local copy at once and leaves exactly one server write pending |
| Meetings.MeetingsManager.FireScheduledWrite | js/meetings.js:51-66 | the pending write sends the list as it is when it fires |
| Meetings.MeetingsManager.SaveToStorage | js/meetings.js:94-97 | the local write, then saveToServer |
| Meetings.MeetingsManager.Init | js/meetings.js:10-44 | the meetings follow the load policy, and a write is scheduled only when local meetings are pushed up |
| Meetings.MeetingsManager.AddMeeting | js/meetings.js:103-122 | the new meeting goes first, the rest keep their order, and the length grows by one |
| Meetings.MeetingsManager.UpdateMeeting | js/meetings.js:124-136 | merges into the first meeting with the id, or returns null with no change |
| Meetings.MeetingsManager.DeleteMeeting | js/meetings.js:138-146 | removes the first meeting with the id and returns true, or returns false with no change |
| Meetings.TwoSavesOneWrite | js/meetings.js:46-70 | two saves before the timer fires cost one server write, which carries the later list |
| App.EscapeChar | js/app.js:40-50 | & < > ' " become &amp; &lt; &gt; &#39; &quot;, and every other character stays |
| App.EscapeAll | js/app.js:40-50 | the escaped text contains no < > ' " |
| App.EscapeHTML | js/app.js:40-50 | '' for missing or empty input, otherwise the escaped text |
| App.UnescapeStep | js/app.js:40-50 | decoding undoes one escaped character, whatever follows |
| App.EscapeRoundTrip | js/app.js:40-50 | decoding the entities gives the original text back |
| App.EscapePlain | js/app.js:40-50 | text without special characters is left as it is |
| App.Rank | js/app.js:190-193 | a rank exists exactly for high, medium and low |
| App.Compare | js/app.js:187-199 | an incomplete task always sorts before a completed one |
| App.DateDiffSign | js/app.js:195 | the sign of `new Date(a.deadline) - new Date(b.deadline)`, as the order of "YYYY-MM-DD" strings |
| App.DateDiffSignOrder | js/app.js:195 | swapping the two deadlines flips the sign, and the difference is 0 only for equal deadlines |
| Strings.StrLessTrichotomy | js/app.js:195 | the string order behind the deadline comparison is a strict total order: exactly one of a < b, a == b, b < a |
| App.CompareInconsistent | js/app.js:194-197 | two tasks without deadlines that tie on the earlier keys each compare greater than the other |
| App.Insert | js/app.js:187-199 | one insertion step adds the task to the multiset and nothing else |
| App.SortTasks | js/app.js:187-189 | the result is a permutation of the input |
| App.InsertSorted | js/app.js:187-199 | inserting keeps the list ordered by any key the comparator respects |
| App.SortTasksSortedBy | js/app.js:187-199 | the sort orders the list by any key the comparator respects |
| App.SortTasksCompletedLast | js/app.js:187-189 | a permutation of the input with every open task before every completed one |
| App.SortTasksPriorityOrder | js/app.js:190-193 | when every priority is known, tasks of equal completion are ordered high, then medium, then low |
| App.UnknownPriorityBlocksOrder | js/app.js:190-193 | an unknown priority between a low and a high task leaves the list unsorted by priority |
| App.VisibilityRules | js/app.js:807-833 | hiding completed tasks and the active, overdue and high filters never show a completed task; the search is case-insensitive; an unknown filter acts as 'all'; 'today' shows only tasks due today; with no search, filter or hiding every task shows |
| App.IsVisible | js/app.js:807-833 | the visibility rule of applyFiltersAndSort for one task; its rules are `App.VisibilityRules` |
| App.CountBounds | js/app.js:712-718 | active ≤ all, and overdue, high and this-week ≤ active; no task is both overdue and due this week, so overdue plus this-week ≤ active |
| App.CountsMatchFilters | js/app.js:712-744 | each filter button's count is the number of tasks that filter shows without search or hiding |
| App.Counts | js/app.js:707-745 | the counts of updateFilterCounts; `App.CountBounds` and `App.CountsMatchFilters` relate them |
| App.Toolbar.constructor | js/app.js:5-9 | the 'all' filter, completed tasks shown, focus mode off |
| App.Toolbar.SetTaskFilter | js/app.js:748-757 | sets the filter |
| App.Toolbar.ToggleCompletedTasks | js/app.js:768-776 | flips hideCompleted |
| App.Toolbar.ToggleFocusMode | js/app.js:778-794 | flips focus mode; the filter becomes 'high' when turning it on and 'all' when turning it off |
| App.ToggleTwice | js/app.js:768-794 | toggling hideCompleted twice restores it; toggling focus mode twice restores focus mode, and the filter ends as the last toggle set it ('high' in focus mode, 'all' otherwise), so a filter chosen before is lost |
| App.LinkTaskToProject | js/app.js:679-701 | a choice 1..n sets the task's project to the name of project n; any other choice, or an unknown task, changes nothing; the memos, their storage and the legacy storage never change |
| App.ProjectNames | js/app.js:694-699 | the names of the projects, in order |
| Server.RFind | server.py:465 | `str.rfind`: the last start of the separator lying wholly inside the window, or -1 when there is none |
| Server.CutEnd | server.py:464-468 | the window is kept, or cut just after a separator that starts beyond its middle |
| Server.CutEndFirstSeparator | server.py:464-468 | the first separator, in the listed order, whose last occurrence starts beyond the middle decides the cut |
| Server.CutEndNoSeparator | server.py:464-468 | with no such separator the window is kept whole |
| Server.ChunkText | server.py:446-471 | the chunks concatenate to the text; a text of at most 8000 characters is one chunk; a longer one gives exactly `Chunks(text, 0)`, each chunk running to the NextEnd of its start; a non-empty text gives chunks of 1..8000 characters; every chunk but the last is longer than 4000 and is a full window or ends after a separator |
| Server.NextEnd | server.py:460-468 | the end of the window starting at a position: never past 8000 characters or the text's end, the text's end when the window reaches it, otherwise CutEnd's cut, which is longer than 4000 and a full window or ends after a separator |
| Server.Chunks | server.py:457-470 | the chunks from a position on: each of 1..8000 characters, the first running from the position to its NextEnd |
| Server.ChunksShape | server.py:457-470 | every chunk but the last is longer than 4000 characters and is a full window or ends after a separator |
| Server.CutChunkShape | server.py:464-468 | a cut window ends with one of the separators and is longer than half the chunk limit |
| Server.ChunkShape | server.py:459-470 | each pass advances the position by at most 8000, and a chunk that is not the last is longer than 4000 |
| Server.AudioGate | server.py:574-577 | missing audio or fewer than 100 bytes is rejected with 400 |
| Server.AfterLastDot | server.py:611 | `rsplit('.', 1)[-1]`: the suffix after the last dot |
| Server.AudioExt | server.py:588-616 | conversion is needed exactly for .mov, .avi and .mkv, and the extension is always from the fixed whitelist |
| Server.TypeDecidesExt | server.py:592-608 | a content type naming a known format decides the extension whatever the filename |
| Server.FilenameFallback | server.py:609-616 | without a telling content type, a known extension is kept lower-cased and an unknown one gives .webm |
| Server.AfterLastDotSuffix | server.py:611 | the suffix after the last dot of `name.ext` is `ext` |
| Server.WeeksRemaining | server.py:163-164 | `max(1, days // 7)`: at least 1, and the number of whole weeks once there are at least 7 days |

## Left out

- Rendering: HTML strings, Chart.js, modals and the DOM are not modelled. `alert`, `confirm` and `prompt` are modelled only as parameters (the confirmation answer, the prompt's text, the parsed choice).
- Clocks and dates: the current time, "today" and the week-end date are parameters. `getStreak`, `getWeeklyCompletedCount`, `getRecentMeetings`, `getProjectsWithDeadline`, `getProjectsDueThisWeek`, `renderMonthWeeks`, `isToday` and `formatDate` depend on `Date` and are not modelled. The same goes for `getWeekNumber` (ISO 8601 week numbering): `Planner.WeekViewKey` takes the week number as given.
- Id generation from `Date.now()` and `Math.random()`: ids are parameters, and nothing claims they are unique.
- Storage quota errors, JSON serialisation and the network: a save sets the stored value to `Parsed` of the new state, and a fetch is an input (`Fetched`, or an `Option` of the data).
- The debounce timer of saveToServer is modelled as a pending flag, and timing is not modelled.
- Strings.Lower: lower-cases ASCII letters only; full Unicode case mapping is not modelled.
- Strings.Trim: trims the usual ASCII whitespace, no-break space, U+3000 and the byte-order mark, not every Unicode space.
- App.DateDiffSign: `new Date(a) - new Date(b)` is modelled as the order of the date strings, which agrees for "YYYY-MM-DD" strings; other date formats are not modelled.
- App.SortTasks: `Array.prototype.sort` with an inconsistent comparator has no defined result. The model is one admissible outcome (a stable insertion sort), so its ordering lemmas say what that sort gives.
- App.Compare: a comparison involving an undefined priority rank is NaN in JavaScript and is treated as 0, which is how the sort treats it.
- Projects.ProjectsByCategory, Projects.ProjectsByStatus, Projects.RelatedTasks, Tasks.MemosByProject, Tasks.MemosWithoutProject, Meetings.WithActions, Meetings.Search, DataSync.TasksByDate, DataSync.WeekTasks, DataSync.WeekProjects, DataSync.OpenWeekTasks, DataSync.OpenWeekProjects, Stats.CompletedItems: the contracts of these `Array.prototype.filter` models state which elements are kept, not their order or how often each appears. Their order and multiplicity are those of the input, by construction (`Seqs.Filter`, or a loop that appends at the end), but no contract says so. Counts taken from them, such as the completed count of `Stats.Basic`, rest on that construction.
- Common.RoundPercent, Projects.Progress, Stats.Basic: the percentage is rounded over exact rationals, while JavaScript rounds the double `(part / whole) * 100`. When that double lands just below a half, the model's value is one more than the JavaScript value (23 of 40: JavaScript gives 57, the model 58).
- Planner.PlannerUI.EditGoal, Planner.PlannerUI.SaveGoal, Planner.PlannerUI.ToggleGoal, Planner.PlannerUI.ToggleMonthTodo, Planner.PlannerUI.ToggleMonthItem, Planner.PlannerUI.DeleteMonthItem, Planner.PlannerUI.AddWeekSectionTodo, Planner.PlannerUI.ToggleWeekSectionTodo, Planner.PlannerUI.DeleteWeekSectionTodo, Planner.PlannerUI.ToggleDailyTask: an index past the list, a missing month category or a week section without a `todos` array makes the JavaScript throw a TypeError, after the lazy getter has already inserted its default entry (js/planner.js:234-237, 256-258, 268, 364, 416, 423, 591-607, 843). Their `requires` exclude these inputs, so the model does not capture that error path. The page only calls them with indices and categories it has rendered. AddWeekSectionTodo with blank input returns before reading the data, and its `requires` allows that case.
- Planner: the page re-renders after navigation and after each save or toggle, and the lazy getters used while rendering (getYearGoals, getMonthPlan, getWeekSectionPlan, getWeekPlan, getDailyTasks) insert default entries into the data. The model leaves `data` unchanged on navigation. No getter can tell the difference, but the next save writes those default entries to storage, and the model does not capture that.
- Assoc: JavaScript lists integer-like keys (such as a year "2025") first, in numeric order. The model keeps insertion order for every key. This matters only for the goals, which are keyed by year, and no modelled output lists the years.
- Gamification.Requirement: a table slot holding 0 falls back to 999999 like a missing slot (`||`). The model keeps the whole table, and the table lemmas cover the generated table only.
- JSON shape: stored planner months always carry a todo list, meetings carry all their fields, and an item keeps only the fields the calendar and statistics read.
- Stats: `_extractPlannerTasks` of js/stats.js is a copy of the calendar's and is defined once, as `Calendar.ExtractPlannerTasks`. The other two behave like the calendar's versions, and they are modelled by the same members:
  - `getPlannerTasks` (js/stats.js:48-70) prefers the planner page's data, then the calendar's fetched copy, then parsed storage, else []. That is `Calendar.PlannerTasks` with the calendar's cache as the cache; its storage branch is written differently but gives the same result.
  - `getProjectTasks` (js/stats.js:29-45) differs from the calendar's only in leaving out `projectIcon`: it is `Items.ProjectTaskItems` with the icon left out.
  - The `typeof` checks for a missing module are not modelled, because every module is present in the model.
  - A comment at js/stats.js:120 says that a month todo's completedAt falls back to the first of the month when it is missing. The code sets completedAt to null in that case and uses the first of the month only as the deadline. `Calendar.MonthItem` follows the code, not the comment.
- Server: the HTTP dispatch, the OpenAI and Whisper calls, ffmpeg and ffprobe, temporary files, JSON file storage and the floating-point bitrate computation are I/O or floating point and are not modelled. `days_remaining` is a parameter. Python strings are modelled as sequences of code points.
- js/projects.js, js/memos.js, js/ai_planner.js, sw.js and generate_icons.py are not part of this model. They are UI, browser I/O or image drawing over the stores modelled here.
